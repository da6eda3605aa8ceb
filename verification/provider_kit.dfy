/** What the concrete providers (the Claude, Gemini and OpenAI providers)
    share: the cached character-count heuristic of the Claude and Gemini counters, reading
    token figures out of a decoded JSON response, and pricing a model from
    the configuration. */
module ProviderKit {
  import opened Wrappers
  import opened Errors
  import opened Models
  import opened Utils
  import Json
  import Configuration

  // ---------------------------------------------------------------------------
  // Heuristic counting with the token cache
  // ---------------------------------------------------------------------------

  /** A character-count heuristic: the provider name its cache entries are
      filed under (with an empty model), the tokens charged per message,
      the token estimate for a number of characters, and the response
      estimate for a model and an input count. */
  datatype Heuristic = Heuristic(
    cacheName: string,
    perMessage: int,
    fromLength: nat -> int,
    estimate: (string, int) -> int)

  /** Every cache entry of this heuristic holds what it would compute for
      the text: the estimate from the text's length. */
  ghost predicate Coherent(h: Heuristic, cache: Cache)
  {
    forall t :: GetCached(cache, h.cacheName, "", t).Some? ==>
      GetCached(cache, h.cacheName, "", t).value == h.fromLength(|t|)
  }

  /** `approximateTokenCount`: a cached count when there is one, otherwise
      the estimate from the length, which is then cached. */
  function Approximate(h: Heuristic, cache: Cache, text: string): (r: (int, Cache))
    ensures GetCached(r.1, h.cacheName, "", text) == Some(r.0)
  {
    match GetCached(cache, h.cacheName, "", text)
    case Some(count) => (count, cache)
    case None =>
      var count := h.fromLength(|text|);
      (count, SetCached(cache, h.cacheName, "", text, count))
  }

  /** With a coherent cache the cached path and the computed path agree,
      and the cache stays coherent: entries only ever hold the estimate
      of a text with the same key, hence of the same length. */
  lemma ApproximateCoherent(h: Heuristic, cache: Cache, text: string)
    requires ColonFree(h.cacheName) && Coherent(h, cache)
    ensures Approximate(h, cache, text).0 == h.fromLength(|text|)
    ensures Coherent(h, Approximate(h, cache, text).1)
  {
    if GetCached(cache, h.cacheName, "", text).None? {
      var count := h.fromLength(|text|);
      var cache' := SetCached(cache, h.cacheName, "", text, count);
      forall t | GetCached(cache', h.cacheName, "", t).Some?
        ensures GetCached(cache', h.cacheName, "", t).value == h.fromLength(|t|)
      {
        if CacheKey(h.cacheName, "", t) == CacheKey(h.cacheName, "", text) {
          KeySeparates(h.cacheName, "", t, h.cacheName, "", text);
        } else {
          SetCachedFrame(cache, h.cacheName, "", text, count, h.cacheName, "", t);
        }
      }
    }
  }

  /** A heuristic filed under another colon-free name does not disturb this
      one's entries, so providers can share the process-wide cache. */
  lemma ApproximateKeepsOthersCoherent(h: Heuristic, g: Heuristic, cache: Cache, text: string)
    requires ColonFree(h.cacheName) && ColonFree(g.cacheName) && h.cacheName != g.cacheName
    requires Coherent(g, cache)
    ensures Coherent(g, Approximate(h, cache, text).1)
  {
    var cache' := Approximate(h, cache, text).1;
    forall t | GetCached(cache', g.cacheName, "", t).Some?
      ensures GetCached(cache', g.cacheName, "", t).value == g.fromLength(|t|)
    {
      if GetCached(cache, h.cacheName, "", text).None? {
        if CacheKey(h.cacheName, "", text) == CacheKey(g.cacheName, "", t) {
          KeySeparates(h.cacheName, "", text, g.cacheName, "", t);
        }
        SetCachedFrame(cache, h.cacheName, "", text, h.fromLength(|text|), g.cacheName, "", t);
      }
    }
  }

  /** The JSON encoding of an optional request part: `None` when the part
      is absent, otherwise the outcome of encoding it. */
  function ToolsJson(tools: seq<Tool>, marshal: Marshaller): Option<Result<string, Error>>
  {
    if |tools| > 0 then Some(marshal.tools(tools)) else None
  }

  function ToolChoiceJson(toolChoice: Option<ToolChoice>, marshal: Marshaller): Option<Result<string, Error>>
  {
    if toolChoice.Some? then Some(marshal.toolChoice(toolChoice.value)) else None
  }

  /** The tokens an optional encoded part adds: its estimate when present
      and encodable, nothing otherwise. */
  function EncodedTokens(h: Heuristic, encoded: Option<Result<string, Error>>): int
  {
    if encoded.Some? && encoded.value.Ok? then h.fromLength(|encoded.value.value|) else 0
  }

  /** Adds the count of an optional encoded part through the cache. */
  function AddEncoded(h: Heuristic, count: int, cache: Cache, encoded: Option<Result<string, Error>>): (r: (int, Cache))
  {
    if encoded.Some? && encoded.value.Ok? then
      var (n, c) := Approximate(h, cache, encoded.value.value); (count + n, c)
    else (count, cache)
  }

  lemma AddEncodedCoherent(h: Heuristic, count: int, cache: Cache, encoded: Option<Result<string, Error>>)
    requires ColonFree(h.cacheName) && Coherent(h, cache)
    ensures AddEncoded(h, count, cache, encoded).0 == count + EncodedTokens(h, encoded)
    ensures Coherent(h, AddEncoded(h, count, cache, encoded).1)
  {
    if encoded.Some? && encoded.value.Ok? {
      ApproximateCoherent(h, cache, encoded.value.value);
    }
  }

  /** The message count the heuristic intends: the estimate of the
      extracted text, a fixed charge per message, and the estimates of the
      tools and the tool choice when present and encodable. */
  function MessagesEstimate(h: Heuristic, messages: seq<Message>, tools: seq<Tool>,
                            toolChoice: Option<ToolChoice>, marshal: Marshaller): int
  {
    h.fromLength(|ExtractTextFromMessages(messages)|) + |messages| * h.perMessage
    + EncodedTokens(h, ToolsJson(tools, marshal))
    + EncodedTokens(h, ToolChoiceJson(toolChoice, marshal))
  }

  /** `countMessageTokens` of the Claude and Gemini providers. */
  function CountMessages(h: Heuristic, cache: Cache, messages: seq<Message>, tools: seq<Tool>,
                         toolChoice: Option<ToolChoice>, marshal: Marshaller): (r: (int, Cache))
  {
    CountParts(h, cache, ExtractTextFromMessages(messages), |messages|,
               ToolsJson(tools, marshal), ToolChoiceJson(toolChoice, marshal))
  }

  /** The message count once the text is extracted and the optional parts
      encoded: the text through the cache, the per-message charge, then
      the tools and the tool choice through the cache. */
  function CountParts(h: Heuristic, cache: Cache, text: string, messageCount: int,
                      tools: Option<Result<string, Error>>, toolChoice: Option<Result<string, Error>>): (r: (int, Cache))
  {
    var (n, c1) := Approximate(h, cache, text);
    var (withTools, c2) := AddEncoded(h, n + messageCount * h.perMessage, c1, tools);
    AddEncoded(h, withTools, c2, toolChoice)
  }

  lemma CountPartsCoherent(h: Heuristic, cache: Cache, text: string, messageCount: int,
                           tools: Option<Result<string, Error>>, toolChoice: Option<Result<string, Error>>)
    requires ColonFree(h.cacheName) && Coherent(h, cache)
    ensures CountParts(h, cache, text, messageCount, tools, toolChoice).0
         == h.fromLength(|text|) + messageCount * h.perMessage + EncodedTokens(h, tools) + EncodedTokens(h, toolChoice)
    ensures Coherent(h, CountParts(h, cache, text, messageCount, tools, toolChoice).1)
  {
    var first := Approximate(h, cache, text);
    ApproximateCoherent(h, cache, text);
    var base := first.0 + messageCount * h.perMessage;
    var second := AddEncoded(h, base, first.1, tools);
    AddEncodedCoherent(h, base, first.1, tools);
    AddEncodedCoherent(h, second.0, second.1, toolChoice);
  }

  /** With a coherent cache the message count is the intended estimate,
      and the cache stays coherent. */
  lemma CountMessagesCoherent(h: Heuristic, cache: Cache, messages: seq<Message>, tools: seq<Tool>,
                              toolChoice: Option<ToolChoice>, marshal: Marshaller)
    requires ColonFree(h.cacheName) && Coherent(h, cache)
    ensures CountMessages(h, cache, messages, tools, toolChoice, marshal).0
         == MessagesEstimate(h, messages, tools, toolChoice, marshal)
    ensures Coherent(h, CountMessages(h, cache, messages, tools, toolChoice, marshal).1)
  {
    CountPartsCoherent(h, cache, ExtractTextFromMessages(messages), |messages|,
                       ToolsJson(tools, marshal), ToolChoiceJson(toolChoice, marshal));
  }

  function EitherTextOrMessages(): Error
  {
    NewError(InvalidParams, "either text or messages must be provided", None)
  }

  function ModelRequired(): Error
  {
    NewError(InvalidParams, "model is required", None)
  }

  /** The count result once the input tokens are known: the response
      tokens are estimated only when asked for. */
  function WithResponse(h: Heuristic, params: TokenCountParams, input: int): (c: TokenCount)
    ensures Balanced(c) && c.inputTokens == input
    ensures c.responseTokens == if params.countResponseTokens then h.estimate(params.model, input) else 0
  {
    CountOf(input, if params.countResponseTokens then h.estimate(params.model, input) else 0)
  }

  /** `CountTokens` of the Claude and Gemini providers. */
  function CountTokens(h: Heuristic, cache: Cache, params: TokenCountParams, marshal: Marshaller): (r: (Result<TokenCount, Error>, Cache))
    ensures r.0.Fail? ==> r.1 == cache
  {
    if params.model == "" then (Fail(ModelRequired()), cache)
    else if params.text.Some? then
      var (n, c) := Approximate(h, cache, params.text.value);
      (Ok(WithResponse(h, params, n)), c)
    else if |params.messages| > 0 then
      var (n, c) := CountMessages(h, cache, params.messages, params.tools, params.toolChoice, marshal);
      (Ok(WithResponse(h, params, n)), c)
    else (Fail(EitherTextOrMessages()), cache)
  }

  /** The count the heuristic intends, independent of any cache: a model is
      required; text, when given, is counted and the messages ignored;
      otherwise there must be messages. */
  function IntendedCount(h: Heuristic, params: TokenCountParams, marshal: Marshaller): (r: Result<TokenCount, Error>)
    ensures params.model == "" ==> r == Fail(ModelRequired())
    ensures params.model != "" && params.text.None? && |params.messages| == 0 ==> r == Fail(EitherTextOrMessages())
    ensures r.Ok? <==> params.model != "" && (params.text.Some? || |params.messages| > 0)
    ensures r.Ok? ==> Balanced(r.value)
    ensures r.Ok? && params.text.Some? ==> r.value.inputTokens == h.fromLength(|params.text.value|)
    ensures r.Ok? && params.text.None? ==>
              r.value.inputTokens == MessagesEstimate(h, params.messages, params.tools, params.toolChoice, marshal)
  {
    if params.model == "" then Fail(ModelRequired())
    else if params.text.Some? then Ok(WithResponse(h, params, h.fromLength(|params.text.value|)))
    else if |params.messages| > 0 then
      Ok(WithResponse(h, params, MessagesEstimate(h, params.messages, params.tools, params.toolChoice, marshal)))
    else Fail(EitherTextOrMessages())
  }

  /** With a coherent cache the cached count is the intended count, and
      the cache stays coherent. */
  lemma CountTokensCoherent(h: Heuristic, cache: Cache, params: TokenCountParams, marshal: Marshaller)
    requires ColonFree(h.cacheName) && Coherent(h, cache)
    ensures CountTokens(h, cache, params, marshal).0 == IntendedCount(h, params, marshal)
    ensures Coherent(h, CountTokens(h, cache, params, marshal).1)
  {
    if params.model != "" {
      if params.text.Some? {
        ApproximateCoherent(h, cache, params.text.value);
      } else if |params.messages| > 0 {
        CountMessagesCoherent(h, cache, params.messages, params.tools, params.toolChoice, marshal);
      }
    }
  }

  /** Counting with one heuristic leaves the entries of a heuristic filed
      under another colon-free name coherent, whatever is counted: the
      Claude and Gemini counters can share one cache. */
  lemma CountTokensKeepsOthersCoherent(h: Heuristic, g: Heuristic, cache: Cache, params: TokenCountParams, marshal: Marshaller)
    requires ColonFree(h.cacheName) && ColonFree(g.cacheName) && h.cacheName != g.cacheName
    requires Coherent(g, cache)
    ensures Coherent(g, CountTokens(h, cache, params, marshal).1)
  {
    if params.model != "" {
      if params.text.Some? {
        ApproximateKeepsOthersCoherent(h, g, cache, params.text.value);
      } else if |params.messages| > 0 {
        CountPartsKeepsOthersCoherent(h, g, cache, ExtractTextFromMessages(params.messages), |params.messages|,
                                      ToolsJson(params.tools, marshal), ToolChoiceJson(params.toolChoice, marshal));
      }
    }
  }

  lemma CountPartsKeepsOthersCoherent(h: Heuristic, g: Heuristic, cache: Cache, text: string, messageCount: int,
                                      tools: Option<Result<string, Error>>, toolChoice: Option<Result<string, Error>>)
    requires ColonFree(h.cacheName) && ColonFree(g.cacheName) && h.cacheName != g.cacheName
    requires Coherent(g, cache)
    ensures Coherent(g, CountParts(h, cache, text, messageCount, tools, toolChoice).1)
  {
    var first := Approximate(h, cache, text);
    ApproximateKeepsOthersCoherent(h, g, cache, text);
    var second := AddEncoded(h, first.0 + messageCount * h.perMessage, first.1, tools);
    AddEncodedKeepsOthersCoherent(h, g, first.0 + messageCount * h.perMessage, first.1, tools);
    AddEncodedKeepsOthersCoherent(h, g, second.0, second.1, toolChoice);
  }

  lemma AddEncodedKeepsOthersCoherent(h: Heuristic, g: Heuristic, count: int, cache: Cache,
                                      encoded: Option<Result<string, Error>>)
    requires ColonFree(h.cacheName) && ColonFree(g.cacheName) && h.cacheName != g.cacheName
    requires Coherent(g, cache)
    ensures Coherent(g, AddEncoded(h, count, cache, encoded).1)
  {
    if encoded.Some? && encoded.value.Ok? {
      ApproximateKeepsOthersCoherent(h, g, cache, encoded.value.value);
    }
  }

  // ---------------------------------------------------------------------------
  // Token figures of a decoded JSON response
  // ---------------------------------------------------------------------------

  function NilResponse(): Error { NewError(InvalidParams, "response is nil", None) }
  function NotAMap(): Error { NewError(InvalidParams, "response is not a map", None) }
  function NoUsage(): Error { NewError(InvalidParams, "usage information not found in response", None) }
  function NoCounts(): Error { NewError(InvalidParams, "token counts not found in response", None) }

  /** The response's "usage" object; nil, a non-object response and a
      missing or non-object "usage" are each their own error. */
  function UsageObject(response: Json.Value): (r: Result<map<string, Json.Value>, Error>)
    ensures response.JNull? ==> r == Fail(NilResponse())
    ensures !response.JNull? && !response.JMap? ==> r == Fail(NotAMap())
    ensures response.JMap? && Json.MapField(response.fields, "usage").None? ==> r == Fail(NoUsage())
    ensures r.Ok? <==> response.JMap? && Json.MapField(response.fields, "usage").Some?
    ensures r.Ok? ==> r.value == Json.MapField(response.fields, "usage").value
  {
    if response.JNull? then Fail(NilResponse())
    else if !response.JMap? then Fail(NotAMap())
    else match Json.MapField(response.fields, "usage")
      case None => Fail(NoUsage())
      case Some(usage) => Ok(usage)
  }

  /** The Anthropic shape: "input_tokens" and "output_tokens", total their sum. */
  function ExtractInputOutput(response: Json.Value): (r: Result<TokenCount, Error>)
    ensures UsageObject(response).Fail? ==> r == Fail(UsageObject(response).error)
    ensures r.Ok? <==> UsageObject(response).Ok? &&
                       Json.NumField(UsageObject(response).value, "input_tokens").Some? &&
                       Json.NumField(UsageObject(response).value, "output_tokens").Some?
    ensures r.Ok? ==> (Balanced(r.value) &&
              r.value.inputTokens == Json.NumField(UsageObject(response).value, "input_tokens").value &&
              r.value.responseTokens == Json.NumField(UsageObject(response).value, "output_tokens").value)
  {
    match UsageObject(response)
    case Fail(e) => Fail(e)
    case Ok(usage) =>
      match (Json.NumField(usage, "input_tokens"), Json.NumField(usage, "output_tokens"))
      case (Some(i), Some(o)) => Ok(CountOf(i, o))
      case _ => Fail(NoCounts())
  }

  /** The OpenAI-style shape: "prompt_tokens", "completion_tokens" and
      "total_tokens", the total taken as stated. */
  function ExtractPromptCompletion(response: Json.Value): (r: Result<TokenCount, Error>)
    ensures UsageObject(response).Fail? ==> r == Fail(UsageObject(response).error)
    ensures r.Ok? <==> UsageObject(response).Ok? &&
                       Json.NumField(UsageObject(response).value, "prompt_tokens").Some? &&
                       Json.NumField(UsageObject(response).value, "completion_tokens").Some? &&
                       Json.NumField(UsageObject(response).value, "total_tokens").Some?
    ensures r.Ok? ==> (
              r.value.inputTokens == Json.NumField(UsageObject(response).value, "prompt_tokens").value &&
              r.value.responseTokens == Json.NumField(UsageObject(response).value, "completion_tokens").value &&
              r.value.totalTokens == Json.NumField(UsageObject(response).value, "total_tokens").value)
  {
    match UsageObject(response)
    case Fail(e) => Fail(e)
    case Ok(usage) =>
      match (Json.NumField(usage, "prompt_tokens"), Json.NumField(usage, "completion_tokens"), Json.NumField(usage, "total_tokens"))
      case (Some(p), Some(c), Some(t)) => Ok(TokenCount(p, c, t))
      case _ => Fail(NoCounts())
  }

  /** A response carrying a count in the Anthropic shape. */
  function InputOutputResponse(c: TokenCount): Json.Value
  {
    Json.JMap(map["usage" := Json.JMap(map["input_tokens" := Json.JNum(c.inputTokens),
                                           "output_tokens" := Json.JNum(c.responseTokens)])])
  }

  /** A response carrying a count in the OpenAI-style shape. */
  function PromptCompletionResponse(c: TokenCount): Json.Value
  {
    Json.JMap(map["usage" := Json.JMap(map["prompt_tokens" := Json.JNum(c.inputTokens),
                                           "completion_tokens" := Json.JNum(c.responseTokens),
                                           "total_tokens" := Json.JNum(c.totalTokens)])])
  }

  /** Reading back a balanced count written in the Anthropic shape gives it back. */
  lemma InputOutputRoundTrip(c: TokenCount)
    requires Balanced(c)
    ensures ExtractInputOutput(InputOutputResponse(c)) == Ok(c)
  {
    var usage := map["input_tokens" := Json.JNum(c.inputTokens), "output_tokens" := Json.JNum(c.responseTokens)];
    assert UsageObject(InputOutputResponse(c)) == Ok(usage);
  }

  /** Reading back any count written in the OpenAI-style shape gives it back. */
  lemma PromptCompletionRoundTrip(c: TokenCount)
    ensures ExtractPromptCompletion(PromptCompletionResponse(c)) == Ok(c)
  {
    var usage := map["prompt_tokens" := Json.JNum(c.inputTokens),
                     "completion_tokens" := Json.JNum(c.responseTokens),
                     "total_tokens" := Json.JNum(c.totalTokens)];
    assert UsageObject(PromptCompletionResponse(c)) == Ok(usage);
  }

  // ---------------------------------------------------------------------------
  // Pricing
  // ---------------------------------------------------------------------------

  function PricingNotFoundFor(model: string): Error
  {
    NewError(PricingNotFound, "pricing not found for model: " + model, None)
  }

  /** `CalculatePrice` of the providers: the model's price under the
      provider's name, applied to both token counts. */
  function PriceFromConfig(config: Configuration.Config, provider: string, model: string,
                           inputTokens: int, outputTokens: int): (r: Result<Price, Error>)
    ensures r.Ok? <==> Configuration.GetModelPricing(config, provider, model).Some?
    ensures r.Fail? ==> r.error == PricingNotFoundFor(model)
    ensures r.Ok? ==> r.value == PriceOf(Configuration.GetModelPricing(config, provider, model).value, inputTokens, outputTokens)
  {
    match Configuration.GetModelPricing(config, provider, model)
    case None => Fail(PricingNotFoundFor(model))
    case Some(pricing) => Ok(PriceOf(pricing, inputTokens, outputTokens))
  }

  /** A price just set is the price charged. */
  lemma PriceAfterUpdate(config: Configuration.Config, provider: string, model: string,
                         pricing: ModelPricing, inputTokens: int, outputTokens: int)
    ensures PriceFromConfig(Configuration.SetModelPricing(config, provider, model, pricing), provider, model, inputTokens, outputTokens)
         == Ok(PriceOf(pricing, inputTokens, outputTokens))
  {
  }
}
