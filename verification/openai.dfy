/** The OpenAI provider (providers/openai.go): counts with a byte-pair
    tokenizer chosen by model, prices from the configuration under
    "openai". It does not use the shared token cache. */
module OpenAI {
  import opened Wrappers
  import opened Errors
  import opened Models
  import Utils
  import Json
  import Configuration
  import ProviderKit
  import Registry

  const Name: string := "openai"

  /** The tiktoken library, reduced to what the provider reads from it:
      whether an encoding can be loaded, and how many tokens a text
      encodes to under a loaded encoding. */
  datatype Tokenizer = Tokenizer(
    loadError: string -> Option<Error>,
    encodedLength: (string, string) -> nat)

  /** `SupportsModel`. */
  predicate SupportsModel(model: string)
  {
    model in {"gpt-3.5-turbo", "gpt-3.5-turbo-16k", "gpt-4", "gpt-4-turbo",
              "gpt-4-32k", "gpt-4o", "text-embedding-ada"}
  }

  /** The encoding `getEncoding` asks for. */
  function EncodingName(model: string): (name: string)
    ensures name == "r50k_base" <==> model == "text-embedding-ada"
    ensures name == "cl100k_base" <==> model != "text-embedding-ada"
  {
    if model == "text-embedding-ada" then "r50k_base" else "cl100k_base"
  }

  /** `getEncoding`: the encoding's name, or the loader's failure wrapped as
      a tokenization failure. */
  function GetEncoding(tk: Tokenizer, model: string): (r: Result<string, Error>)
    ensures r.Ok? <==> tk.loadError(EncodingName(model)).None?
    ensures r.Ok? ==> r.value == EncodingName(model)
    ensures r.Fail? ==> r.error == NewError(TokenizationFailed, "failed to get encoding", tk.loadError(EncodingName(model)))
  {
    var name := EncodingName(model);
    match tk.loadError(name)
    case Some(e) => Fail(NewError(TokenizationFailed, "failed to get encoding", Some(e)))
    case None => Ok(name)
  }

  /** The tokens an optional encoded part adds under an encoding. */
  function PartTokens(tk: Tokenizer, encoding: string, encoded: Option<Result<string, Error>>): int
  {
    if encoded.Some? && encoded.value.Ok? then tk.encodedLength(encoding, encoded.value.value) else 0
  }

  /** The failure to report for an optional encoded part that could not be
      encoded, if any. */
  function PartFailure(encoded: Option<Result<string, Error>>, what: string): Option<Error>
  {
    if encoded.Some? && encoded.value.Fail? then
      Some(NewError(TokenizationFailed, "failed to marshal " + what, Some(encoded.value.error)))
    else None
  }

  /** `countMessageTokens`: the tokens of the encoded messages, of the
      encoded tools when there are any, of the encoded tool choice when
      there is one, and 3 for the message format. The first part that
      cannot be encoded decides the error. */
  function CountMessages(tk: Tokenizer, encoding: string, messages: seq<Message>, tools: seq<Tool>,
                         toolChoice: Option<ToolChoice>, marshal: Marshaller): (r: Result<int, Error>)
    ensures marshal.messages(messages).Fail? ==>
              r == Fail(NewError(TokenizationFailed, "failed to marshal messages", Some(marshal.messages(messages).error)))
    ensures marshal.messages(messages).Ok? && PartFailure(ProviderKit.ToolsJson(tools, marshal), "tools").Some? ==>
              r == Fail(PartFailure(ProviderKit.ToolsJson(tools, marshal), "tools").value)
    ensures r.Ok? <==> marshal.messages(messages).Ok? &&
                       PartFailure(ProviderKit.ToolsJson(tools, marshal), "tools").None? &&
                       PartFailure(ProviderKit.ToolChoiceJson(toolChoice, marshal), "tool choice").None?
    ensures marshal.messages(messages).Ok? && PartFailure(ProviderKit.ToolsJson(tools, marshal), "tools").None? &&
            PartFailure(ProviderKit.ToolChoiceJson(toolChoice, marshal), "tool choice").Some? ==>
              r == Fail(PartFailure(ProviderKit.ToolChoiceJson(toolChoice, marshal), "tool choice").value)
    ensures r.Ok? ==> r.value == tk.encodedLength(encoding, marshal.messages(messages).value)
                                 + PartTokens(tk, encoding, ProviderKit.ToolsJson(tools, marshal))
                                 + PartTokens(tk, encoding, ProviderKit.ToolChoiceJson(toolChoice, marshal)) + 3
    ensures r.Fail? ==> r.error.Tracker? && r.error.kind == TokenizationFailed
  {
    match marshal.messages(messages)
    case Fail(e) => Fail(NewError(TokenizationFailed, "failed to marshal messages", Some(e)))
    case Ok(json) =>
      var toolsJson := ProviderKit.ToolsJson(tools, marshal);
      var choiceJson := ProviderKit.ToolChoiceJson(toolChoice, marshal);
      match PartFailure(toolsJson, "tools")
      case Some(e) => Fail(e)
      case None =>
        match PartFailure(choiceJson, "tool choice")
        case Some(e) => Fail(e)
        case None =>
          Ok(tk.encodedLength(encoding, json) + PartTokens(tk, encoding, toolsJson)
             + PartTokens(tk, encoding, choiceJson) + 3)
  }

  /** Tools add exactly the tokens of their encoding to a message count,
      and cost nothing when there are none. */
  lemma ToolsAddTheirEncoding(tk: Tokenizer, encoding: string, messages: seq<Message>, tools: seq<Tool>,
                              toolChoice: Option<ToolChoice>, marshal: Marshaller)
    requires |tools| > 0 && marshal.tools(tools).Ok?
    ensures CountMessages(tk, encoding, messages, tools, toolChoice, marshal).Ok? <==>
            CountMessages(tk, encoding, messages, [], toolChoice, marshal).Ok?
    ensures CountMessages(tk, encoding, messages, tools, toolChoice, marshal).Ok? ==>
              CountMessages(tk, encoding, messages, tools, toolChoice, marshal).value ==
              CountMessages(tk, encoding, messages, [], toolChoice, marshal).value
              + tk.encodedLength(encoding, marshal.tools(tools).value)
  {
  }

  /** A tool choice adds exactly the tokens of its encoding. */
  lemma ToolChoiceAddsItsEncoding(tk: Tokenizer, encoding: string, messages: seq<Message>, tools: seq<Tool>,
                                  choice: ToolChoice, marshal: Marshaller)
    requires marshal.toolChoice(choice).Ok?
    ensures CountMessages(tk, encoding, messages, tools, Some(choice), marshal).Ok? <==>
            CountMessages(tk, encoding, messages, tools, None, marshal).Ok?
    ensures CountMessages(tk, encoding, messages, tools, Some(choice), marshal).Ok? ==>
              CountMessages(tk, encoding, messages, tools, Some(choice), marshal).value ==
              CountMessages(tk, encoding, messages, tools, None, marshal).value
              + tk.encodedLength(encoding, marshal.toolChoice(choice).value)
  {
  }

  /** Messages alone, with no tools and no tool choice, cost their
      encoding and the three tokens of the message format. */
  lemma MessagesAloneCost(tk: Tokenizer, encoding: string, messages: seq<Message>, marshal: Marshaller)
    requires marshal.messages(messages).Ok?
    ensures CountMessages(tk, encoding, messages, [], None, marshal) ==
            Ok(tk.encodedLength(encoding, marshal.messages(messages).value) + 3)
  {
  }

  /** The count once the input tokens are known: the response estimated
      by the library-wide estimate, only when asked for. */
  function WithResponse(params: TokenCountParams, input: int): (c: TokenCount)
    ensures Balanced(c) && c.inputTokens == input
    ensures c.responseTokens == if params.countResponseTokens then Utils.EstimateResponseTokens(params.model, input) else 0
  {
    CountOf(input, if params.countResponseTokens then Utils.EstimateResponseTokens(params.model, input) else 0)
  }

  /** `CountTokens`: a model is required and its encoding must load; text,
      when given, is encoded and any messages ignored; otherwise the
      messages are counted. */
  function CountTokens(tk: Tokenizer, params: TokenCountParams, marshal: Marshaller): (r: Result<TokenCount, Error>)
    ensures params.model == "" ==> r == Fail(ProviderKit.ModelRequired())
    ensures params.model != "" && GetEncoding(tk, params.model).Fail? ==> r == Fail(GetEncoding(tk, params.model).error)
    ensures params.model != "" && GetEncoding(tk, params.model).Ok? && params.text.None? && |params.messages| == 0 ==>
              r == Fail(ProviderKit.EitherTextOrMessages())
    ensures r.Ok? ==> Balanced(r.value)
    ensures r.Ok? ==> r.value.responseTokens ==
                      (if params.countResponseTokens then Utils.EstimateResponseTokens(params.model, r.value.inputTokens) else 0)
    ensures r.Ok? && params.text.Some? ==>
              r.value.inputTokens == tk.encodedLength(EncodingName(params.model), params.text.value)
    ensures params.model != "" && GetEncoding(tk, params.model).Ok? && params.text.Some? ==> r.Ok?
    ensures params.text.None? && |params.messages| > 0 && params.model != "" && GetEncoding(tk, params.model).Ok? ==>
              (r.Ok? <==> CountMessages(tk, EncodingName(params.model), params.messages, params.tools, params.toolChoice, marshal).Ok?)
    ensures r.Ok? && params.text.None? ==>
              CountMessages(tk, EncodingName(params.model), params.messages, params.tools, params.toolChoice, marshal).Ok? &&
              r.value.inputTokens ==
              CountMessages(tk, EncodingName(params.model), params.messages, params.tools, params.toolChoice, marshal).value
    ensures r.Fail? ==> r.error.Tracker? && r.error.kind in {InvalidParams, TokenizationFailed}
  {
    if params.model == "" then Fail(ProviderKit.ModelRequired())
    else
      match GetEncoding(tk, params.model)
      case Fail(e) => Fail(e)
      case Ok(encoding) =>
        if params.text.Some? then
          Ok(WithResponse(params, tk.encodedLength(encoding, params.text.value)))
        else if |params.messages| > 0 then
          match CountMessages(tk, encoding, params.messages, params.tools, params.toolChoice, marshal)
          case Fail(e) => Fail(e)
          case Ok(n) => Ok(WithResponse(params, n))
        else Fail(ProviderKit.EitherTextOrMessages())
  }

  /** Counting a single message costs at least the three tokens of the
      format overhead over its encoding, whatever else is requested. */
  lemma CountTokensMessageFloor(tk: Tokenizer, params: TokenCountParams, marshal: Marshaller)
    requires params.text.None? && |params.messages| > 0
    requires CountTokens(tk, params, marshal).Ok?
    ensures marshal.messages(params.messages).Ok?
    ensures CountTokens(tk, params, marshal).value.inputTokens >=
            3 + tk.encodedLength(EncodingName(params.model), marshal.messages(params.messages).value)
  {
  }

  /** Asking for the response estimate changes neither whether counting
      succeeds nor the input count; it adds the library-wide estimate for
      the model, where otherwise the response costs nothing. */
  lemma ResponseOnRequest(tk: Tokenizer, params: TokenCountParams, marshal: Marshaller)
    ensures var on := CountTokens(tk, params.(countResponseTokens := true), marshal);
            var off := CountTokens(tk, params.(countResponseTokens := false), marshal);
            (on.Ok? <==> off.Ok?) &&
            (on.Ok? ==> on.value.inputTokens == off.value.inputTokens &&
                        on.value.responseTokens == Utils.EstimateResponseTokens(params.model, off.value.inputTokens) &&
                        off.value.responseTokens == 0)
  {
  }

  /** `CalculatePrice`: a model is required; the price is the one under
      "openai" in the configuration. */
  function CalculatePrice(config: Configuration.Config, model: string, inputTokens: int, outputTokens: int): (r: Result<Price, Error>)
    ensures model == "" ==> r == Fail(ProviderKit.ModelRequired())
    ensures r.Ok? <==> model != "" && Configuration.GetModelPricing(config, Name, model).Some?
    ensures r.Ok? ==> r.value == PriceOf(Configuration.GetModelPricing(config, Name, model).value, inputTokens, outputTokens)
    ensures model != "" && r.Fail? ==> r.error == ProviderKit.PricingNotFoundFor(model)
  {
    if model == "" then Fail(ProviderKit.ModelRequired())
    else ProviderKit.PriceFromConfig(config, Name, model, inputTokens, outputTokens)
  }

  /** `GetModelInfo`: the same description for any model name, supported or
      not, naming the model and the provider. */
  function ModelInfo(model: string): (r: Result<Json.Value, Error>)
    ensures r.Ok? && r.value.JMap?
    ensures Json.StrField(r.value.fields, "name") == Some(model)
    ensures Json.StrField(r.value.fields, "provider") == Some(Name)
    ensures "capabilities" in r.value.fields &&
            r.value.fields["capabilities"] == Json.JStrs(["text", "chat", "function-calling"])
  {
    Ok(Json.JMap(map[
      "name" := Json.JStr(model),
      "provider" := Json.JStr(Name),
      "capabilities" := Json.JStrs(["text", "chat", "function-calling"])]))
  }

  /** `ExtractTokenUsageFromResponse`: "prompt_tokens", "completion_tokens"
      and "total_tokens" of the "usage" object, each as stated. */
  function ExtractTokenUsage(response: Json.Value): (r: Result<TokenCount, Error>)
    ensures r.Ok? <==> ProviderKit.ExtractPromptCompletion(response).Ok?
    ensures r.Ok? ==>
              var usage := ProviderKit.UsageObject(response).value;
              r.value.inputTokens == Json.NumField(usage, "prompt_tokens").value &&
              r.value.responseTokens == Json.NumField(usage, "completion_tokens").value &&
              r.value.totalTokens == Json.NumField(usage, "total_tokens").value
    ensures r.Fail? ==> r.error.Tracker? && r.error.kind == InvalidParams
  {
    ProviderKit.ExtractPromptCompletion(response)
  }

  /** Any count, balanced or not, reads back from a response stating it. */
  lemma ExtractRoundTrip(c: TokenCount)
    ensures ExtractTokenUsage(ProviderKit.PromptCompletionResponse(c)) == Ok(c)
  {
    ProviderKit.PromptCompletionRoundTrip(c);
  }

  function Gpt35Price(): ModelPricing { ModelPricing(0.0000015, 0.000002, "USD") }
  function Gpt4Price(): ModelPricing { ModelPricing(0.00003, 0.00006, "USD") }
  function Gpt4TurboPrice(): ModelPricing { ModelPricing(0.00001, 0.00003, "USD") }

  /** `UpdatePricing`: writes the current prices of three models; it never
      fails. */
  function UpdatePricing(config: Configuration.Config): (r: (Configuration.Config, Option<Error>))
    ensures r.1.None?
    ensures Configuration.GetModelPricing(r.0, Name, "gpt-3.5-turbo") == Some(Gpt35Price())
    ensures Configuration.GetModelPricing(r.0, Name, "gpt-4") == Some(Gpt4Price())
    ensures Configuration.GetModelPricing(r.0, Name, "gpt-4-turbo") == Some(Gpt4TurboPrice())
    ensures forall p, m :: p != Name ==> Configuration.GetModelPricing(r.0, p, m) == Configuration.GetModelPricing(config, p, m)
    ensures forall m :: m !in {"gpt-3.5-turbo", "gpt-4", "gpt-4-turbo"} ==>
              Configuration.GetModelPricing(r.0, Name, m) == Configuration.GetModelPricing(config, Name, m)
  {
    var c1 := Configuration.SetModelPricing(config, Name, "gpt-3.5-turbo", Gpt35Price());
    var c2 := Configuration.SetModelPricing(c1, Name, "gpt-4", Gpt4Price());
    (Configuration.SetModelPricing(c2, Name, "gpt-4-turbo", Gpt4TurboPrice()), None)
  }

  /** On the default configuration the update prices GPT-4 Turbo, which
      the defaults leave unpriced. */
  lemma UpdatePricesTurbo(i: int, o: int)
    ensures Configuration.GetModelPricing(Configuration.NewConfig(), Name, "gpt-4-turbo").None?
    ensures CalculatePrice(UpdatePricing(Configuration.NewConfig()).0, "gpt-4-turbo", i, o)
         == Ok(PriceOf(Gpt4TurboPrice(), i, o))
  {
    assert (Name, "gpt-4-turbo") !in Configuration.DefaultPairs();
  }

  /** Four supported models have no price in the default configuration,
      even after the update, so the provider cannot price them. */
  lemma SupportedButUnpriced(model: string, i: int, o: int)
    requires model in {"gpt-3.5-turbo-16k", "gpt-4-32k", "gpt-4o", "text-embedding-ada"}
    ensures SupportsModel(model)
    ensures CalculatePrice(UpdatePricing(Configuration.NewConfig()).0, model, i, o)
         == Fail(ProviderKit.PricingNotFoundFor(model))
  {
    assert (Name, model) !in Configuration.DefaultPairs();
    var c := UpdatePricing(Configuration.NewConfig()).0;
    assert Configuration.GetModelPricing(c, Name, model) == Configuration.GetModelPricing(Configuration.NewConfig(), Name, model);
  }

  /** The provider as the registry holds it; it passes the shared cache
      through untouched. */
  function AsProvider(tk: Tokenizer, marshal: Marshaller): (p: Registry.Provider)
    ensures p.name == Name
    ensures forall m :: p.supportsModel(m) <==> SupportsModel(m)
    ensures forall cache, params :: p.countTokens(cache, params) == (CountTokens(tk, params, marshal), cache)
    ensures forall config :: p.updatePricing(config) == UpdatePricing(config)
    ensures forall config, model, i, o :: p.calculatePrice(config, model, i, o) == CalculatePrice(config, model, i, o)
    ensures forall m :: p.modelInfo(m) == ModelInfo(m)
    ensures forall response :: p.extractTokenUsage(response) == ExtractTokenUsage(response)
  {
    Registry.Provider(
      Name,
      m => SupportsModel(m),
      (cache, params) => (CountTokens(tk, params, marshal), cache),
      (config, model, i, o) => CalculatePrice(config, model, i, o),
      m => ModelInfo(m),
      response => ExtractTokenUsage(response),
      config => UpdatePricing(config))
  }
}
