/** The Gemini provider (providers/gemini.go): four characters per token
    with the shared token cache, the library-wide response estimate, prices
    from the configuration under "gemini". */
module Gemini {
  import opened Wrappers
  import opened Errors
  import opened Models
  import opened Strings
  import Utils
  import Json
  import Configuration
  import ProviderKit
  import Registry

  const Name: string := "gemini"

  /** `SupportsModel`. */
  predicate SupportsModel(model: string)
  {
    model == "gemini-pro" || model == "gemini-ultra"
  }

  /** The token estimate for a text of `n` characters: a quarter, rounded
      down, and 3 for special tokens. */
  function FromLength(n: nat): (tokens: int)
    ensures 3 <= tokens && 4 * (tokens - 3) <= n < 4 * (tokens - 2)
  {
    n / 4 + 3
  }

  /** The estimate grows with the text. */
  lemma FromLengthMonotone(a: nat, b: nat)
    requires a <= b
    ensures FromLength(a) <= FromLength(b)
  {
  }

  function Heuristic(): ProviderKit.Heuristic
  {
    ProviderKit.Heuristic(Name, 4, FromLength, Utils.EstimateResponseTokens)
  }

  /** `CountTokens`, reading and filling the shared cache. */
  function CountTokens(cache: Utils.Cache, params: TokenCountParams, marshal: Marshaller): (r: (Result<TokenCount, Error>, Utils.Cache))
  {
    ProviderKit.CountTokens(Heuristic(), cache, params, marshal)
  }

  /** Every cache entry filed under "gemini" holds the estimate of its
      text's length. */
  ghost predicate CacheCoherent(cache: Utils.Cache)
  {
    ProviderKit.Coherent(Heuristic(), cache)
  }

  /** With a coherent cache, counting gives the heuristic's intended count:
      text costs its estimate, messages cost the estimate of their text,
      four per message and the estimates of the encoded tools and tool
      choice; the response is estimated only on request, by the
      library-wide estimate. */
  lemma CountTokensIntended(cache: Utils.Cache, params: TokenCountParams, marshal: Marshaller)
    requires CacheCoherent(cache)
    ensures CountTokens(cache, params, marshal).0 == ProviderKit.IntendedCount(Heuristic(), params, marshal)
    ensures CacheCoherent(CountTokens(cache, params, marshal).1)
    ensures params.model != "" && params.text.Some? ==>
              CountTokens(cache, params, marshal).0.Ok? &&
              CountTokens(cache, params, marshal).0.value.inputTokens == FromLength(|params.text.value|)
  {
    ProviderKit.CountTokensCoherent(Heuristic(), cache, params, marshal);
  }

  /** `CalculatePrice`: the price under "gemini" in the configuration. */
  function CalculatePrice(config: Configuration.Config, model: string, inputTokens: int, outputTokens: int): (r: Result<Price, Error>)
    ensures r.Ok? <==> Configuration.GetModelPricing(config, Name, model).Some?
    ensures r.Ok? ==> r.value == PriceOf(Configuration.GetModelPricing(config, Name, model).value, inputTokens, outputTokens)
    ensures r.Fail? ==> r.error == ProviderKit.PricingNotFoundFor(model)
  {
    ProviderKit.PriceFromConfig(config, Name, model, inputTokens, outputTokens)
  }

  /** `GetModelInfo`: the same description for any model name, supported or
      not, naming the model and the provider. */
  function ModelInfo(model: string): (r: Result<Json.Value, Error>)
    ensures r.Ok? && r.value.JMap?
    ensures Json.StrField(r.value.fields, "name") == Some(model)
    ensures Json.StrField(r.value.fields, "provider") == Some(Name)
    ensures "capabilities" in r.value.fields &&
            r.value.fields["capabilities"] == Json.JStrs(["text", "chat", "image-understanding"])
  {
    Ok(Json.JMap(map[
      "name" := Json.JStr(model),
      "provider" := Json.JStr(Name),
      "capabilities" := Json.JStrs(["text", "chat", "image-understanding"])]))
  }

  /** `ExtractTokenUsageFromResponse`: "prompt_tokens", "completion_tokens"
      and "total_tokens" of the "usage" object, each as stated. */
  function ExtractTokenUsage(response: Json.Value): (r: Result<TokenCount, Error>)
    ensures r.Ok? <==> ProviderKit.ExtractPromptCompletion(response).Ok?
    ensures r.Ok? ==>
              var usage := ProviderKit.UsageObject(response).value;
              r.value.inputTokens == Json.NumField(usage, "prompt_tokens").value &&
              r.value.responseTokens == Json.NumField(usage, "completion_tokens").value &&
              r.value.totalTokens == Json.NumField(usage, "total_tokens").value
    ensures r.Fail? ==> r.error.Tracker? && r.error.kind == InvalidParams
  {
    ProviderKit.ExtractPromptCompletion(response)
  }

  /** Any count, balanced or not, reads back from a response stating it. */
  lemma ExtractRoundTrip(c: TokenCount)
    ensures ExtractTokenUsage(ProviderKit.PromptCompletionResponse(c)) == Ok(c)
  {
    ProviderKit.PromptCompletionRoundTrip(c);
  }

  function ProPrice(): ModelPricing { ModelPricing(0.00000025, 0.0000005, "USD") }
  function UltraPrice(): ModelPricing { ModelPricing(0.00001, 0.00003, "USD") }

  /** `UpdatePricing`: writes the current prices of the two models; it
      never fails. */
  function UpdatePricing(config: Configuration.Config): (r: (Configuration.Config, Option<Error>))
    ensures r.1.None?
    ensures Configuration.GetModelPricing(r.0, Name, "gemini-pro") == Some(ProPrice())
    ensures Configuration.GetModelPricing(r.0, Name, "gemini-ultra") == Some(UltraPrice())
    ensures forall p, m :: p != Name ==> Configuration.GetModelPricing(r.0, p, m) == Configuration.GetModelPricing(config, p, m)
    ensures forall m :: !SupportsModel(m) ==>
              Configuration.GetModelPricing(r.0, Name, m) == Configuration.GetModelPricing(config, Name, m)
  {
    var c1 := Configuration.SetModelPricing(config, Name, "gemini-pro", ProPrice());
    (Configuration.SetModelPricing(c1, Name, "gemini-ultra", UltraPrice()), None)
  }

  /** The default configuration already carries the prices the update
      writes, so updating it changes no price. */
  lemma UpdateKeepsDefaults(p: string, m: string)
    ensures Configuration.GetModelPricing(UpdatePricing(Configuration.NewConfig()).0, p, m)
         == Configuration.GetModelPricing(Configuration.NewConfig(), p, m)
  {
    assert (Name, "gemini-ultra") in Configuration.DefaultPairs();
    assert (Name, "gemini-pro") in Configuration.DefaultPairs();
  }

  /** The provider as the registry holds it. */
  function AsProvider(marshal: Marshaller): (p: Registry.Provider)
    ensures p.name == Name
    ensures forall m :: p.supportsModel(m) <==> SupportsModel(m)
    ensures forall cache, params :: p.countTokens(cache, params) == CountTokens(cache, params, marshal)
    ensures forall config :: p.updatePricing(config) == UpdatePricing(config)
    ensures forall config, model, i, o :: p.calculatePrice(config, model, i, o) == CalculatePrice(config, model, i, o)
    ensures forall m :: p.modelInfo(m) == ModelInfo(m)
    ensures forall response :: p.extractTokenUsage(response) == ExtractTokenUsage(response)
  {
    Registry.Provider(
      Name,
      m => SupportsModel(m),
      (cache, params) => CountTokens(cache, params, marshal),
      (config, model, i, o) => CalculatePrice(config, model, i, o),
      m => ModelInfo(m),
      response => ExtractTokenUsage(response),
      config => UpdatePricing(config))
  }
}
