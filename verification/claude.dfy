/** The Claude provider (providers/claude.go): a character-count heuristic
    with the shared token cache, prices from the configuration under
    "anthropic", fixed model information for three models. */
module Claude {
  import opened Wrappers
  import opened Errors
  import opened Models
  import opened Strings
  import Utils
  import Json
  import Configuration
  import ProviderKit
  import Registry

  const Name: string := "anthropic"

  /** `SupportsModel`. */
  predicate SupportsModel(model: string)
  {
    model == "claude-3-haiku" || model == "claude-3-sonnet" || model == "claude-3-opus"
  }

  /** The token estimate for a text of `n` characters: 95/400 tokens per
      character, rounded down, and 5 for special tokens. */
  function FromLength(n: nat): (tokens: int)
    ensures 5 <= tokens <= n / 4 + 5
    ensures 400 * (tokens - 5) <= 95 * n < 400 * (tokens - 4)
  {
    n * 95 / 400 + 5
  }

  /** The estimate grows with the text. */
  lemma FromLengthMonotone(a: nat, b: nat)
    requires a <= b
    ensures FromLength(a) <= FromLength(b)
  {
    assert a * 95 <= b * 95;
  }

  /** `estimateResponseTokens`: by the first of "opus", "sonnet", "haiku"
      the model name contains, else the library-wide estimate. */
  function EstimateResponse(model: string, inputTokens: int): int
  {
    if Contains(model, "opus") then inputTokens * 2
    else if Contains(model, "sonnet") then GoDiv(inputTokens * 3, 2)
    else if Contains(model, "haiku") then inputTokens
    else Utils.EstimateResponseTokens(model, inputTokens)
  }

  /** The estimates for the three supported models: Opus twice the input,
      Sonnet one and a half times, Haiku the input itself. */
  lemma EstimateSupportedModels(model: string, n: int)
    ensures model == "claude-3-opus" ==> EstimateResponse(model, n) == 2 * n
    ensures model == "claude-3-sonnet" ==> EstimateResponse(model, n) == GoDiv(3 * n, 2)
    ensures model == "claude-3-haiku" ==> EstimateResponse(model, n) == n
  {
    if model == "claude-3-opus" {
      assert model[9..13] == "opus";
      ContainsAt(model, "opus", 9);
    } else if model == "claude-3-sonnet" {
      ContainsChars(model, "opus", 'p');
      assert model[9..15] == "sonnet";
      ContainsAt(model, "sonnet", 9);
    } else if model == "claude-3-haiku" {
      ContainsChars(model, "opus", 'o');
      ContainsChars(model, "sonnet", 's');
      assert model[9..14] == "haiku";
      ContainsAt(model, "haiku", 9);
    }
  }

  /** The provider's own estimate agrees with the library-wide one on Opus
      and, from two input tokens on, departs from it upwards on Sonnet and
      Haiku. */
  lemma EstimateDepartsFromLibrary(model: string, n: int)
    requires n >= 2
    ensures model == "claude-3-opus" ==> EstimateResponse(model, n) == Utils.EstimateResponseTokens(model, n)
    ensures model == "claude-3-sonnet" ==> EstimateResponse(model, n) > Utils.EstimateResponseTokens(model, n)
    ensures model == "claude-3-haiku" ==> EstimateResponse(model, n) > Utils.EstimateResponseTokens(model, n)
  {
    EstimateSupportedModels(model, n);
    Utils.EstimateClaudeModels(model, n);
  }

  function Heuristic(): ProviderKit.Heuristic
  {
    ProviderKit.Heuristic(Name, 6, FromLength, EstimateResponse)
  }

  /** `CountTokens`, reading and filling the shared cache. */
  function CountTokens(cache: Utils.Cache, params: TokenCountParams, marshal: Marshaller): (r: (Result<TokenCount, Error>, Utils.Cache))
  {
    ProviderKit.CountTokens(Heuristic(), cache, params, marshal)
  }

  /** Every cache entry filed under "anthropic" holds the estimate of its
      text's length. */
  ghost predicate CacheCoherent(cache: Utils.Cache)
  {
    ProviderKit.Coherent(Heuristic(), cache)
  }

  /** With a coherent cache, counting gives the heuristic's intended count:
      text costs its estimate, messages cost the estimate of their text,
      six per message and the estimates of the encoded tools and tool
      choice; the response is estimated only on request. */
  lemma CountTokensIntended(cache: Utils.Cache, params: TokenCountParams, marshal: Marshaller)
    requires CacheCoherent(cache)
    ensures CountTokens(cache, params, marshal).0 == ProviderKit.IntendedCount(Heuristic(), params, marshal)
    ensures CacheCoherent(CountTokens(cache, params, marshal).1)
    ensures params.model != "" && params.text.Some? ==>
              CountTokens(cache, params, marshal).0.Ok? &&
              CountTokens(cache, params, marshal).0.value.inputTokens == FromLength(|params.text.value|)
  {
    ProviderKit.CountTokensCoherent(Heuristic(), cache, params, marshal);
  }

  /** `CalculatePrice`: the price under "anthropic" in the configuration. */
  function CalculatePrice(config: Configuration.Config, model: string, inputTokens: int, outputTokens: int): (r: Result<Price, Error>)
    ensures r.Ok? <==> Configuration.GetModelPricing(config, Name, model).Some?
    ensures r.Ok? ==> r.value == PriceOf(Configuration.GetModelPricing(config, Name, model).value, inputTokens, outputTokens)
    ensures r.Fail? ==> r.error == ProviderKit.PricingNotFoundFor(model)
  {
    ProviderKit.PriceFromConfig(config, Name, model, inputTokens, outputTokens)
  }

  function Info(description: string): Json.Value
  {
    Json.JMap(map["contextWindow" := Json.JInt(200000), "description" := Json.JStr(description)])
  }

  /** `GetModelInfo`: the fixed entries for the three supported models,
      an invalid-model error for any other. */
  function ModelInfo(model: string): (r: Result<Json.Value, Error>)
    ensures r.Ok? <==> SupportsModel(model)
    ensures r.Fail? ==> r.error == NewError(InvalidModel, "model info not found for: " + model, None)
    ensures r.Ok? ==> r.value.JMap? &&
                      "contextWindow" in r.value.fields && r.value.fields["contextWindow"] == Json.JInt(200000) &&
                      Json.StrField(r.value.fields, "description").Some?
  {
    if model == "claude-3-haiku" then Ok(Info("Claude 3 Haiku - fastest and most compact model"))
    else if model == "claude-3-sonnet" then Ok(Info("Claude 3 Sonnet - balanced performance and intelligence"))
    else if model == "claude-3-opus" then Ok(Info("Claude 3 Opus - most powerful model for complex tasks"))
    else Fail(NewError(InvalidModel, "model info not found for: " + model, None))
  }

  /** `ExtractTokenUsageFromResponse`: "input_tokens" and "output_tokens"
      of the "usage" object, the total their sum. */
  function ExtractTokenUsage(response: Json.Value): (r: Result<TokenCount, Error>)
    ensures r.Ok? <==> ProviderKit.ExtractInputOutput(response).Ok?
    ensures r.Ok? ==>
              var usage := ProviderKit.UsageObject(response).value;
              Balanced(r.value) &&
              r.value.inputTokens == Json.NumField(usage, "input_tokens").value &&
              r.value.responseTokens == Json.NumField(usage, "output_tokens").value
    ensures r.Fail? ==> r.error.Tracker? && r.error.kind == InvalidParams
  {
    ProviderKit.ExtractInputOutput(response)
  }

  /** A response carrying a balanced count reads back as that count. */
  lemma ExtractRoundTrip(c: TokenCount)
    requires Balanced(c)
    ensures ExtractTokenUsage(ProviderKit.InputOutputResponse(c)) == Ok(c)
  {
    ProviderKit.InputOutputRoundTrip(c);
  }

  function HaikuPrice(): ModelPricing { ModelPricing(0.00000025, 0.00000125, "USD") }
  function SonnetPrice(): ModelPricing { ModelPricing(0.000003, 0.000015, "USD") }
  function OpusPrice(): ModelPricing { ModelPricing(0.000015, 0.000075, "USD") }

  /** `UpdatePricing`: writes the current prices of the three models; it
      never fails. */
  function UpdatePricing(config: Configuration.Config): (r: (Configuration.Config, Option<Error>))
    ensures r.1.None?
    ensures Configuration.GetModelPricing(r.0, Name, "claude-3-haiku") == Some(HaikuPrice())
    ensures Configuration.GetModelPricing(r.0, Name, "claude-3-sonnet") == Some(SonnetPrice())
    ensures Configuration.GetModelPricing(r.0, Name, "claude-3-opus") == Some(OpusPrice())
    ensures forall p, m :: p != Name ==> Configuration.GetModelPricing(r.0, p, m) == Configuration.GetModelPricing(config, p, m)
    ensures forall m :: !SupportsModel(m) ==>
              Configuration.GetModelPricing(r.0, Name, m) == Configuration.GetModelPricing(config, Name, m)
  {
    var c1 := Configuration.SetModelPricing(config, Name, "claude-3-haiku", HaikuPrice());
    var c2 := Configuration.SetModelPricing(c1, Name, "claude-3-sonnet", SonnetPrice());
    (Configuration.SetModelPricing(c2, Name, "claude-3-opus", OpusPrice()), None)
  }

  /** Updating twice prices every model as updating once does. */
  lemma UpdatePricingIdempotent(config: Configuration.Config, provider: string, model: string)
    ensures Configuration.GetModelPricing(UpdatePricing(UpdatePricing(config).0).0, provider, model)
         == Configuration.GetModelPricing(UpdatePricing(config).0, provider, model)
  {
  }

  /** The update raises the Opus price above the default configuration's. */
  lemma UpdateRepricesOpus()
    ensures Configuration.GetModelPricing(Configuration.NewConfig(), Name, "claude-3-opus").Some?
    ensures Configuration.GetModelPricing(Configuration.NewConfig(), Name, "claude-3-opus").value.inputPricePerToken
          < OpusPrice().inputPricePerToken
  {
    var c := Configuration.NewConfig();
    assert (Name, "claude-3-opus") in Configuration.DefaultPairs();
  }

  /** The provider as the registry holds it. */
  function AsProvider(marshal: Marshaller): (p: Registry.Provider)
    ensures p.name == Name
    ensures forall m :: p.supportsModel(m) <==> SupportsModel(m)
    ensures forall cache, params :: p.countTokens(cache, params) == CountTokens(cache, params, marshal)
    ensures forall config :: p.updatePricing(config) == UpdatePricing(config)
    ensures forall config, model, i, o :: p.calculatePrice(config, model, i, o) == CalculatePrice(config, model, i, o)
    ensures forall m :: p.modelInfo(m) == ModelInfo(m)
    ensures forall response :: p.extractTokenUsage(response) == ExtractTokenUsage(response)
  {
    Registry.Provider(
      Name,
      m => SupportsModel(m),
      (cache, params) => CountTokens(cache, params, marshal),
      (config, model, i, o) => CalculatePrice(config, model, i, o),
      m => ModelInfo(m),
      response => ExtractTokenUsage(response),
      config => UpdatePricing(config))
  }
}
