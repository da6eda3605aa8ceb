/** The SDK client adapter interface (sdkwrappers/sdk.go) and the call
    tracking every adapter performs the same way. */
module SdkKit {
  import opened Wrappers
  import opened Errors
  import opened Models
  import Json

  /** An SDK client adapter, reduced to what the library reads from it. The
      vendor client object itself (`GetClient`) is opaque and omitted. */
  datatype Client = Client(
    providerName: string,
    supportedModels: seq<string>,
    extractTokenUsage: Json.Value -> Result<TokenUsage, Error>,
    fetchCurrentPricing: Result<map<string, ModelPricing>, Error>,
    updateProviderPricing: Option<Error>)

  /** The error `TrackAPICall` reports for a model without a price. */
  function NoPricingError(model: string): Error
  {
    Plain("no pricing information found for model: " + model)
  }

  /** `TrackAPICall`: extracts the usage, looks up the model's price in the
      adapter's own price list and bills the input and output tokens. The
      first failing step decides the error. */
  function TrackAPICall(c: Client, model: string, response: Json.Value): (r: Result<UsageMetrics, Error>)
    ensures c.extractTokenUsage(response).Fail? ==> r == Fail(c.extractTokenUsage(response).error)
    ensures c.extractTokenUsage(response).Ok? && c.fetchCurrentPricing.Fail? ==>
              r == Fail(c.fetchCurrentPricing.error)
    ensures c.extractTokenUsage(response).Ok? && c.fetchCurrentPricing.Ok? && model !in c.fetchCurrentPricing.value ==>
              r == Fail(NoPricingError(model))
    ensures r.Ok? <==> c.extractTokenUsage(response).Ok? && c.fetchCurrentPricing.Ok? && model in c.fetchCurrentPricing.value
    ensures r.Ok? ==> Billed(r.value, c.extractTokenUsage(response).value, c.fetchCurrentPricing.value[model])
    ensures r.Ok? ==> r.value.model == model && r.value.provider == c.providerName
  {
    match c.extractTokenUsage(response)
    case Fail(e) => Fail(e)
    case Ok(usage) =>
      match c.fetchCurrentPricing
      case Fail(e) => Fail(e)
      case Ok(prices) =>
        if model !in prices then Fail(NoPricingError(model))
        else
          var pricing := prices[model];
          Ok(UsageMetrics(
            TokenCount(usage.inputTokens, usage.outputTokens, usage.totalTokens),
            PriceOf(pricing, usage.inputTokens, usage.outputTokens),
            model, c.providerName))
  }

  /** Metrics that report the extracted usage as is (the total as the
      response states it) and bill input and output tokens at the price. */
  ghost predicate Billed(m: UsageMetrics, usage: TokenUsage, pricing: ModelPricing)
  {
    m.tokenCount.inputTokens == usage.inputTokens &&
    m.tokenCount.responseTokens == usage.outputTokens &&
    m.tokenCount.totalTokens == usage.totalTokens &&
    m.price.inputCost == usage.inputTokens as real * pricing.inputPricePerToken &&
    m.price.outputCost == usage.outputTokens as real * pricing.outputPricePerToken &&
    m.price.totalCost == m.price.inputCost + m.price.outputCost &&
    m.price.currency == pricing.currency
  }

  /** Every model the adapter lists as supported has a price in its list. */
  ghost predicate PricesSupportedModels(c: Client)
  {
    c.fetchCurrentPricing.Ok? &&
    forall i :: 0 <= i < |c.supportedModels| ==> c.supportedModels[i] in c.fetchCurrentPricing.value
  }

  /** For an adapter pricing all its models, a call to a supported model
      fails only when the response cannot be read. */
  lemma SupportedModelsBill(c: Client, i: int, response: Json.Value)
    requires PricesSupportedModels(c) && 0 <= i < |c.supportedModels|
    ensures TrackAPICall(c, c.supportedModels[i], response).Ok? <==> c.extractTokenUsage(response).Ok?
  {
  }

  /** The usage an adapter reports in the shape the tracker keeps: prompt
      and response tokens mirror input and output tokens. */
  ghost predicate Mirrored(u: TokenUsage)
  {
    u.promptTokens == u.inputTokens && u.responseTokens == u.outputTokens
  }
}
