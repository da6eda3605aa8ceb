/** The Gemini SDK adapter (sdkwrappers/gemini.go): four Gemini models with
    a fixed price list, and usage read from a typed
    `*genai.GenerateContentResponse`, its reflection-read mock, or a
    decoded JSON map.

    Gemini responses carry no completion id, model or request id; the
    adapter reports them empty. A typed response's usage metadata is a
    pointer in Go: an absent block is its own error. A mock without the
    block is not a valid mock. */
module SdkGemini {
  import opened Wrappers
  import opened Errors
  import opened Models
  import Json
  import SdkKit

  const Name: string := "gemini"
  const ResponseType: string := "*genai.GenerateContentResponse"
  const MockType: string := "*sdkwrappers.MockGeminiResponse"

  /** `GetSupportedModels`. */
  function SupportedModels(): seq<string>
  {
    ["gemini-pro", "gemini-ultra", "gemini-1.5-pro", "gemini-1.5-flash"]
  }

  /** `FetchCurrentPricing`: the fixed price list. */
  function Pricing(): map<string, ModelPricing>
  {
    map[
      "gemini-pro" := ModelPricing(0.00000025, 0.0000005, "USD"),
      "gemini-ultra" := ModelPricing(0.00001, 0.00003, "USD"),
      "gemini-1.5-pro" := ModelPricing(0.0000005, 0.0000015, "USD"),
      "gemini-1.5-flash" := ModelPricing(0.00000025, 0.00000075, "USD")]
  }

  /** The error for anything that is neither a response, a valid mock nor
      a well-formed map. */
  function NotAResponse(response: Json.Value): Error
  {
    Plain("response is not a *genai.GenerateContentResponse or valid mock: " + Json.TypeName(response))
  }

  /** The error for a typed response without usage metadata. */
  function NoUsageMetadata(): Error
  {
    Plain("response does not contain usage metadata")
  }

  /** The usage record the adapter builds: prompt and response mirror
      input and output, the total is taken as given, no identifiers. */
  function UsageOf(u: Json.SdkUsage): (r: TokenUsage)
    ensures SdkKit.Mirrored(r)
    ensures r.inputTokens == u.prompt && r.outputTokens == u.completion && r.totalTokens == u.total
    ensures r.completionId == "" && r.model == "" && r.requestId == ""
  {
    TokenUsage(u.prompt, u.completion, u.total, "", "", u.prompt, u.completion, "")
  }

  /** The map branch: a "usageMetadata" object with numeric
      "promptTokenCount", "candidatesTokenCount" and "totalTokenCount". */
  function FromMap(fields: map<string, Json.Value>): (r: Option<Json.SdkUsage>)
    ensures r.Some? <==>
              Json.MapField(fields, "usageMetadata").Some? &&
              Json.NumField(Json.MapField(fields, "usageMetadata").value, "promptTokenCount").Some? &&
              Json.NumField(Json.MapField(fields, "usageMetadata").value, "candidatesTokenCount").Some? &&
              Json.NumField(Json.MapField(fields, "usageMetadata").value, "totalTokenCount").Some?
    ensures r.Some? ==> r.value == Json.SdkUsage(
              Json.NumField(Json.MapField(fields, "usageMetadata").value, "promptTokenCount").value,
              Json.NumField(Json.MapField(fields, "usageMetadata").value, "candidatesTokenCount").value,
              Json.NumField(Json.MapField(fields, "usageMetadata").value, "totalTokenCount").value)
  {
    var meta := Json.MapField(fields, "usageMetadata");
    if meta.None? then None
    else
      var p := Json.NumField(meta.value, "promptTokenCount");
      var c := Json.NumField(meta.value, "candidatesTokenCount");
      var t := Json.NumField(meta.value, "totalTokenCount");
      if p.None? || c.None? || t.None? then None else Some(Json.SdkUsage(p.value, c.value, t.value))
  }

  /** `ExtractTokenUsageFromResponse`. */
  function ExtractTokenUsage(response: Json.Value): (r: Result<TokenUsage, Error>)
    ensures r.Ok? ==> SdkKit.Mirrored(r.value)
    ensures r.Ok? ==> r.value.completionId == "" && r.value.model == "" && r.value.requestId == ""
    ensures response.SdkTyped? && response.sdkType == ResponseType ==>
              r == (if response.usage.Some? then Ok(UsageOf(response.usage.value)) else Fail(NoUsageMetadata()))
    ensures response.SdkTyped? && response.sdkType == MockType ==>
              r == (if response.usage.Some? then Ok(UsageOf(response.usage.value)) else Fail(NotAResponse(response)))
    ensures response.SdkTyped? && response.sdkType !in {ResponseType, MockType} ==> r == Fail(NotAResponse(response))
    ensures response.JMap? ==>
              r == (if FromMap(response.fields).Some? then Ok(UsageOf(FromMap(response.fields).value))
                    else Fail(NotAResponse(response)))
    ensures !response.SdkTyped? && !response.JMap? ==> r == Fail(NotAResponse(response))
  {
    match response
    case SdkTyped(t, _, _, _, usage) =>
      if t == ResponseType then
        if usage.Some? then Ok(UsageOf(usage.value)) else Fail(NoUsageMetadata())
      else if t == MockType && usage.Some? then Ok(UsageOf(usage.value))
      else Fail(NotAResponse(response))
    case JMap(fields) =>
      if FromMap(fields).Some? then Ok(UsageOf(FromMap(fields).value)) else Fail(NotAResponse(response))
    case _ => Fail(NotAResponse(response))
  }

  /** A decoded JSON response in the shape the adapter reads. */
  function MapResponse(u: Json.SdkUsage): Json.Value
  {
    Json.JMap(map["usageMetadata" := Json.JMap(map[
      "promptTokenCount" := Json.JNum(u.prompt),
      "candidatesTokenCount" := Json.JNum(u.completion),
      "totalTokenCount" := Json.JNum(u.total)])])
  }

  /** Reading back a well-formed map gives the figures it states. */
  lemma MapRoundTrip(u: Json.SdkUsage)
    ensures ExtractTokenUsage(MapResponse(u)) == Ok(UsageOf(u))
  {
    var meta := map[
      "promptTokenCount" := Json.JNum(u.prompt),
      "candidatesTokenCount" := Json.JNum(u.completion),
      "totalTokenCount" := Json.JNum(u.total)];
    assert Json.MapField(MapResponse(u).fields, "usageMetadata") == Some(meta);
    assert FromMap(MapResponse(u).fields) == Some(u);
  }

  /** The usage record keeps every figure of the metadata, so two records
      agree exactly when the metadata do. */
  lemma UsageOfInjective(a: Json.SdkUsage, b: Json.SdkUsage)
    ensures UsageOf(a) == UsageOf(b) <==> a == b
  {
  }

  /** The adapter as the tracker holds it. */
  function Client(): (c: SdkKit.Client)
    ensures c.providerName == Name && c.supportedModels == SupportedModels()
    ensures c.fetchCurrentPricing == Ok(Pricing()) && c.updateProviderPricing.None?
  {
    SdkKit.Client(Name, SupportedModels(), response => ExtractTokenUsage(response), Ok(Pricing()), None)
  }

  /** Every model the adapter lists has a price. */
  lemma PricesSupportedModels()
    ensures SdkKit.PricesSupportedModels(Client())
  {
    var c := Client();
    forall i | 0 <= i < |c.supportedModels| ensures c.supportedModels[i] in Pricing() {
    }
  }

  /** `TrackAPICall` on a listed model fails only when the response cannot
      be read, and bills the tokens read at the model's listed price. */
  lemma TrackSupportedModel(i: int, response: Json.Value)
    requires 0 <= i < |SupportedModels()|
    ensures SdkKit.TrackAPICall(Client(), SupportedModels()[i], response).Ok? <==> ExtractTokenUsage(response).Ok?
    ensures SdkKit.TrackAPICall(Client(), SupportedModels()[i], response).Ok? ==>
              SdkKit.Billed(SdkKit.TrackAPICall(Client(), SupportedModels()[i], response).value,
                            ExtractTokenUsage(response).value, Pricing()[SupportedModels()[i]])
  {
    PricesSupportedModels();
    SdkKit.SupportedModelsBill(Client(), i, response);
  }
}
