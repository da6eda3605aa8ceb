/** The OpenAI SDK adapter (sdkwrappers/openai.go): five GPT models with a
    fixed price list, and usage read from a typed `*openai.ChatCompletion`,
    its reflection-read mock, or a decoded JSON map.

    Unlike the Anthropic adapter, every branch reports the total as the
    response states it, and the system fingerprint becomes the request id.
    A typed completion's usage block is a value struct in Go, so an absent
    block (`usage == None`) reads as zero tokens; a mock without the block
    is not a valid mock. */
module SdkOpenAI {
  import opened Wrappers
  import opened Errors
  import opened Models
  import Json
  import SdkKit

  const Name: string := "openai"
  const CompletionType: string := "*openai.ChatCompletion"
  const MockType: string := "*sdkwrappers.MockOpenAIResponse"

  /** `GetSupportedModels`. */
  function SupportedModels(): seq<string>
  {
    ["gpt-3.5-turbo", "gpt-3.5-turbo-16k", "gpt-4", "gpt-4-turbo", "gpt-4o"]
  }

  /** `FetchCurrentPricing`: the fixed price list. */
  function Pricing(): map<string, ModelPricing>
  {
    map[
      "gpt-3.5-turbo" := ModelPricing(0.0000015, 0.000002, "USD"),
      "gpt-3.5-turbo-16k" := ModelPricing(0.000003, 0.000004, "USD"),
      "gpt-4" := ModelPricing(0.00003, 0.00006, "USD"),
      "gpt-4-turbo" := ModelPricing(0.00001, 0.00003, "USD"),
      "gpt-4o" := ModelPricing(0.00001, 0.00003, "USD")]
  }

  /** The error for anything that is neither a completion, a valid mock
      nor a well-formed map. */
  function NotACompletion(response: Json.Value): Error
  {
    Plain("response is not a *openai.ChatCompletion or valid mock: " + Json.TypeName(response))
  }

  /** The usage record the adapter builds: prompt and response mirror
      input and output; the total is taken as given. */
  function UsageOf(id: string, model: string, fingerprint: string, u: Json.SdkUsage): (r: TokenUsage)
    ensures SdkKit.Mirrored(r)
    ensures r.inputTokens == u.prompt && r.outputTokens == u.completion && r.totalTokens == u.total
    ensures r.completionId == id && r.model == model && r.requestId == fingerprint
  {
    TokenUsage(u.prompt, u.completion, u.total, id, model, u.prompt, u.completion, fingerprint)
  }

  /** The figures of a "usage" object: numeric "prompt_tokens",
      "completion_tokens" and "total_tokens". */
  function UsageFigures(usage: map<string, Json.Value>): (r: Option<Json.SdkUsage>)
    ensures r.Some? <==> Json.NumField(usage, "prompt_tokens").Some? &&
                         Json.NumField(usage, "completion_tokens").Some? &&
                         Json.NumField(usage, "total_tokens").Some?
    ensures r.Some? ==> r.value == Json.SdkUsage(Json.NumField(usage, "prompt_tokens").value,
                                                 Json.NumField(usage, "completion_tokens").value,
                                                 Json.NumField(usage, "total_tokens").value)
  {
    var p := Json.NumField(usage, "prompt_tokens");
    var c := Json.NumField(usage, "completion_tokens");
    var t := Json.NumField(usage, "total_tokens");
    if p.None? || c.None? || t.None? then None else Some(Json.SdkUsage(p.value, c.value, t.value))
  }

  /** The system fingerprint of a map response: the "system_fingerprint"
      string, or empty when there is none. */
  function Fingerprint(fields: map<string, Json.Value>): (f: string)
    ensures Json.StrField(fields, "system_fingerprint").Some? ==> f == Json.StrField(fields, "system_fingerprint").value
    ensures Json.StrField(fields, "system_fingerprint").None? ==> f == ""
  {
    var sf := Json.StrField(fields, "system_fingerprint");
    if sf.Some? then sf.value else ""
  }

  /** The map branch: string "id" and "model" and a "usage" object with
      the three figures; the fingerprint is optional. */
  function FromMap(fields: map<string, Json.Value>): (r: Option<TokenUsage>)
    ensures r.Some? <==>
              Json.StrField(fields, "id").Some? && Json.StrField(fields, "model").Some? &&
              Json.MapField(fields, "usage").Some? && UsageFigures(Json.MapField(fields, "usage").value).Some?
    ensures r.Some? ==> r.value == UsageOf(
              Json.StrField(fields, "id").value, Json.StrField(fields, "model").value, Fingerprint(fields),
              UsageFigures(Json.MapField(fields, "usage").value).value)
  {
    var id := Json.StrField(fields, "id");
    var model := Json.StrField(fields, "model");
    var usage := Json.MapField(fields, "usage");
    if id.None? || model.None? || usage.None? then None
    else
      var figures := UsageFigures(usage.value);
      if figures.None? then None
      else Some(UsageOf(id.value, model.value, Fingerprint(fields), figures.value))
  }

  /** `ExtractTokenUsageFromResponse`. */
  function ExtractTokenUsage(response: Json.Value): (r: Result<TokenUsage, Error>)
    ensures r.Ok? ==> SdkKit.Mirrored(r.value)
    ensures r.Fail? ==> r.error == NotACompletion(response)
    ensures response.SdkTyped? && response.sdkType == CompletionType ==> r.Ok?
    ensures response.SdkTyped? && response.sdkType == MockType ==> (r.Ok? <==> response.usage.Some?)
    ensures response.SdkTyped? && response.sdkType !in {CompletionType, MockType} ==> r.Fail?
    ensures response.JMap? ==> (r.Ok? <==> FromMap(response.fields).Some?)
    ensures !response.SdkTyped? && !response.JMap? ==> r.Fail?
    ensures response.SdkTyped? && r.Ok? ==>
              r.value.completionId == response.id && r.value.model == response.model &&
              r.value.requestId == response.fingerprint
    ensures response.SdkTyped? && r.Ok? ==>
              if response.usage.Some? then
                r.value.inputTokens == response.usage.value.prompt && r.value.outputTokens == response.usage.value.completion &&
                r.value.totalTokens == response.usage.value.total
              else r.value.inputTokens == 0 && r.value.outputTokens == 0 && r.value.totalTokens == 0
    ensures response.JMap? && r.Ok? ==> r.value == FromMap(response.fields).value
  {
    match response
    case SdkTyped(t, id, model, fingerprint, usage) =>
      if t == CompletionType then
        var u := if usage.Some? then usage.value else Json.SdkUsage(0, 0, 0);
        Ok(UsageOf(id, model, fingerprint, u))
      else if t == MockType && usage.Some? then
        Ok(UsageOf(id, model, fingerprint, usage.value))
      else Fail(NotACompletion(response))
    case JMap(fields) =>
      if FromMap(fields).Some? then Ok(FromMap(fields).value) else Fail(NotACompletion(response))
    case _ => Fail(NotACompletion(response))
  }

  /** A decoded JSON response in the shape the adapter reads. */
  function MapResponse(id: string, model: string, fingerprint: Option<string>, u: Json.SdkUsage): Json.Value
  {
    var usage := Json.JMap(map[
      "prompt_tokens" := Json.JNum(u.prompt),
      "completion_tokens" := Json.JNum(u.completion),
      "total_tokens" := Json.JNum(u.total)]);
    var fields := map["id" := Json.JStr(id), "model" := Json.JStr(model), "usage" := usage];
    Json.JMap(if fingerprint.Some? then fields["system_fingerprint" := Json.JStr(fingerprint.value)] else fields)
  }

  /** Reading back a well-formed map gives the identifiers and figures it
      states, the total as stated even when it is not the sum, and the
      fingerprint or an empty request id. */
  lemma MapRoundTrip(id: string, model: string, fingerprint: Option<string>, u: Json.SdkUsage)
    ensures ExtractTokenUsage(MapResponse(id, model, fingerprint, u)) ==
            Ok(UsageOf(id, model, if fingerprint.Some? then fingerprint.value else "", u))
  {
    var fields := MapResponse(id, model, fingerprint, u).fields;
    var usage := map[
      "prompt_tokens" := Json.JNum(u.prompt),
      "completion_tokens" := Json.JNum(u.completion),
      "total_tokens" := Json.JNum(u.total)];
    assert Json.StrField(fields, "id") == Some(id);
    assert Json.StrField(fields, "model") == Some(model);
    assert Json.MapField(fields, "usage") == Some(usage);
    assert UsageFigures(usage) == Some(u);
    assert Fingerprint(fields) == if fingerprint.Some? then fingerprint.value else "";
  }

  /** The adapter as the tracker holds it. */
  function Client(): (c: SdkKit.Client)
    ensures c.providerName == Name && c.supportedModels == SupportedModels()
    ensures c.fetchCurrentPricing == Ok(Pricing()) && c.updateProviderPricing.None?
  {
    SdkKit.Client(Name, SupportedModels(), response => ExtractTokenUsage(response), Ok(Pricing()), None)
  }

  /** Every model the adapter lists has a price. */
  lemma PricesSupportedModels()
    ensures SdkKit.PricesSupportedModels(Client())
  {
    var c := Client();
    forall i | 0 <= i < |c.supportedModels| ensures c.supportedModels[i] in Pricing() {
    }
  }

  /** `TrackAPICall` on a listed model fails only when the response cannot
      be read, and bills the tokens read at the model's listed price. */
  lemma TrackSupportedModel(i: int, response: Json.Value)
    requires 0 <= i < |SupportedModels()|
    ensures SdkKit.TrackAPICall(Client(), SupportedModels()[i], response).Ok? <==> ExtractTokenUsage(response).Ok?
    ensures SdkKit.TrackAPICall(Client(), SupportedModels()[i], response).Ok? ==>
              SdkKit.Billed(SdkKit.TrackAPICall(Client(), SupportedModels()[i], response).value,
                            ExtractTokenUsage(response).value, Pricing()[SupportedModels()[i]])
  {
    PricesSupportedModels();
    SdkKit.SupportedModelsBill(Client(), i, response);
  }
}
