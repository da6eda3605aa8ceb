/** The Anthropic SDK adapter (sdkwrappers/anthropic.go): four Claude
    models with a fixed price list, and usage read from a typed
    `*anthropic.Message`, its reflection-read mock, or a decoded JSON map.

    A typed message's usage block is a value struct in Go, so an absent
    block (`usage == None`) reads as zero tokens; a mock without the block
    is not a valid mock. */
module SdkAnthropic {
  import opened Wrappers
  import opened Errors
  import opened Models
  import Json
  import SdkKit

  const Name: string := "anthropic"
  const MessageType: string := "*anthropic.Message"
  const MockType: string := "*sdkwrappers.MockAnthropicResponse"

  /** `GetSupportedModels`. */
  function SupportedModels(): seq<string>
  {
    ["claude-3-haiku", "claude-3-sonnet", "claude-3-opus", "claude-3-haiku@20240307"]
  }

  /** `FetchCurrentPricing`: the fixed price list. */
  function Pricing(): map<string, ModelPricing>
  {
    map[
      "claude-3-haiku" := ModelPricing(0.00000025, 0.00000125, "USD"),
      "claude-3-sonnet" := ModelPricing(0.000003, 0.000015, "USD"),
      "claude-3-opus" := ModelPricing(0.00001, 0.00003, "USD"),
      "claude-3-haiku@20240307" := ModelPricing(0.00000025, 0.00000125, "USD")]
  }

  /** The error for anything that is neither a message, a valid mock nor a
      well-formed map. */
  function NotAMessage(response: Json.Value): Error
  {
    Plain("response is not an *anthropic.Message or valid mock: " + Json.TypeName(response))
  }

  /** The usage record the adapter builds: the total is the sum of input
      and output, prompt and response mirror them, there is no request id. */
  function UsageOf(id: string, model: string, input: int, output: int): (u: TokenUsage)
    ensures SdkKit.Mirrored(u) && u.totalTokens == u.inputTokens + u.outputTokens
    ensures u.inputTokens == input && u.outputTokens == output
    ensures u.completionId == id && u.model == model && u.requestId == ""
  {
    TokenUsage(input, output, input + output, id, model, input, output, "")
  }

  /** The map branch: string "id" and "model", a "usage" object with
      numeric "input_tokens" and "output_tokens". */
  function FromMap(fields: map<string, Json.Value>): (r: Option<TokenUsage>)
    ensures r.Some? <==>
              Json.StrField(fields, "id").Some? && Json.StrField(fields, "model").Some? &&
              Json.MapField(fields, "usage").Some? &&
              Json.NumField(Json.MapField(fields, "usage").value, "input_tokens").Some? &&
              Json.NumField(Json.MapField(fields, "usage").value, "output_tokens").Some?
    ensures r.Some? ==> r.value == UsageOf(
              Json.StrField(fields, "id").value, Json.StrField(fields, "model").value,
              Json.NumField(Json.MapField(fields, "usage").value, "input_tokens").value,
              Json.NumField(Json.MapField(fields, "usage").value, "output_tokens").value)
  {
    var id := Json.StrField(fields, "id");
    var model := Json.StrField(fields, "model");
    var usage := Json.MapField(fields, "usage");
    if id.None? || model.None? || usage.None? then None
    else
      var input := Json.NumField(usage.value, "input_tokens");
      var output := Json.NumField(usage.value, "output_tokens");
      if input.None? || output.None? then None
      else Some(UsageOf(id.value, model.value, input.value, output.value))
  }

  /** `ExtractTokenUsageFromResponse`. */
  function ExtractTokenUsage(response: Json.Value): (r: Result<TokenUsage, Error>)
    ensures r.Ok? ==> SdkKit.Mirrored(r.value) && r.value.totalTokens == r.value.inputTokens + r.value.outputTokens
    ensures r.Ok? ==> r.value.requestId == ""
    ensures r.Fail? ==> r.error == NotAMessage(response)
    ensures response.SdkTyped? && response.sdkType == MessageType ==> r.Ok?
    ensures response.SdkTyped? && response.sdkType == MockType ==> (r.Ok? <==> response.usage.Some?)
    ensures response.SdkTyped? && response.sdkType !in {MessageType, MockType} ==> r.Fail?
    ensures response.JMap? ==> (r.Ok? <==> FromMap(response.fields).Some?)
    ensures !response.SdkTyped? && !response.JMap? ==> r.Fail?
    ensures response.SdkTyped? && r.Ok? ==>
              r.value.completionId == response.id && r.value.model == response.model
    ensures response.SdkTyped? && r.Ok? ==>
              if response.usage.Some? then
                r.value.inputTokens == response.usage.value.prompt && r.value.outputTokens == response.usage.value.completion
              else r.value.inputTokens == 0 && r.value.outputTokens == 0
    ensures response.JMap? && r.Ok? ==> r.value == FromMap(response.fields).value
  {
    match response
    case SdkTyped(t, id, model, _, usage) =>
      if t == MessageType then
        var u := if usage.Some? then usage.value else Json.SdkUsage(0, 0, 0);
        Ok(UsageOf(id, model, u.prompt, u.completion))
      else if t == MockType && usage.Some? then
        Ok(UsageOf(id, model, usage.value.prompt, usage.value.completion))
      else Fail(NotAMessage(response))
    case JMap(fields) =>
      if FromMap(fields).Some? then Ok(FromMap(fields).value) else Fail(NotAMessage(response))
    case _ => Fail(NotAMessage(response))
  }

  /** A decoded JSON response in the shape the adapter reads. */
  function MapResponse(id: string, model: string, input: int, output: int): Json.Value
  {
    Json.JMap(map[
      "id" := Json.JStr(id),
      "model" := Json.JStr(model),
      "usage" := Json.JMap(map["input_tokens" := Json.JNum(input), "output_tokens" := Json.JNum(output)])])
  }

  /** Reading back a well-formed map gives the identifiers and token
      figures it states, with the total their sum. */
  lemma MapRoundTrip(id: string, model: string, input: int, output: int)
    ensures ExtractTokenUsage(MapResponse(id, model, input, output)) == Ok(UsageOf(id, model, input, output))
  {
    var fields := MapResponse(id, model, input, output).fields;
    assert Json.StrField(fields, "id") == Some(id);
    assert Json.StrField(fields, "model") == Some(model);
    var usage := map["input_tokens" := Json.JNum(input), "output_tokens" := Json.JNum(output)];
    assert Json.MapField(fields, "usage") == Some(usage);
    assert Json.NumField(usage, "input_tokens") == Some(input);
    assert Json.NumField(usage, "output_tokens") == Some(output);
  }

  /** A map missing the completion id is rejected, whatever else it holds. */
  lemma MapWithoutIdRejected(fields: map<string, Json.Value>)
    requires "id" !in fields
    ensures ExtractTokenUsage(Json.JMap(fields)) == Fail(NotAMessage(Json.JMap(fields)))
    ensures Render(NotAMessage(Json.JMap(fields))) ==
            "response is not an *anthropic.Message or valid mock: map[string]interface {}"
  {
  }

  /** The adapter as the tracker holds it. */
  function Client(): (c: SdkKit.Client)
    ensures c.providerName == Name && c.supportedModels == SupportedModels()
    ensures c.fetchCurrentPricing == Ok(Pricing()) && c.updateProviderPricing.None?
  {
    SdkKit.Client(Name, SupportedModels(), response => ExtractTokenUsage(response), Ok(Pricing()), None)
  }

  /** Every model the adapter lists has a price. */
  lemma PricesSupportedModels()
    ensures SdkKit.PricesSupportedModels(Client())
  {
    var c := Client();
    forall i | 0 <= i < |c.supportedModels| ensures c.supportedModels[i] in Pricing() {
    }
  }

  /** `TrackAPICall` on a listed model fails only when the response cannot
      be read, and bills the tokens read at the model's listed price. */
  lemma TrackSupportedModel(i: int, response: Json.Value)
    requires 0 <= i < |SupportedModels()|
    ensures SdkKit.TrackAPICall(Client(), SupportedModels()[i], response).Ok? <==> ExtractTokenUsage(response).Ok?
    ensures SdkKit.TrackAPICall(Client(), SupportedModels()[i], response).Ok? ==>
              SdkKit.Billed(SdkKit.TrackAPICall(Client(), SupportedModels()[i], response).value,
                            ExtractTokenUsage(response).value, Pricing()[SupportedModels()[i]])
  {
    PricesSupportedModels();
    SdkKit.SupportedModelsBill(Client(), i, response);
  }
}
