/** The library's value types (models.go and common/types.go). They carry no
    behaviour beyond the two arithmetic invariants defined here. */
module Models {
  import opened Wrappers
  import opened Errors
  import Json

  /** One part of a structured message content. The image payload is not
      read by any counting logic and is omitted. */
  datatype ContentPart = ContentPart(partType: string, text: string)

  /** A message's `Content` field, which Go types as `interface{}`: a plain
      string, typed parts, parts decoded from JSON, or anything else. */
  datatype Content =
    | TextContent(text: string)
    | Parts(parts: seq<ContentPart>)
    | JsonParts(items: seq<Json.Value>)
    | OtherContent

  datatype Message = Message(role: string, content: Content)

  datatype Tool = Tool(toolType: string, definition: Json.Value)

  datatype ToolChoice = ToolChoice(choiceType: string, definition: Json.Value)

  /** Input of a token count; `text` is Go's `*string`, `toolChoice` a pointer. */
  datatype TokenCountParams = TokenCountParams(
    model: string,
    text: Option<string>,
    messages: seq<Message>,
    tools: seq<Tool>,
    toolChoice: Option<ToolChoice>,
    countResponseTokens: bool)

  datatype TokenCount = TokenCount(inputTokens: int, responseTokens: int, totalTokens: int)

  /** Monetary amounts are `float64` in Go and `real` here. */
  datatype Price = Price(inputCost: real, outputCost: real, totalCost: real, currency: string)

  datatype ModelPricing = ModelPricing(inputPricePerToken: real, outputPricePerToken: real, currency: string)

  /** Usage of one call. Go's `Duration` and `Timestamp` come from the wall
      clock and are omitted. */
  datatype UsageMetrics = UsageMetrics(tokenCount: TokenCount, price: Price, model: string, provider: string)

  /** Parameters of a tracked call; `StartTime` is omitted with the clock. */
  datatype CallParams = CallParams(model: string, params: TokenCountParams)

  /** Usage as the SDK adapters report it (common/types.go); `Timestamp` is omitted. */
  datatype TokenUsage = TokenUsage(
    inputTokens: int,
    outputTokens: int,
    totalTokens: int,
    completionId: string,
    model: string,
    promptTokens: int,
    responseTokens: int,
    requestId: string)

  /** `json.Marshal` of the request parts that are counted as JSON text.
      The encoding itself is foreign to the model; each may fail. */
  datatype Marshaller = Marshaller(
    messages: seq<Message> -> Result<string, Error>,
    tools: seq<Tool> -> Result<string, Error>,
    toolChoice: ToolChoice -> Result<string, Error>)

  /** The total of a token count is the sum of its parts. */
  predicate Balanced(c: TokenCount)
  {
    c.totalTokens == c.inputTokens + c.responseTokens
  }

  /** A token count built from its two parts. */
  function CountOf(input: int, response: int): (c: TokenCount)
    ensures Balanced(c) && c.inputTokens == input && c.responseTokens == response
  {
    TokenCount(input, response, input + response)
  }

  /** The cost of a call: each token count times its per-token price, the
      total their sum, and the currency of the pricing record. */
  function PriceOf(pricing: ModelPricing, inputTokens: int, outputTokens: int): (p: Price)
    ensures p.totalCost == p.inputCost + p.outputCost
    ensures p.currency == pricing.currency
    ensures p.inputCost == inputTokens as real * pricing.inputPricePerToken
    ensures p.outputCost == outputTokens as real * pricing.outputPricePerToken
  {
    var inputCost := inputTokens as real * pricing.inputPricePerToken;
    var outputCost := outputTokens as real * pricing.outputPricePerToken;
    Price(inputCost, outputCost, inputCost + outputCost, pricing.currency)
  }
}
