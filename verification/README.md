# tokentracker in Dafny

A model of the tokentracker library: a Go library that counts the tokens of
large-language-model calls, prices them, and reads usage figures back from
provider responses. The model covers the following.

- **The tracker.** It holds a registry of providers and a pricing
  configuration. Its operations are `CountTokens`, `CalculatePrice`,
  `TrackUsage`, `TrackTokenUsage`, `UpdateAllPricing` and
  `RegisterSDKClient`.
- **The pricing configuration.** Default prices for seven models of three
  providers, plus pricing lookup and update and the usage-logging and
  auto-update switches.
- **The error type.** Five kind constants and the rendering of nested causes.
- **The shared token cache.** Its abbreviated keys and the `CleanupCache`
  policy.
- **The helpers.** Text extraction from messages, tool formatting and the
  library-wide response estimate.
- **The three providers.**
  - Claude and Gemini count with a character heuristic through the shared
    cache.
  - OpenAI counts with a tokenizer.
- **The three SDK adapters** (Anthropic, OpenAI, Gemini). They read usage
  from typed responses, mocks or decoded JSON maps, and price calls from a
  fixed list.

The modules follow the repository's files:

| Module | Contents |
|---|---|
| `Errors` | errors.go |
| `Configuration` | config.go |
| `Registry` | the registry in provider.go |
| `TokenTracker` | tokentracker.go |
| `Utils` | utils.go |
| `Models` | models.go and common/types.go |
| `ProviderKit` | what the Claude and Gemini providers share |
| `Claude`, `Gemini`, `OpenAI` | the providers |
| `SdkKit` | the adapter interface and `TrackAPICall` |
| `SdkAnthropic`, `SdkOpenAI`, `SdkGemini` | the adapters |
| `Standard` | a tracker holding the three providers |
| `Strings`, `Json`, `Wrappers` | small supporting definitions |

State that Go keeps in mutable objects is passed and returned explicitly:

- the configuration;
- the registry;
- the process-wide token cache, a `map<string, int>` threaded through every
  count.

Go's dynamic `interface{}` responses are one datatype, `Json.Value`. It
covers decoded JSON values, typed SDK responses reduced to the fields the
adapters read, and responses that report their own token count.

The JSON encoder (`json.Marshal`) and the tiktoken tokenizer are
parameters. Each is a record of functions that may fail, so every outcome
they can have is covered.

With all three providers registered, `Standard.CountWithStandard` and
`Standard.UpdateStandardPricing` prove the following:

- counting with a coherent cache gives the count each provider's heuristic
  intends, and keeps the cache coherent;
- a full pricing update never fails;
- after it, each model is priced by its own provider's update list, and
  otherwise as before.

## Model

| member | source | states |
|---|---|---|
| Errors.NewError | errors.go:35-41 | the error carries the given kind and message, and unwraps to exactly the given cause |
| Errors.Innermost | errors.go:30-32 | following the causes ends at an error that wraps nothing |
| Errors.RenderChain | errors.go:22-27 | a nested error renders as every wrapping layer's "kind: message (cause: " outermost first, then the innermost error's text, then as many ")" as there are wrapping layers |
| Errors.RenderShape | errors.go:22-27 | a tracker error renders as "kind: message", followed by " (cause: …)" exactly when a cause is present |
| Errors.KindNameRoundTrip | errors.go:6-12 | each kind constant reads back as its kind |
| Errors.KindNamesDistinct | errors.go:6-12 | two kinds have the same string value only if they are the same kind |
| Errors.KindNamesSnakeCase | errors.go:6-12 | every kind value is a snake_case identifier containing '_' |
| Strings.GoDiv | utils.go:106 | Go's integer division truncates toward zero, for negative dividends too |
| Strings.DecimalRoundTrip | utils.go:45 | the `%d` rendering of a length reads back as that length |
| Strings.DecimalInjective | utils.go:45 | distinct lengths render differently |
| Strings.DecimalLengthBound | utils.go:45 | a number's rendering is at most n/10+1 digits long |
| Utils.HashString | utils.go:42-48 | a text of at most 100 characters is its own key; a longer one becomes its first 50 characters, "...", its last 50, ':' and its length in decimal |
| Utils.HashDeterminesLength | utils.go:42-48 | texts sharing a key have the same length |
| Utils.HashChangesLongText | utils.go:42-48 | an abbreviated key differs from its text, at every length above 100 except 107 |
| Utils.HashFixedPointShape | utils.go:42-48 | a 107-character text is its own key exactly when characters 50-52 are "...", it repeats itself with period 4 from position 53 on (characters 53-102 equal characters 57-106), and it ends in ":107" |
| Utils.HashFixedPoint | utils.go:42-48 | a 107-character text that is its own key exists |
| Utils.KeySeparates | utils.go:26 | with colon-free names, equal cache keys mean the same provider, the same model and texts of equal length |
| Utils.ColonNamesCollide | utils.go:26 | names containing ':' can share a key: ("a:b","c") and ("a","b:c") |
| Utils.GetCached | utils.go:22-29 | a lookup hits exactly when the key for (provider, model, text) is present, and then returns the count stored under it |
| Utils.SetCached | utils.go:32-38 | after storing, the same lookup returns the stored count |
| Utils.SetCachedFrame | utils.go:32-38 | storing leaves every entry under another key unchanged |
| Utils.SeparateEntries | utils.go:26-37 | an entry stored for one colon-free (provider, model) does not affect a lookup for another |
| Utils.EmptyCacheMisses | utils.go:17-19 | the initial empty cache misses every lookup |
| Utils.CleanupCache | utils.go:128-139 | a cache of at most maxSize entries is kept as it is; otherwise it is emptied completely, never partly |
| Utils.ExtractDistributes | utils.go:51-82 | no messages give no text, and the text of concatenated message lists is the concatenation of their texts |
| Utils.ExtractSingle | utils.go:55-58 | a string message contributes its text and a newline; content of another type contributes nothing |
| Utils.PartsDistribute | utils.go:59-65 | typed parts contribute their "text" parts in order, and nothing else |
| Utils.PartSingle | utils.go:60-64 | one typed part contributes its text and a newline iff its type is "text" |
| Utils.JsonPartsDistribute | utils.go:66-77 | decoded parts contribute in order, part by part |
| Utils.FormatToolsAsJSON | utils.go:85-96 | no tools give ""; otherwise the encoding, or "" when encoding fails |
| Utils.EstimateResponseTokens | utils.go:100-125 | for a non-negative input the estimate lies between 0 and twice the input |
| Utils.EstimateOpenAIModels | utils.go:103-106 | "gpt-4" and "gpt-4-turbo" estimate the input; "gpt-3.5-turbo" estimates half |
| Utils.EstimateClaudeModels | utils.go:107-114 | Opus estimates twice the input, Sonnet the input, Haiku half |
| Utils.EstimateClaudeSonnet | utils.go:110-111 | Sonnet estimates the input |
| Utils.EstimateClaudeHaiku | utils.go:112-113 | Haiku estimates half the input |
| Utils.ClaudeFamily | utils.go:103-107 | a "claude-3-" name without 'g' falls to the Claude branch |
| Utils.EstimateGeminiModels | utils.go:115-120 | Ultra estimates 3n/2 truncated; Pro estimates half |
| Utils.GeminiFamily | utils.go:103-115 | a "gemini-" name without '4', '3' or 'c' falls to the Gemini branch |
| Utils.EstimateUnknownModel | utils.go:123-124 | a name containing none of "gpt-4", "gpt-3.5", "claude" and "gemini" estimates half the input |
| Utils.EstimateWithoutFamilyLetters | utils.go:100-125 | a name with neither 'g' nor 'c' contains none of the family names, so it estimates half the input |
| Models.CountOf | providers/claude.go:78-82 | a count built from input and response tokens has the total as their sum |
| Models.PriceOf | providers/claude.go:92-100 | each cost is tokens times per-token price; the total is their sum, in the pricing's currency |
| Configuration.NewConfig | config.go:33-85 | exactly the seven default (provider, model) pairs are priced, all plausibly; logging and auto-update are off |
| Configuration.GetModelPricing | config.go:120-131 | a price is found iff both the provider and the model are present, and it is the stored one |
| Configuration.SetModelPricing | config.go:134-147 | the pair now has the given price; every other pair keeps its price; the priced pairs grow by this one |
| Configuration.SetModelPricingLastWins | config.go:134-147 | pricing a pair twice keeps only the second price |
| Configuration.SetModelPricingCommutes | config.go:134-147 | pricing two different pairs gives the same configuration in either order |
| Configuration.DefaultPricingFound | config.go:33-85 | a lookup in the defaults succeeds iff the pair is a default one, and then the price is plausible |
| Configuration.EnableAutomaticPricingUpdates | config.go:150-173 | automatic updates are on; prices and logging settings are unchanged |
| Configuration.DisableAutomaticPricingUpdates | config.go:176-187 | automatic updates are off; prices and logging settings are unchanged |
| Configuration.EnableUsageLogging | config.go:190-204 | an unopenable path returns its error and changes nothing; otherwise logging is on with that path |
| Configuration.DisableUsageLogging | config.go:207-212 | logging is off, but the recorded path is kept |
| Configuration.UsageLoggingReenable | config.go:190-212 | disabling and then re-enabling logging equals enabling it directly |
| Registry.NewRegistry | provider.go:39-43 | nothing is registered |
| Registry.Register | provider.go:46-50 | the provider is filed under its name and replaces any earlier one; the other names are unchanged |
| Registry.Get | provider.go:53-58 | found iff the name is registered, and then it is the provider stored under that name |
| Registry.Resolve | provider.go:61-72 | a model resolves when exactly one registered provider supports it, and then to that provider |
| Registry.GetForModel | provider.go:61-72 | finds a registered provider supporting the model iff one exists; the only one when it is unique |
| Registry.All | provider.go:75-85 | lists every registered provider exactly once |
| Registry.KeysInSomeOrder | provider.go:79-82 | lists every name of a finite set once, in some order |
| Registry.RegisterLastWins | provider.go:46-50 | re-registering under the same name keeps only the last provider |
| Registry.RegisterCommutes | provider.go:46-50 | registrations under different names commute |
| Registry.RegisterSupport | provider.go:46-72 | registering a provider that supports a model makes the model supported; registering a new one that does not support it leaves support unchanged |
| TokenTracker.NewTokenTracker | tokentracker.go:38-47 | an empty registry with the given configuration |
| TokenTracker.RegisterProvider | tokentracker.go:50-52 | the provider is filed under its name; the configuration and cache are unchanged |
| TokenTracker.CountTokens | tokentracker.go:104-115 | an empty model gives the model-required error and an unsupported one the no-provider error; otherwise the count is a supporting provider's count (the sole supporter's, when there is one) |
| TokenTracker.CalculatePrice | tokentracker.go:118-129 | the same error order; otherwise the price is a supporting provider's price from the tracker's configuration |
| TokenTracker.ResponseTokens | tokentracker.go:141-160 | a response that reports its own count wins; otherwise the response estimate of the model's provider, 0 when there is no provider or the estimate fails |
| TokenTracker.TrackUsage | tokentracker.go:132-187 | the counting errors come first; some supporter of the counting model decides the input: its failure is returned as is, and after a successful count a missing call model or one no provider supports is an error; a success carries the counted input, a balanced count, the call's model, a provider supporting it, a price some supporter computes for exactly these figures, and either the reported response count or the estimate of some supporter of the call's model, made on the cache some supporter of the counting model left; with unique supporters the whole result is the count-then-charge of those two |
| TokenTracker.Charge | tokentracker.go:139-187 | after counting: the call's model is required and must be supported; a success keeps the counted input, charges the reported response count or some supporter's estimate (with the cache that estimate leaves), prices it through a supporter and names one; with a unique supporter the result is that supporter's charge |
| TokenTracker.UpdateInOrder | tokentracker.go:79-83 | with no providers, the configuration is unchanged and there is no error |
| TokenTracker.UpdateReportsLastFailure | tokentracker.go:77-87 | the loop reports no error iff no update failed; otherwise it reports the error of the last failing update |
| TokenTracker.UpdateAllPricing | tokentracker.go:75-90 | every registered provider updates once, in some order; the last failure is wrapped as pricing-update-failed; the registry and cache are unchanged |
| TokenTracker.RegisterSDKClient | tokentracker.go:55-72 | the client is set on the provider of the same name iff that provider exists; a missing provider gives provider-not-found; a failing pricing update is wrapped with its error as cause |
| TokenTracker.TrackTokenUsage | tokentracker.go:93-101 | an unknown name gives provider-not-found; otherwise the named provider's extraction |
| ProviderKit.Approximate | providers/claude.go:192-213 | after counting, the cache holds the returned count for the text |
| ProviderKit.ApproximateCoherent | providers/gemini.go:93-112 | with a coherent cache, the count is the length estimate and the cache stays coherent |
| ProviderKit.ApproximateKeepsOthersCoherent | utils.go:26-37 | counting under one provider name keeps the entries of another colon-free name coherent |
| ProviderKit.AddEncodedCoherent | providers/claude.go:228-241 | an encoded tool part adds its estimate when present and encodable, and nothing otherwise |
| ProviderKit.CountPartsCoherent | providers/claude.go:216-244 | the message count is the text estimate plus the per-message overhead plus the part estimates |
| ProviderKit.CountMessagesCoherent | providers/gemini.go:115-142 | with a coherent cache, counting messages gives the intended estimate and keeps the cache coherent |
| ProviderKit.WithResponse | providers/claude.go:73-82 | the count is balanced, and the response is estimated only on request |
| ProviderKit.CountTokens | providers/claude.go:54-83 | a failed count leaves the cache as it was |
| ProviderKit.IntendedCount | providers/claude.go:54-83 | model required, then text or messages required; the text estimate wins over messages; the count is balanced |
| ProviderKit.CountTokensCoherent | providers/gemini.go:42-71 | with a coherent cache, the provider's count equals the cache-free intended count and the cache stays coherent |
| ProviderKit.CountTokensKeepsOthersCoherent | utils.go:26-37 | counting with one provider keeps another provider's cache entries coherent |
| ProviderKit.CountPartsKeepsOthersCoherent | utils.go:26-37 | the same for the message parts |
| ProviderKit.AddEncodedKeepsOthersCoherent | utils.go:26-37 | the same for one encoded part |
| ProviderKit.UsageObject | providers/claude.go:124-141 | nil gives "response is nil", a non-map gives "response is not a map", a map without "usage" gives the usage-not-found error |
| ProviderKit.ExtractInputOutput | providers/claude.go:124-156 | succeeds iff both figures are numbers; the count is the stated input and output, with their sum as total |
| ProviderKit.ExtractPromptCompletion | providers/gemini.go:167-199 | succeeds iff all three figures are numbers, and reports them as stated |
| ProviderKit.InputOutputRoundTrip | providers/claude.go:124-156 | a balanced count written in the Anthropic shape reads back unchanged |
| ProviderKit.PromptCompletionRoundTrip | providers/openai.go:128-160 | any count written in the OpenAI shape reads back unchanged |
| ProviderKit.PriceFromConfig | providers/gemini.go:74-89 | priced iff the configuration holds the model under the provider; otherwise pricing-not-found |
| ProviderKit.PriceAfterUpdate | config.go:134-147 | a price just set is the one charged |
| Claude.FromLength | providers/claude.go:201-207 | the estimate t satisfies 400(t-5) <= 95n < 400(t-4), that is 95n/400 rounded down plus 5, so at least 5 and at most a quarter of the length plus 5 |
| Claude.FromLengthMonotone | providers/claude.go:201-207 | longer texts never get smaller estimates |
| Claude.EstimateSupportedModels | providers/claude.go:247-259 | Opus estimates twice the input, Sonnet 3n/2 truncated, Haiku the input |
| Claude.EstimateDepartsFromLibrary | providers/claude.go:247-259 | agrees with the library estimate on Opus, and is higher on Sonnet and Haiku from two tokens on |
| Claude.CountTokensIntended | providers/claude.go:54-83 | with a coherent cache, the count is the intended count (six tokens per message) and a text costs its length estimate |
| Claude.CalculatePrice | providers/claude.go:86-101 | priced iff "anthropic" prices the model; otherwise pricing-not-found |
| Claude.ModelInfo | providers/claude.go:111-121 | information exists iff the model is supported, with a 200000 context window and a string description; otherwise invalid-model "model info not found for: " |
| Claude.ExtractTokenUsage | providers/claude.go:124-156 | succeeds iff "usage" holds numeric input_tokens and output_tokens; the count reads those two, with their sum as total; failures are invalid-params |
| Claude.ExtractRoundTrip | providers/claude.go:124-156 | a balanced count reads back from the response stating it |
| Claude.UpdatePricing | providers/claude.go:159-188 | never fails; writes the three models' prices and keeps every other price |
| Claude.UpdatePricingIdempotent | providers/claude.go:159-188 | updating twice prices every model as updating once does |
| Claude.UpdateRepricesOpus | providers/claude.go:181-185 | the update raises Opus above the default price |
| Claude.AsProvider | providers/claude.go:35-49 | the registered provider is named "anthropic", supports exactly the three models, and counts, prices, describes models, extracts usage and updates as this module does |
| Gemini.FromLength | providers/gemini.go:93-112 | the estimate is the length in quarters, rounded down, plus 3 |
| Gemini.FromLengthMonotone | providers/gemini.go:102-106 | longer texts never get smaller estimates |
| Gemini.CountTokensIntended | providers/gemini.go:42-71 | with a coherent cache, the count is the intended count (four tokens per message) and a text costs its length estimate |
| Gemini.CalculatePrice | providers/gemini.go:74-89 | priced iff "gemini" prices the model; otherwise pricing-not-found |
| Gemini.ModelInfo | providers/gemini.go:156-164 | the same description for any model, naming it, its provider and three capabilities |
| Gemini.ExtractTokenUsage | providers/gemini.go:167-199 | succeeds iff the OpenAI-style figures are present; the count reads prompt_tokens, completion_tokens and total_tokens as stated, the total not summed; failures are invalid-params |
| Gemini.ExtractRoundTrip | providers/gemini.go:167-199 | any stated count reads back, balanced or not |
| Gemini.UpdatePricing | providers/gemini.go:202-221 | never fails; writes the two models' prices and keeps every other price |
| Gemini.UpdateKeepsDefaults | providers/gemini.go:202-221 | the defaults already carry those prices, so the update changes none |
| Gemini.AsProvider | providers/gemini.go:24-37 | named "gemini", supports exactly the two models, and counts, prices, describes models, extracts usage and updates as this module does |
| OpenAI.EncodingName | providers/openai.go:192-208 | r50k_base iff the model is text-embedding-ada; otherwise cl100k_base |
| OpenAI.GetEncoding | providers/openai.go:192-208 | succeeds iff that encoding loads; otherwise tokenization-failed with the loader's error as cause |
| OpenAI.CountMessages | providers/openai.go:211-246 | marshalling failures are reported messages first, then tools, then tool choice, each with its own wrapped error, all as tokenization-failed; a success is the encoded messages, plus the encoded tools when there are any, plus the encoded tool choice when there is one, plus 3 |
| OpenAI.MessagesAloneCost | providers/openai.go:211-246 | messages with no tools and no tool choice cost their encoding plus 3 |
| OpenAI.ToolsAddTheirEncoding | providers/openai.go:224-230 | tools add exactly the tokens of their encoding |
| OpenAI.ToolChoiceAddsItsEncoding | providers/openai.go:234-240 | a tool choice adds exactly the tokens of its encoding |
| OpenAI.WithResponse | providers/openai.go:73-82 | balanced; the response is estimated by the library estimate only on request |
| OpenAI.CountTokens | providers/openai.go:45-83 | model required, then encoding, then text or messages; a text costs its encoded length, messages cost what the message count gives; the response is the library estimate only on request, else 0; failures are invalid-params or tokenization-failed |
| OpenAI.ResponseOnRequest | providers/openai.go:73-82 | asking for the response estimate changes neither success nor the input count, and turns a response of 0 into the library estimate |
| OpenAI.CountTokensMessageFloor | providers/openai.go:211-246 | a successful message count costs at least 3 plus the encoded messages |
| OpenAI.CalculatePrice | providers/openai.go:86-108 | an empty model is rejected first; otherwise priced iff "openai" prices the model |
| OpenAI.ModelInfo | providers/openai.go:117-125 | the same description for any model, naming it, its provider and three capabilities |
| OpenAI.ExtractTokenUsage | providers/openai.go:128-160 | succeeds iff the three figures are present; the count reads them as stated, the total copied rather than summed; failures are invalid-params |
| OpenAI.ExtractRoundTrip | providers/openai.go:128-160 | any stated count reads back |
| OpenAI.UpdatePricing | providers/openai.go:163-189 | never fails; writes three models' prices and keeps every other price |
| OpenAI.UpdatePricesTurbo | providers/openai.go:181-186 | GPT-4 Turbo is unpriced by default and priced after the update |
| OpenAI.SupportedButUnpriced | providers/openai.go:29-42 | four supported models stay unpriced after the update, so pricing them fails |
| OpenAI.AsProvider | providers/openai.go:24-42 | named "openai", supports exactly the seven models, counts without touching the cache, and prices, describes models, extracts usage and updates as this module does |
| SdkKit.TrackAPICall | sdkwrappers/anthropic.go:182-226 | extraction errors first, then pricing-list errors, then a missing model; a success bills the extracted usage at the model's listed price |
| SdkKit.SupportedModelsBill | sdkwrappers/sdk.go:16-29 | an adapter that prices all its models bills every supported model exactly when extraction succeeds |
| SdkAnthropic.UsageOf | sdkwrappers/anthropic.go:63-72 | the total is input plus output; prompt and completion mirror them |
| SdkAnthropic.FromMap | sdkwrappers/anthropic.go:75-97 | a map is read iff it has string id and model and numeric input and output usage |
| SdkAnthropic.ExtractTokenUsage | sdkwrappers/anthropic.go:58-142 | a typed message always succeeds; a mock succeeds iff it has usage; a map iff it is well formed; everything else fails with the type-naming error; a typed or mock result carries the response's id, model and input and output figures (zeros without usage), a map result is what FromMap reads |
| SdkAnthropic.MapRoundTrip | sdkwrappers/anthropic.go:75-97 | a well-formed map reads back its identifiers and figures |
| SdkAnthropic.MapWithoutIdRejected | sdkwrappers/anthropic.go:75-141 | a map without an id is rejected with a message naming its type |
| SdkAnthropic.Client | sdkwrappers/anthropic.go:37-55 | the adapter's name, its models and its price list; the pricing update does nothing |
| SdkAnthropic.PricesSupportedModels | sdkwrappers/anthropic.go:145-172 | every listed model has a price |
| SdkAnthropic.TrackSupportedModel | sdkwrappers/anthropic.go:182-226 | a listed model is billed exactly when extraction succeeds |
| SdkOpenAI.UsageOf | sdkwrappers/openai.go:64-75 | the figures are as given, the total as stated, and the fingerprint as request id |
| SdkOpenAI.UsageFigures | sdkwrappers/openai.go:82-85 | read iff all three figures are numbers |
| SdkOpenAI.Fingerprint | sdkwrappers/openai.go:86-89 | the system fingerprint when it is a string, else "" |
| SdkOpenAI.FromMap | sdkwrappers/openai.go:78-108 | a map is read iff its id, model and usage figures are present |
| SdkOpenAI.ExtractTokenUsage | sdkwrappers/openai.go:60-163 | a typed completion always succeeds; a mock iff it has usage; a map iff it is well formed; everything else fails; a typed or mock result carries the response's id, model, fingerprint and its three figures with the total copied (zeros without usage), a map result is what FromMap reads |
| SdkOpenAI.MapRoundTrip | sdkwrappers/openai.go:78-108 | a well-formed map reads back, fingerprint included |
| SdkOpenAI.Client | sdkwrappers/openai.go:38-57 | the adapter's name, its models and its price list |
| SdkOpenAI.PricesSupportedModels | sdkwrappers/openai.go:166-198 | every listed model has a price |
| SdkOpenAI.TrackSupportedModel | sdkwrappers/openai.go:208-252 | a listed model is billed exactly when extraction succeeds |
| SdkGemini.UsageOf | sdkwrappers/gemini.go:74-81 | the metadata figures as given, with empty identifiers |
| SdkGemini.FromMap | sdkwrappers/gemini.go:84-102 | a map is read iff its usageMetadata has the three numeric counts |
| SdkGemini.ExtractTokenUsage | sdkwrappers/gemini.go:63-139 | a typed response without metadata gives the no-usage-metadata error; a mock without usage is not a response; maps are read when well formed |
| SdkGemini.MapRoundTrip | sdkwrappers/gemini.go:84-102 | a well-formed map reads back its figures |
| SdkGemini.UsageOfInjective | sdkwrappers/gemini.go:74-81 | different metadata gives different usage records |
| SdkGemini.Client | sdkwrappers/gemini.go:42-60 | the adapter's name, its models and its price list |
| SdkGemini.PricesSupportedModels | sdkwrappers/gemini.go:142-169 | every listed model has a price |
| SdkGemini.TrackSupportedModel | sdkwrappers/gemini.go:179-222 | a listed model is billed exactly when extraction succeeds |
| Standard.StandardRegistry | provider.go:46-50 | the three providers are filed under their names |
| Standard.StandardTracker | tokentracker.go:38-52 | a tracker holding the three providers |
| Standard.ResolvesByFamily | provider.go:61-72 | a model is supported iff one family supports it, and then it resolves to that family's provider |
| Standard.EmptyCacheCoherent | utils.go:17-19 | the initial cache is coherent |
| Standard.NamesColonFree | utils.go:26 | the two heuristic providers' cache names are colon-free and distinct |
| Standard.ClaudeCounts | providers/claude.go:54-83 | Claude's count keeps the shared cache coherent for both heuristics and gives the intended count |
| Standard.GeminiCounts | providers/gemini.go:42-71 | Gemini's count does the same |
| Standard.CountWithStandard | tokentracker.go:104-115 | through the tracker, each family's model gets that family's intended count; an empty model and an unsupported model give their errors; the shared cache stays coherent |
| Standard.Writes | providers/claude.go:159-188 | each provider writes prices for exactly its update list |
| Standard.UpdateStep | tokentracker.go:79-83 | a registered provider's update never fails and prices as its update list says |
| Standard.ClaudeUpdateStep | providers/claude.go:159-188 | the Claude update prices as its list says |
| Standard.GeminiUpdateStep | providers/gemini.go:202-221 | the Gemini update prices as its list says |
| Standard.OpenAIUpdateStep | providers/openai.go:163-189 | the OpenAI update prices as its list says |
| Standard.UpdatesCompose | tokentracker.go:79-83 | any sequence of standard updates, in any order and with repeats, succeeds and prices every model by the union of their lists |
| Standard.UpdatedPriceCompose | tokentracker.go:79-83 | updating by two groups in turn equals updating by their union |
| Standard.EnumerationRunsAll | provider.go:75-85 | an enumeration of the registry runs all three providers |
| Standard.StandardRegistrySize | provider.go:46-50 | three providers are registered |
| Standard.DistinctNamesCover | provider.go:75-85 | three distinct names drawn from a set of three cover it |
| Standard.UpdateStandardPricing | tokentracker.go:75-90 | a full update never fails and prices every pair as the three update lists say, keeping the rest |
| Standard.OpusPriceTablesDisagree | sdkwrappers/anthropic.go:145-172 | after an update, the tracker prices Opus higher than the SDK adapter's list does |

## Left out

- Concurrency: the mutexes of the registry, configuration, cache and providers are omitted. Every operation is modelled as one atomic step.
- `Config.LoadFromFile` and `Config.SaveToFile`: they are file I/O.
  - A loaded file replaces the price table wholesale.
  - A provider loaded without a `Models` map would make `SetModelPricing` panic in Go; the model always has a map.
- `EnableAutomaticPricingUpdates`: the timer it starts is left out. Its callback only re-arms itself, so only the flag is modelled.
- `EnableUsageLogging`: opening the file is replaced by the parameter `openError`.
- Clocks: `Duration`, `Timestamp` and `StartTime` come from the wall clock, so the usage records omit them.
- `json.Marshal` and tiktoken: they are foreign code, so they are the parameters `Marshaller` and `OpenAI.Tokenizer`.
- SDK responses: typed responses and their reflection-read mocks are reduced to type name, identifiers and an optional usage block. A typed Anthropic message or OpenAI completion always has a value-struct usage, so an absent block reads as zeros.
- `GetClient`, `SetSDKClient` and `Close`: they hand over or release foreign SDK objects. `RegisterSDKClient` records which provider received the client.
- Numbers: prices are `real` rather than `float64`, so rounding is not modelled. JSON numbers are integral, so truncation of `float64` counts is not modelled.
- Go's `int` is unbounded here, so overflow of token arithmetic is not modelled.
- Text is one sequence of characters. Go counts runes for the heuristic estimates but bytes for `hashString`. Two long texts with the same 50-byte ends and byte length, but different rune counts, therefore share a cache entry in Go but not here.
- Shared configuration: the providers are assumed to hold the same configuration object as the tracker, as they do when the tracker and providers are built from one `NewConfig`.
- Direct cache writes: a caller of `SetCachedTokenCount` can store any count and break cache coherence. The coherence results assume the cache is written only by counting.
- `ErrPricingUpdateFailed`: it is used by the tracker but not defined in errors.go. The model names it "pricing_update_failed".
- Utils.HashChangesLongText: excludes length 107, because a 107-character text can be its own key (Utils.HashFixedPoint).
- TokenTracker.TrackUsage and TokenTracker.Charge: when several providers support the call's model, they state only that some supporter estimated, some supporter priced and some supporter is named, not that these are the same provider. Go looks the provider up separately each time, and map order may give a different one.
- Registry.GetForModel: Go's map iteration order is unspecified, so when several providers support a model the choice among them is left open.
- ProviderKit.CountTokens: its own contract states only that a failure keeps the cache. What it computes is stated by ProviderKit.CountTokensCoherent against ProviderKit.IntendedCount.
