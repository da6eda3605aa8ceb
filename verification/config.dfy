/** The tracker's configuration (config.go): a price table keyed by
    provider and model, plus the automatic-update and usage-log switches.
    The lock, the timer and the file system are outside the model. */
module Configuration {
  import opened Wrappers
  import opened Errors
  import opened Models

  /** Provider name to model name to pricing. */
  type Table = map<string, map<string, ModelPricing>>

  datatype Config = Config(
    providers: Table,
    autoUpdatePricing: bool,
    usageLogEnabled: bool,
    usageLogPath: string)

  /** The (provider, model) pairs that have a price. */
  ghost function Priced(c: Config): set<(string, string)>
  {
    set p, m | p in c.providers && m in c.providers[p] :: (p, m)
  }

  /** The pairs the default configuration prices. */
  ghost function DefaultPairs(): set<(string, string)>
  {
    {("openai", "gpt-3.5-turbo"), ("openai", "gpt-4"),
     ("anthropic", "claude-3-haiku"), ("anthropic", "claude-3-sonnet"), ("anthropic", "claude-3-opus"),
     ("gemini", "gemini-pro"), ("gemini", "gemini-ultra")}
  }

  /** A pricing record a caller could be billed by: positive prices, output
      at least as dear as input, in US dollars. */
  predicate Plausible(p: ModelPricing)
  {
    0.0 < p.inputPricePerToken <= p.outputPricePerToken && p.currency == "USD"
  }

  function Usd(input: real, output: real): ModelPricing
  {
    ModelPricing(input, output, "USD")
  }

  /** `NewConfig`: seven models of three providers priced in US dollars,
      automatic updates and usage logging switched off. */
  function NewConfig(): (c: Config)
    ensures Priced(c) == DefaultPairs()
    ensures forall p, m :: p in c.providers && m in c.providers[p] ==> Plausible(c.providers[p][m])
    ensures !c.autoUpdatePricing && !c.usageLogEnabled && c.usageLogPath == ""
  {
    var c := Config(
      map[
        "openai" := map[
          "gpt-3.5-turbo" := Usd(0.0000015, 0.000002),
          "gpt-4" := Usd(0.00003, 0.00006)],
        "anthropic" := map[
          "claude-3-haiku" := Usd(0.00000025, 0.00000125),
          "claude-3-sonnet" := Usd(0.000003, 0.000015),
          "claude-3-opus" := Usd(0.00001, 0.00003)],
        "gemini" := map[
          "gemini-pro" := Usd(0.00000025, 0.0000005),
          "gemini-ultra" := Usd(0.00001, 0.00003)]],
      false, false, "");
    assert Priced(c) == DefaultPairs() by {
      forall pm | pm in DefaultPairs() ensures pm in Priced(c) {
        assert pm.0 in c.providers && pm.1 in c.providers[pm.0];
      }
    }
    c
  }

  /** `GetModelPricing`: the price of a model under a provider, absent when
      either the provider or the model is unknown. */
  function GetModelPricing(c: Config, provider: string, model: string): (r: Option<ModelPricing>)
    ensures r.Some? <==> (provider, model) in Priced(c)
    ensures r.Some? ==> r.value == c.providers[provider][model]
  {
    if provider !in c.providers then None
    else if model !in c.providers[provider] then None
    else Some(c.providers[provider][model])
  }

  /** `SetModelPricing`: prices one model, adding its provider when it is new. */
  function SetModelPricing(c: Config, provider: string, model: string, pricing: ModelPricing): (c': Config)
    ensures GetModelPricing(c', provider, model) == Some(pricing)
    ensures forall p, m :: (p, m) != (provider, model) ==> GetModelPricing(c', p, m) == GetModelPricing(c, p, m)
    ensures Priced(c') == Priced(c) + {(provider, model)}
    ensures c'.autoUpdatePricing == c.autoUpdatePricing && c'.usageLogEnabled == c.usageLogEnabled
    ensures c'.usageLogPath == c.usageLogPath
  {
    var models := if provider in c.providers then c.providers[provider] else map[];
    var c' := c.(providers := c.providers[provider := models[model := pricing]]);
    assert Priced(c') == Priced(c) + {(provider, model)} by {
      forall pm | pm in Priced(c') ensures pm in Priced(c) + {(provider, model)} {
        assert pm.0 in c'.providers && pm.1 in c'.providers[pm.0];
        if pm != (provider, model) {
          assert pm.0 in c.providers && pm.1 in c.providers[pm.0];
        }
      }
      forall pm | pm in Priced(c) ensures pm in Priced(c') {
        assert pm.0 in c'.providers && pm.1 in c'.providers[pm.0];
      }
    }
    c'
  }

  /** Pricing the same model twice keeps only the second price. */
  lemma SetModelPricingLastWins(c: Config, provider: string, model: string, a: ModelPricing, b: ModelPricing)
    ensures SetModelPricing(SetModelPricing(c, provider, model, a), provider, model, b)
         == SetModelPricing(c, provider, model, b)
  {
    var left := SetModelPricing(SetModelPricing(c, provider, model, a), provider, model, b);
    var right := SetModelPricing(c, provider, model, b);
    assert left.providers[provider] == right.providers[provider];
    assert left.providers == right.providers;
  }

  /** Pricing two different models gives the same table in either order. */
  lemma SetModelPricingCommutes(c: Config, p1: string, m1: string, a: ModelPricing,
                                p2: string, m2: string, b: ModelPricing)
    requires (p1, m1) != (p2, m2)
    ensures SetModelPricing(SetModelPricing(c, p1, m1, a), p2, m2, b)
         == SetModelPricing(SetModelPricing(c, p2, m2, b), p1, m1, a)
  {
    var left := SetModelPricing(SetModelPricing(c, p1, m1, a), p2, m2, b);
    var right := SetModelPricing(SetModelPricing(c, p2, m2, b), p1, m1, a);
    forall p | p in left.providers ensures p in right.providers && left.providers[p] == right.providers[p] {
      assert p in right.providers;
    }
    assert left.providers.Keys == right.providers.Keys;
    assert left.providers == right.providers;
  }

  /** Every pair the default configuration prices is found, and only those. */
  lemma DefaultPricingFound(provider: string, model: string)
    ensures GetModelPricing(NewConfig(), provider, model).Some? <==> (provider, model) in DefaultPairs()
    ensures GetModelPricing(NewConfig(), provider, model).Some? ==>
              Plausible(GetModelPricing(NewConfig(), provider, model).value)
  {
  }

  /** `EnableAutomaticPricingUpdates`: switches automatic updates on; the
      prices are untouched (the timer it arms does nothing to them). */
  function EnableAutomaticPricingUpdates(c: Config): (c': Config)
    ensures c'.autoUpdatePricing
    ensures c'.providers == c.providers && c'.usageLogEnabled == c.usageLogEnabled
    ensures c'.usageLogPath == c.usageLogPath
  {
    c.(autoUpdatePricing := true)
  }

  /** `DisableAutomaticPricingUpdates`: switches automatic updates off. */
  function DisableAutomaticPricingUpdates(c: Config): (c': Config)
    ensures !c'.autoUpdatePricing
    ensures c'.providers == c.providers && c'.usageLogEnabled == c.usageLogEnabled
    ensures c'.usageLogPath == c.usageLogPath
  {
    c.(autoUpdatePricing := false)
  }

  /** `EnableUsageLogging`: `openError` is the outcome of opening `path` for
      appending. On failure the error is returned and nothing changes; on
      success logging is on and the path recorded. */
  function EnableUsageLogging(c: Config, path: string, openError: Option<Error>): (r: (Config, Option<Error>))
    ensures r.1 == openError
    ensures openError.Some? ==> r.0 == c
    ensures openError.None? ==> r.0.usageLogEnabled && GetUsageLogPath(r.0) == path
    ensures r.0.providers == c.providers && r.0.autoUpdatePricing == c.autoUpdatePricing
  {
    if openError.Some? then (c, openError) else (c.(usageLogEnabled := true, usageLogPath := path), None)
  }

  /** `DisableUsageLogging`: switches logging off but keeps the recorded path. */
  function DisableUsageLogging(c: Config): (c': Config)
    ensures !c'.usageLogEnabled
    ensures GetUsageLogPath(c') == GetUsageLogPath(c)
    ensures c'.providers == c.providers && c'.autoUpdatePricing == c.autoUpdatePricing
  {
    c.(usageLogEnabled := false)
  }

  function GetUsageLogPath(c: Config): string
  {
    c.usageLogPath
  }

  /** Switching logging off and on again with a path that opens leaves the
      configuration as a single successful enable would. */
  lemma UsageLoggingReenable(c: Config, path: string)
    ensures EnableUsageLogging(DisableUsageLogging(c), path, None).0 == EnableUsageLogging(c, path, None).0
  {
  }
}
