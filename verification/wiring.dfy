/** The three built-in providers registered with one tracker, as the
    library's users set it up: which provider answers for which model, how
    the shared token cache stays consistent, and what a pricing update of
    every provider leaves in the shared configuration. */
module Standard {
  import opened Wrappers
  import opened Models
  import Utils
  import Configuration
  import ProviderKit
  import Registry
  import TokenTracker
  import Claude
  import Gemini
  import OpenAI
  import SdkAnthropic

  /** The registry holding the Claude, Gemini and OpenAI providers. */
  function StandardRegistry(tk: OpenAI.Tokenizer, marshal: Marshaller): (r: Registry.Registry)
    ensures r.Keys == {Claude.Name, Gemini.Name, OpenAI.Name}
    ensures r[Claude.Name] == Claude.AsProvider(marshal)
    ensures r[Gemini.Name] == Gemini.AsProvider(marshal)
    ensures r[OpenAI.Name] == OpenAI.AsProvider(tk, marshal)
  {
    map[Claude.Name := Claude.AsProvider(marshal),
        Gemini.Name := Gemini.AsProvider(marshal),
        OpenAI.Name := OpenAI.AsProvider(tk, marshal)]
  }

  /** A tracker with the three providers registered. */
  function StandardTracker(config: Configuration.Config, cache: Utils.Cache,
                           tk: OpenAI.Tokenizer, marshal: Marshaller): (t: TokenTracker.Tracker)
    ensures t.registry == StandardRegistry(tk, marshal)
    ensures t.config == config && t.cache == cache
  {
    var t0 := TokenTracker.NewTokenTracker(config, cache);
    var t1 := TokenTracker.RegisterProvider(t0, Claude.AsProvider(marshal));
    var t2 := TokenTracker.RegisterProvider(t1, Gemini.AsProvider(marshal));
    TokenTracker.RegisterProvider(t2, OpenAI.AsProvider(tk, marshal))
  }

  // ---------------------------------------------------------------------------
  // Which provider answers for a model
  // ---------------------------------------------------------------------------

  /** The three providers support disjoint sets of models, so a supported
      model resolves to exactly one of them, whatever the map order. */
  lemma ResolvesByFamily(tk: OpenAI.Tokenizer, marshal: Marshaller, model: string)
    ensures Registry.Supported(StandardRegistry(tk, marshal), model) <==>
              Claude.SupportsModel(model) || Gemini.SupportsModel(model) || OpenAI.SupportsModel(model)
    ensures Claude.SupportsModel(model) ==>
              Registry.Resolve(StandardRegistry(tk, marshal), model) == Some(Claude.AsProvider(marshal))
    ensures Gemini.SupportsModel(model) ==>
              Registry.Resolve(StandardRegistry(tk, marshal), model) == Some(Gemini.AsProvider(marshal))
    ensures OpenAI.SupportsModel(model) ==>
              Registry.Resolve(StandardRegistry(tk, marshal), model) == Some(OpenAI.AsProvider(tk, marshal))
  {
    var r := StandardRegistry(tk, marshal);
    assert Claude.Name in r && Gemini.Name in r && OpenAI.Name in r;
    if Claude.SupportsModel(model) {
      assert Registry.SoleSupporter(r, model, Claude.Name);
    } else if Gemini.SupportsModel(model) {
      assert Registry.SoleSupporter(r, model, Gemini.Name);
    } else if OpenAI.SupportsModel(model) {
      assert Registry.SoleSupporter(r, model, OpenAI.Name);
    } else {
      assert !Registry.Supported(r, model);
    }
  }

  // ---------------------------------------------------------------------------
  // The shared token cache
  // ---------------------------------------------------------------------------

  /** Every entry of the shared cache that a heuristic provider files holds
      that provider's estimate for the text. */
  ghost predicate SharedCacheCoherent(cache: Utils.Cache)
  {
    Claude.CacheCoherent(cache) && Gemini.CacheCoherent(cache)
  }

  /** The cache nobody has written yet is coherent. */
  lemma EmptyCacheCoherent()
    ensures SharedCacheCoherent(map[])
  {
    forall t ensures Utils.GetCached(map[], Claude.Name, "", t).None? {
      Utils.EmptyCacheMisses(Claude.Name, "", t);
    }
    forall t ensures Utils.GetCached(map[], Gemini.Name, "", t).None? {
      Utils.EmptyCacheMisses(Gemini.Name, "", t);
    }
  }

  /** The two heuristic providers file their cache entries under distinct
      colon-free names. */
  lemma NamesColonFree()
    ensures Utils.ColonFree(Claude.Heuristic().cacheName) && Utils.ColonFree(Gemini.Heuristic().cacheName)
    ensures Claude.Heuristic().cacheName != Gemini.Heuristic().cacheName
  {
    assert Claude.Name[0] != Gemini.Name[0];
  }

  /** Counting with the Claude provider keeps the shared cache coherent
      and gives the intended count. */
  lemma ClaudeCounts(cache: Utils.Cache, params: TokenCountParams, marshal: Marshaller)
    requires SharedCacheCoherent(cache)
    ensures SharedCacheCoherent(Claude.CountTokens(cache, params, marshal).1)
    ensures Claude.CountTokens(cache, params, marshal).0 == ProviderKit.IntendedCount(Claude.Heuristic(), params, marshal)
  {
    NamesColonFree();
    ProviderKit.CountTokensCoherent(Claude.Heuristic(), cache, params, marshal);
    ProviderKit.CountTokensKeepsOthersCoherent(Claude.Heuristic(), Gemini.Heuristic(), cache, params, marshal);
  }

  /** Counting with the Gemini provider keeps the shared cache coherent
      and gives the intended count. */
  lemma GeminiCounts(cache: Utils.Cache, params: TokenCountParams, marshal: Marshaller)
    requires SharedCacheCoherent(cache)
    ensures SharedCacheCoherent(Gemini.CountTokens(cache, params, marshal).1)
    ensures Gemini.CountTokens(cache, params, marshal).0 == ProviderKit.IntendedCount(Gemini.Heuristic(), params, marshal)
  {
    NamesColonFree();
    ProviderKit.CountTokensCoherent(Gemini.Heuristic(), cache, params, marshal);
    ProviderKit.CountTokensKeepsOthersCoherent(Gemini.Heuristic(), Claude.Heuristic(), cache, params, marshal);
  }

  /** `CountTokens` through a tracker holding the three providers: with a
      coherent shared cache, a supported model is counted exactly as its
      provider intends, and the cache stays coherent. */
  method CountWithStandard(t: TokenTracker.Tracker, params: TokenCountParams,
                           tk: OpenAI.Tokenizer, marshal: Marshaller)
      returns (r: Result<TokenCount, Errors.Error>, t': TokenTracker.Tracker)
    requires t.registry == StandardRegistry(tk, marshal) && SharedCacheCoherent(t.cache)
    ensures SharedCacheCoherent(t'.cache) && t'.registry == t.registry && t'.config == t.config
    ensures params.model == "" ==> r == Fail(TokenTracker.ModelRequired())
    ensures params.model != "" && Claude.SupportsModel(params.model) ==>
              r == ProviderKit.IntendedCount(Claude.Heuristic(), params, marshal)
    ensures params.model != "" && Gemini.SupportsModel(params.model) ==>
              r == ProviderKit.IntendedCount(Gemini.Heuristic(), params, marshal)
    ensures params.model != "" && OpenAI.SupportsModel(params.model) ==>
              r == OpenAI.CountTokens(tk, params, marshal)
    ensures params.model != "" &&
            !(Claude.SupportsModel(params.model) || Gemini.SupportsModel(params.model) || OpenAI.SupportsModel(params.model)) ==>
              r == Fail(TokenTracker.NoProviderForModel(params.model))
  {
    r, t' := TokenTracker.CountTokens(t, params);
    ResolvesByFamily(tk, marshal, params.model);
    if params.model != "" {
      if Claude.SupportsModel(params.model) {
        ClaudeCounts(t.cache, params, marshal);
      } else if Gemini.SupportsModel(params.model) {
        GeminiCounts(t.cache, params, marshal);
      }
    }
  }

  // ---------------------------------------------------------------------------
  // Updating every provider's prices
  // ---------------------------------------------------------------------------

  /** The prices each provider's update writes, by provider and model. */
  function Writes(provider: string, model: string): (w: Option<ModelPricing>)
    ensures provider == Claude.Name ==> (w.Some? <==> Claude.SupportsModel(model))
    ensures provider == Gemini.Name ==> (w.Some? <==> Gemini.SupportsModel(model))
    ensures provider == OpenAI.Name ==> (w.Some? <==> model in {"gpt-3.5-turbo", "gpt-4", "gpt-4-turbo"})
    ensures provider !in {Claude.Name, Gemini.Name, OpenAI.Name} ==> w.None?
  {
    if provider == Claude.Name then
      if model == "claude-3-haiku" then Some(Claude.HaikuPrice())
      else if model == "claude-3-sonnet" then Some(Claude.SonnetPrice())
      else if model == "claude-3-opus" then Some(Claude.OpusPrice())
      else None
    else if provider == Gemini.Name then
      if model == "gemini-pro" then Some(Gemini.ProPrice())
      else if model == "gemini-ultra" then Some(Gemini.UltraPrice())
      else None
    else if provider == OpenAI.Name then
      if model == "gpt-3.5-turbo" then Some(OpenAI.Gpt35Price())
      else if model == "gpt-4" then Some(OpenAI.Gpt4Price())
      else if model == "gpt-4-turbo" then Some(OpenAI.Gpt4TurboPrice())
      else None
    else None
  }

  /** A model's price once the named providers have updated: what the
      update of its own provider writes, if that provider ran and writes
      it, otherwise the price before. */
  function UpdatedPrice(ran: set<string>, config: Configuration.Config, provider: string, model: string): Option<ModelPricing>
  {
    if provider in ran && Writes(provider, model).Some? then Writes(provider, model)
    else Configuration.GetModelPricing(config, provider, model)
  }

  /** The providers a sequence runs, by name. */
  function Names(ps: seq<Registry.Provider>): set<string>
  {
    set i | 0 <= i < |ps| :: ps[i].name
  }

  /** One provider's update writes its own prices, keeps every other price,
      and never fails. */
  lemma UpdateStep(tk: OpenAI.Tokenizer, marshal: Marshaller, q: Registry.Provider,
                   config: Configuration.Config, provider: string, model: string)
    requires q in StandardRegistry(tk, marshal).Values
    ensures q.updatePricing(config).1.None?
    ensures Configuration.GetModelPricing(q.updatePricing(config).0, provider, model)
         == UpdatedPrice({q.name}, config, provider, model)
  {
    StandardMember(tk, marshal, q);
    if q == Claude.AsProvider(marshal) {
      ClaudeUpdateStep(config, provider, model);
    } else if q == Gemini.AsProvider(marshal) {
      GeminiUpdateStep(config, provider, model);
    } else {
      OpenAIUpdateStep(config, provider, model);
    }
  }

  /** The standard registry holds the three providers and nothing else. */
  lemma StandardMember(tk: OpenAI.Tokenizer, marshal: Marshaller, q: Registry.Provider)
    requires q in StandardRegistry(tk, marshal).Values
    ensures q == Claude.AsProvider(marshal) || q == Gemini.AsProvider(marshal) || q == OpenAI.AsProvider(tk, marshal)
  {
    var r := StandardRegistry(tk, marshal);
    var n :| n in r && r[n] == q;
  }

  /** The Claude update prices as its list of writes says. */
  lemma ClaudeUpdateStep(config: Configuration.Config, provider: string, model: string)
    ensures Configuration.GetModelPricing(Claude.UpdatePricing(config).0, provider, model)
         == UpdatedPrice({Claude.Name}, config, provider, model)
  {
  }

  /** The Gemini update prices as its list of writes says. */
  lemma GeminiUpdateStep(config: Configuration.Config, provider: string, model: string)
    ensures Configuration.GetModelPricing(Gemini.UpdatePricing(config).0, provider, model)
         == UpdatedPrice({Gemini.Name}, config, provider, model)
  {
  }

  /** The OpenAI update prices as its list of writes says. */
  lemma OpenAIUpdateStep(config: Configuration.Config, provider: string, model: string)
    ensures Configuration.GetModelPricing(OpenAI.UpdatePricing(config).0, provider, model)
         == UpdatedPrice({OpenAI.Name}, config, provider, model)
  {
  }

  /** Running the updates of standard providers in any order, repeats
      included, reports no error and leaves each model at the price its
      provider's update writes, or at its earlier price. */
  lemma {:induction false} UpdatesCompose(tk: OpenAI.Tokenizer, marshal: Marshaller, ps: seq<Registry.Provider>,
                                          config: Configuration.Config, provider: string, model: string)
    requires forall i :: 0 <= i < |ps| ==> ps[i] in StandardRegistry(tk, marshal).Values
    ensures TokenTracker.UpdateInOrder(ps, config).1.None?
    ensures Configuration.GetModelPricing(TokenTracker.UpdateInOrder(ps, config).0, provider, model)
         == UpdatedPrice(Names(ps), config, provider, model)
    decreases |ps|
  {
    if |ps| > 0 {
      var step := ps[0].updatePricing(config);
      UpdateStep(tk, marshal, ps[0], config, provider, model);
      UpdatesCompose(tk, marshal, ps[1..], step.0, provider, model);
      assert TokenTracker.UpdateInOrder(ps, config).0 == TokenTracker.UpdateInOrder(ps[1..], step.0).0;
      NamesCons(ps);
      UpdatedPriceCompose({ps[0].name}, Names(ps[1..]), config, step.0, provider, model);
    }
  }

  /** The names of a non-empty sequence: the first name and those of the rest. */
  lemma NamesCons(ps: seq<Registry.Provider>)
    requires |ps| > 0
    ensures Names(ps) == {ps[0].name} + Names(ps[1..])
  {
    forall x | x in Names(ps) ensures x in {ps[0].name} + Names(ps[1..]) {
      var i :| 0 <= i < |ps| && ps[i].name == x;
      if i > 0 { assert ps[1..][i - 1].name == x; }
    }
    forall x | x in Names(ps[1..]) ensures x in Names(ps) {
      var i :| 0 <= i < |ps[1..]| && ps[1..][i].name == x;
      assert ps[i + 1].name == x;
    }
  }

  /** Updates by the providers of `first` and then of `later` price like
      one round by both. */
  lemma UpdatedPriceCompose(first: set<string>, later: set<string>, config: Configuration.Config,
                            config': Configuration.Config, provider: string, model: string)
    requires Configuration.GetModelPricing(config', provider, model) == UpdatedPrice(first, config, provider, model)
    ensures UpdatedPrice(later, config', provider, model) == UpdatedPrice(first + later, config, provider, model)
  {
  }

  /** An enumeration of the standard registry runs all three providers. */
  lemma EnumerationRunsAll(tk: OpenAI.Tokenizer, marshal: Marshaller, ps: seq<Registry.Provider>)
    requires Registry.Enumerates(StandardRegistry(tk, marshal), ps)
    ensures forall i :: 0 <= i < |ps| ==> ps[i] in StandardRegistry(tk, marshal).Values
    ensures Names(ps) == {Claude.Name, Gemini.Name, OpenAI.Name}
  {
    var r := StandardRegistry(tk, marshal);
    forall i | 0 <= i < |ps| ensures ps[i] in r.Values {
      assert r[ps[i].name] == ps[i];
    }
    StandardRegistrySize(tk, marshal);
    DistinctNamesCover(ps, r.Keys);
  }

  /** The standard registry holds three providers. */
  lemma StandardRegistrySize(tk: OpenAI.Tokenizer, marshal: Marshaller)
    ensures |StandardRegistry(tk, marshal)| == 3
  {
    var keys := StandardRegistry(tk, marshal).Keys;
    assert keys == {Claude.Name, Gemini.Name, OpenAI.Name};
    assert |{Claude.Name, Gemini.Name, OpenAI.Name}| == 3 by {
      assert Claude.Name[0] == 'a' && Gemini.Name[0] == 'g' && OpenAI.Name[0] == 'o';
    }
  }

  /** Three distinct names drawn from a set of three cover it. */
  lemma DistinctNamesCover(ps: seq<Registry.Provider>, keys: set<string>)
    requires |ps| == |keys| == 3
    requires forall i :: 0 <= i < |ps| ==> ps[i].name in keys
    requires forall i, j :: 0 <= i < j < |ps| ==> ps[i].name != ps[j].name
    ensures Names(ps) == keys
  {
    var found := {ps[0].name, ps[1].name, ps[2].name};
    assert Names(ps) == found;
    assert |found| == 3;
    assert keys == found + (keys - found);
    assert |keys - found| == 0;
    assert keys - found == {};
  }

  /** `UpdateAllPricing` through a tracker holding the three providers:
      whatever order the map yields, it reports no error and leaves every
      model at the price its provider's update writes, or at its earlier
      price. */
  method UpdateStandardPricing(t: TokenTracker.Tracker, tk: OpenAI.Tokenizer, marshal: Marshaller)
      returns (err: Option<Errors.Error>, t': TokenTracker.Tracker)
    requires t.registry == StandardRegistry(tk, marshal)
    ensures err.None? && t'.registry == t.registry && t'.cache == t.cache
    ensures forall p, m :: Configuration.GetModelPricing(t'.config, p, m)
                        == UpdatedPrice({Claude.Name, Gemini.Name, OpenAI.Name}, t.config, p, m)
  {
    err, t' := TokenTracker.UpdateAllPricing(t);
    ghost var ps :| Registry.Enumerates(t.registry, ps) &&
                    t'.config == TokenTracker.UpdateInOrder(ps, t.config).0 &&
                    err == (if TokenTracker.UpdateInOrder(ps, t.config).1.Some?
                            then Some(TokenTracker.PricingUpdateFailed(TokenTracker.UpdateInOrder(ps, t.config).1.value))
                            else None);
    EnumerationRunsAll(tk, marshal, ps);
    forall p, m ensures Configuration.GetModelPricing(t'.config, p, m)
                     == UpdatedPrice({Claude.Name, Gemini.Name, OpenAI.Name}, t.config, p, m) {
      UpdatesCompose(tk, marshal, ps, t.config, p, m);
    }
    UpdatesCompose(tk, marshal, ps, t.config, "", "");
  }

  /** After a full update the tracker prices Claude 3 Opus above the
      Anthropic SDK adapter's own price list, so the two disagree on what
      an Opus call costs. */
  lemma OpusPriceTablesDisagree(config: Configuration.Config)
    ensures UpdatedPrice({Claude.Name, Gemini.Name, OpenAI.Name}, config, Claude.Name, "claude-3-opus") == Some(Claude.OpusPrice())
    ensures "claude-3-opus" in SdkAnthropic.Pricing()
    ensures SdkAnthropic.Pricing()["claude-3-opus"].inputPricePerToken < Claude.OpusPrice().inputPricePerToken
    ensures SdkAnthropic.Pricing()["claude-3-opus"].outputPricePerToken < Claude.OpusPrice().outputPricePerToken
  {
  }
}
