/** The token tracker (tokentracker.go): it routes counting and pricing to
    the provider that supports the model, combines both into the usage of a
    call, and fans pricing updates out to every provider.

    The tracker's state is its registry, the price configuration its
    providers share and the process-wide token cache. */
module TokenTracker {
  import opened Wrappers
  import opened Errors
  import opened Models
  import Json
  import Configuration
  import Utils
  import opened Registry
  import SdkKit

  datatype Tracker = Tracker(registry: Registry, config: Configuration.Config, cache: Utils.Cache)

  function ModelRequired(): Error
  {
    NewError(InvalidParams, "model is required", None)
  }

  function NoProviderForModel(model: string): Error
  {
    NewError(ProviderNotFound, "no provider found for model: " + model, None)
  }

  function NoProviderNamed(name: string): Error
  {
    NewError(ProviderNotFound, "no provider found with name: " + name, None)
  }

  /** `NewTokenTracker`: no providers yet, the given configuration, and the
      cache as it stands. */
  function NewTokenTracker(config: Configuration.Config, cache: Utils.Cache): (t: Tracker)
    ensures forall n :: Get(t.registry, n).None?
    ensures t.config == config && t.cache == cache
  {
    Tracker.Tracker(NewRegistry(), config, cache)
  }

  /** `RegisterProvider`. */
  function RegisterProvider(t: Tracker, p: Provider): (t': Tracker)
    ensures Get(t'.registry, p.name) == Some(p)
    ensures forall n :: n != p.name ==> Get(t'.registry, n) == Get(t.registry, n)
    ensures t'.config == t.config && t'.cache == t.cache
  {
    t.(registry := Register(t.registry, p))
  }

  /** `CountTokens`: a model is required, some provider must support it,
      and that provider counts. The cache is the counting provider's to
      update. */
  method CountTokens(t: Tracker, params: TokenCountParams) returns (r: Result<TokenCount, Error>, t': Tracker)
    ensures t'.registry == t.registry && t'.config == t.config
    ensures params.model == "" ==> r == Fail(ModelRequired()) && t' == t
    ensures params.model != "" && !Supported(t.registry, params.model) ==>
              r == Fail(NoProviderForModel(params.model)) && t' == t
    ensures params.model != "" && Supported(t.registry, params.model) ==>
              exists n :: n in t.registry && t.registry[n].supportsModel(params.model) &&
                          (r, t'.cache) == t.registry[n].countTokens(t.cache, params)
    ensures params.model != "" && Resolve(t.registry, params.model).Some? ==>
              (r, t'.cache) == Resolve(t.registry, params.model).value.countTokens(t.cache, params)
  {
    if params.model == "" {
      return Fail(ModelRequired()), t;
    }
    var found := GetForModel(t.registry, params.model);
    if found.None? {
      return Fail(NoProviderForModel(params.model)), t;
    }
    var counted := found.value.countTokens(t.cache, params);
    r, t' := counted.0, t.(cache := counted.1);
  }

  /** `CalculatePrice`: a model is required, some provider must support it,
      and that provider prices the tokens from the shared configuration. */
  method CalculatePrice(t: Tracker, model: string, inputTokens: int, outputTokens: int) returns (r: Result<Price, Error>)
    ensures model == "" ==> r == Fail(ModelRequired())
    ensures model != "" && !Supported(t.registry, model) ==> r == Fail(NoProviderForModel(model))
    ensures model != "" && Supported(t.registry, model) ==>
              exists n :: n in t.registry && t.registry[n].supportsModel(model) &&
                          r == t.registry[n].calculatePrice(t.config, model, inputTokens, outputTokens)
    ensures model != "" && Resolve(t.registry, model).Some? ==>
              r == Resolve(t.registry, model).value.calculatePrice(t.config, model, inputTokens, outputTokens)
  {
    if model == "" {
      return Fail(ModelRequired());
    }
    var found := GetForModel(t.registry, model);
    if found.None? {
      return Fail(NoProviderForModel(model));
    }
    r := found.value.calculatePrice(t.config, model, inputTokens, outputTokens);
  }

  /** The response tokens a call is charged for: what the response reports
      through `GetTokenCount`, else the estimate of a provider supporting
      the call's model when it can count, else zero. */
  function ResponseTokens(estimator: Option<Provider>, cache: Utils.Cache, call: CallParams, response: Json.Value): (r: (int, Utils.Cache))
    ensures response.WithTokenCount? ==> r == (response.tokenCount, cache)
    ensures !response.WithTokenCount? && estimator.None? ==> r == (0, cache)
    ensures !response.WithTokenCount? && estimator.Some? ==>
              var est := estimator.value.countTokens(cache, call.params.(countResponseTokens := true));
              r == (if est.0.Ok? then est.0.value.responseTokens else 0, est.1)
  {
    if response.WithTokenCount? then (response.tokenCount, cache)
    else if estimator.None? then (0, cache)
    else
      var est := estimator.value.countTokens(cache, call.params.(countResponseTokens := true));
      (if est.0.Ok? then est.0.value.responseTokens else 0, est.1)
  }

  /** The second half of `TrackUsage` once the input is counted and
      `pricer` supports the call's model: charge the response tokens,
      price both and report them under the pricing provider. */
  function ChargeWith(pricer: Provider, t: Tracker, call: CallParams, response: Json.Value, input: TokenCount): (r: (Result<UsageMetrics, Error>, Utils.Cache))
  {
    var (output, cache) := ResponseTokens(Some(pricer), t.cache, call, response);
    match pricer.calculatePrice(t.config, call.model, input.inputTokens, output)
    case Fail(e) => (Fail(e), cache)
    case Ok(price) => (Ok(UsageMetrics(CountOf(input.inputTokens, output), price, call.model, pricer.name)), cache)
  }

  /** `TrackUsage` when the counting model resolves to `counter` and the
      call's model to `pricer`. */
  function UsageWith(counter: Provider, pricer: Provider, t: Tracker, call: CallParams, response: Json.Value): (r: (Result<UsageMetrics, Error>, Utils.Cache))
  {
    var (input, cache) := counter.countTokens(t.cache, call.params);
    if input.Fail? then (Fail(input.error), cache)
    else ChargeWith(pricer, t.(cache := cache), call, response, input.value)
  }

  /** How a call's usage follows from counting its input: a failed count
      is returned as is; a successful one still needs the call's model and
      a provider supporting it, and a usage carries the counted input. */
  ghost predicate FollowsCount(input: Result<TokenCount, Error>, registry: Registry, call: CallParams,
                               r: Result<UsageMetrics, Error>)
  {
    (input.Fail? ==> r == Fail(input.error)) &&
    (input.Ok? && call.model == "" ==> r == Fail(ModelRequired())) &&
    (input.Ok? && call.model != "" && !Supported(registry, call.model) ==> r == Fail(NoProviderForModel(call.model))) &&
    (input.Ok? && r.Ok? ==> r.value.tokenCount.inputTokens == input.value.inputTokens)
  }

  /** The part of `TrackUsage` after the input is counted: the response
      tokens are the response's own count or a supporting provider's
      estimate, the call's model is required and priced by a provider
      supporting it, and the usage names such a provider. */
  method Charge(t: Tracker, call: CallParams, response: Json.Value, input: TokenCount) returns (r: Result<UsageMetrics, Error>, t': Tracker)
    ensures t'.registry == t.registry && t'.config == t.config
    ensures call.model == "" ==> r == Fail(ModelRequired())
    ensures call.model != "" && !Supported(t.registry, call.model) ==> r == Fail(NoProviderForModel(call.model))
    ensures r.Ok? ==> call.model != "" && Supported(t.registry, call.model)
    ensures r.Ok? ==> r.value.tokenCount.inputTokens == input.inputTokens && Balanced(r.value.tokenCount)
    ensures r.Ok? ==> r.value.model == call.model
    ensures r.Ok? ==> r.value.provider in t.registry && t.registry[r.value.provider].supportsModel(call.model)
    ensures r.Ok? && response.WithTokenCount? ==> r.value.tokenCount.responseTokens == response.tokenCount
    ensures r.Ok? ==> exists n :: n in t.registry && t.registry[n].supportsModel(call.model) &&
                                  t.registry[n].calculatePrice(t.config, call.model, r.value.tokenCount.inputTokens,
                                                               r.value.tokenCount.responseTokens) == Ok(r.value.price)
    ensures r.Ok? && !response.WithTokenCount? ==>
              exists n :: n in t.registry && t.registry[n].supportsModel(call.model) &&
                          (r.value.tokenCount.responseTokens, t'.cache) == ResponseTokens(Some(t.registry[n]), t.cache, call, response)
    ensures call.model != "" && Resolve(t.registry, call.model).Some? ==>
              (r, t'.cache) == ChargeWith(Resolve(t.registry, call.model).value, t, call, response, input)
  {
    var estimator := None;
    if !response.WithTokenCount? {
      estimator := GetForModel(t.registry, call.model);
      if estimator.Some? {
        assert estimator.value == t.registry[estimator.value.name];
      }
    }
    var charged := ResponseTokens(estimator, t.cache, call, response);
    var output := charged.0;
    var t1 := t.(cache := charged.1);
    var price := CalculatePrice(t1, call.model, input.inputTokens, output);
    if price.Fail? {
      return Fail(price.error), t1;
    }
    var named := GetForModel(t.registry, call.model);
    var providerName := if named.Some? then named.value.name else "";
    r := Ok(UsageMetrics(CountOf(input.inputTokens, output), price.value, call.model, providerName));
    t' := t1;
  }

  /** `TrackUsage`: counts the input tokens of the call's parameters,
      charges the response tokens, prices both under the call's model and
      names a provider supporting that model. A failure to count or to
      price is returned as is; a failure to estimate counts as zero. */
  method TrackUsage(t: Tracker, call: CallParams, response: Json.Value) returns (r: Result<UsageMetrics, Error>, t': Tracker)
    ensures t'.registry == t.registry && t'.config == t.config
    ensures call.params.model == "" ==> r == Fail(ModelRequired()) && t' == t
    ensures call.params.model != "" && !Supported(t.registry, call.params.model) ==>
              r == Fail(NoProviderForModel(call.params.model)) && t' == t
    ensures r.Ok? ==> call.model != "" && Supported(t.registry, call.model)
    ensures r.Ok? ==> Balanced(r.value.tokenCount) && r.value.model == call.model
    ensures r.Ok? ==> r.value.provider in t.registry && t.registry[r.value.provider].supportsModel(call.model)
    ensures r.Ok? && response.WithTokenCount? ==> r.value.tokenCount.responseTokens == response.tokenCount
    ensures r.Ok? ==> exists n :: n in t.registry && t.registry[n].supportsModel(call.model) &&
                                  t.registry[n].calculatePrice(t.config, call.model, r.value.tokenCount.inputTokens,
                                                               r.value.tokenCount.responseTokens) == Ok(r.value.price)
    ensures call.params.model != "" && Supported(t.registry, call.params.model) ==>
              exists n :: n in t.registry && t.registry[n].supportsModel(call.params.model) &&
                          FollowsCount(t.registry[n].countTokens(t.cache, call.params).0, t.registry, call, r)
    ensures r.Ok? && !response.WithTokenCount? ==>
              exists c, n :: c in t.registry && t.registry[c].supportsModel(call.params.model) &&
                             n in t.registry && t.registry[n].supportsModel(call.model) &&
                             (r.value.tokenCount.responseTokens, t'.cache) ==
                             ResponseTokens(Some(t.registry[n]), t.registry[c].countTokens(t.cache, call.params).1, call, response)
    ensures call.params.model != "" && Resolve(t.registry, call.params.model).Some? ==>
              var counted := Resolve(t.registry, call.params.model).value.countTokens(t.cache, call.params);
              FollowsCount(counted.0, t.registry, call, r) && (counted.0.Fail? ==> t'.cache == counted.1)
    ensures call.params.model != "" && Resolve(t.registry, call.params.model).Some? &&
            call.model != "" && Resolve(t.registry, call.model).Some? ==>
              (r, t'.cache) == UsageWith(Resolve(t.registry, call.params.model).value,
                                         Resolve(t.registry, call.model).value, t, call, response)
  {
    var input, t1 := CountTokens(t, call.params);
    if input.Fail? {
      r, t' := Fail(input.error), t1;
    } else {
      r, t' := Charge(t1, call, response, input.value);
    }
    if call.params.model != "" && Supported(t.registry, call.params.model) {
      ghost var c :| c in t.registry && t.registry[c].supportsModel(call.params.model) &&
                     (input, t1.cache) == t.registry[c].countTokens(t.cache, call.params);
      assert FollowsCount(t.registry[c].countTokens(t.cache, call.params).0, t.registry, call, r);
      if r.Ok? && !response.WithTokenCount? {
        ghost var n :| n in t.registry && t.registry[n].supportsModel(call.model) &&
                       (r.value.tokenCount.responseTokens, t'.cache) == ResponseTokens(Some(t.registry[n]), t1.cache, call, response);
        assert t.registry[c].countTokens(t.cache, call.params).1 == t1.cache;
      }
    }
  }

  /** The outcome of running pricing updates in the given order: the final
      configuration and the error of the last provider that failed. */
  function UpdateInOrder(ps: seq<Provider>, config: Configuration.Config): (r: (Configuration.Config, Option<Error>))
    ensures |ps| == 0 ==> r == (config, None)
    decreases |ps|
  {
    if |ps| == 0 then (config, None)
    else
      var (config', err) := ps[0].updatePricing(config);
      var (final, rest) := UpdateInOrder(ps[1..], config');
      (final, if rest.Some? then rest else err)
  }

  /** The error the `i`-th update reports when the updates run in order. */
  ghost function Outcome(ps: seq<Provider>, config: Configuration.Config, i: nat): Option<Error>
    requires i < |ps|
    decreases i
  {
    if i == 0 then ps[0].updatePricing(config).1
    else Outcome(ps[1..], ps[0].updatePricing(config).0, i - 1)
  }

  /** No update after the `i`-th fails. */
  ghost predicate NoFailureAfter(ps: seq<Provider>, config: Configuration.Config, i: int)
  {
    forall j :: 0 <= j && i < j < |ps| ==> Outcome(ps, config, j).None?
  }

  /** The fold reports the error of the last update that failed, and none
      exactly when every update succeeded. */
  lemma {:induction false} UpdateReportsLastFailure(ps: seq<Provider>, config: Configuration.Config)
    ensures UpdateInOrder(ps, config).1.None? <==> NoFailureAfter(ps, config, -1)
    ensures UpdateInOrder(ps, config).1.Some? ==>
              exists i :: 0 <= i < |ps| && Outcome(ps, config, i) == UpdateInOrder(ps, config).1 &&
                          NoFailureAfter(ps, config, i)
    decreases |ps|
  {
    if |ps| > 0 {
      var (config', first) := ps[0].updatePricing(config);
      var tail := ps[1..];
      UpdateReportsLastFailure(tail, config');
      var rest := UpdateInOrder(tail, config').1;
      assert UpdateInOrder(ps, config).1 == if rest.Some? then rest else first;
      assert Outcome(ps, config, 0) == first;
      forall i | 0 < i < |ps| ensures Outcome(ps, config, i) == Outcome(tail, config', i - 1) {
      }
      if rest.Some? {
        var k :| 0 <= k < |tail| && Outcome(tail, config', k) == rest && NoFailureAfter(tail, config', k);
        assert Outcome(ps, config, k + 1) == rest;
        forall j | k + 1 < j < |ps| ensures Outcome(ps, config, j).None? {
          assert Outcome(tail, config', j - 1).None?;
        }
        assert NoFailureAfter(ps, config, k + 1);
      } else {
        forall j | 0 < j < |ps| ensures Outcome(ps, config, j).None? {
          assert Outcome(tail, config', j - 1).None?;
        }
        if first.Some? {
          assert NoFailureAfter(ps, config, 0);
        }
      }
    }
  }

  function PricingUpdateFailed(cause: Error): Error
  {
    NewError(Kind.PricingUpdateFailed, "failed to update pricing for one or more providers", Some(cause))
  }

  /** `UpdateAllPricing`: every registered provider updates its prices once,
      in an unspecified order; if any fails, the last failure is wrapped. */
  method UpdateAllPricing(t: Tracker) returns (err: Option<Error>, t': Tracker)
    ensures t'.registry == t.registry && t'.cache == t.cache
    ensures exists ps :: Enumerates(t.registry, ps) &&
              t'.config == UpdateInOrder(ps, t.config).0 &&
              err == (if UpdateInOrder(ps, t.config).1.Some? then Some(PricingUpdateFailed(UpdateInOrder(ps, t.config).1.value)) else None)
  {
    var ps := All(t.registry);
    var config := t.config;
    var last: Option<Error> := None;
    var i := 0;
    while i < |ps|
      invariant 0 <= i <= |ps|
      invariant UpdateInOrder(ps, t.config) == (UpdateInOrder(ps[i..], config).0,
                  if UpdateInOrder(ps[i..], config).1.Some? then UpdateInOrder(ps[i..], config).1 else last)
    {
      var step := ps[i].updatePricing(config);
      if step.1.Some? {
        last := step.1;
      }
      assert ps[i..][0] == ps[i] && ps[i..][1..] == ps[i + 1..];
      config := step.0;
      i := i + 1;
    }
    assert ps[|ps|..] == [];
    err := if last.Some? then Some(PricingUpdateFailed(last.value)) else None;
    t' := t.(config := config);
  }

  /** What registering an SDK client did: the provider that received the
      client, if one was found, and the error returned. */
  datatype Registration = Registration(clientSetOn: Option<string>, error: Option<Error>)

  /** `RegisterSDKClient`: hands the client to the provider of the same
      name and asks the client to update its pricing. */
  function RegisterSDKClient(t: Tracker, client: SdkKit.Client): (r: Registration)
    ensures r.clientSetOn.Some? <==> client.providerName in t.registry
    ensures r.clientSetOn.Some? ==> r.clientSetOn.value == client.providerName
    ensures client.providerName !in t.registry ==> r.error == Some(NoProviderNamed(client.providerName))
    ensures client.providerName in t.registry ==>
              (r.error.Some? <==> client.updateProviderPricing.Some?)
    ensures client.providerName in t.registry && r.error.Some? ==>
              r.error.value.Tracker? && r.error.value.kind == Kind.PricingUpdateFailed && Unwrap(r.error.value) == client.updateProviderPricing
  {
    if client.providerName !in t.registry then
      Registration(None, Some(NoProviderNamed(client.providerName)))
    else if client.updateProviderPricing.Some? then
      Registration(Some(client.providerName),
                   Some(NewError(Kind.PricingUpdateFailed, "failed to update pricing information", client.updateProviderPricing)))
    else
      Registration(Some(client.providerName), None)
  }

  /** `TrackTokenUsage`: the named provider reads the usage from the response. */
  function TrackTokenUsage(t: Tracker, providerName: string, response: Json.Value): (r: Result<TokenCount, Error>)
    ensures providerName !in t.registry ==> r == Fail(NoProviderNamed(providerName))
    ensures providerName in t.registry ==> r == t.registry[providerName].extractTokenUsage(response)
  {
    match Get(t.registry, providerName)
    case None => Fail(NoProviderNamed(providerName))
    case Some(p) => p.extractTokenUsage(response)
  }
}
