/** The provider abstraction and the registry of providers (provider.go).

    A provider is a record of its operations. The state Go providers share
    behind pointers is passed in and out explicitly: the price table every
    provider reads and its pricing update writes, and the process-wide
    token cache the heuristic counters consult. Setting an SDK client on a
    provider changes nothing any other operation reads, so it has no field. */
module Registry {
  import opened Wrappers
  import opened Errors
  import opened Models
  import Json
  import Configuration
  import Utils

  datatype Provider = Provider(
    name: string,
    supportsModel: string -> bool,
    countTokens: (Utils.Cache, TokenCountParams) -> (Result<TokenCount, Error>, Utils.Cache),
    calculatePrice: (Configuration.Config, string, int, int) -> Result<Price, Error>,
    modelInfo: string -> Result<Json.Value, Error>,
    extractTokenUsage: Json.Value -> Result<TokenCount, Error>,
    updatePricing: Configuration.Config -> (Configuration.Config, Option<Error>))

  /** Providers by name. `Register` is the only writer and files every
      provider under its own name. */
  type Registry = r: map<string, Provider> | forall n :: n in r ==> r[n].name == n
    witness map[]

  /** `NewProviderRegistry`: nothing is registered. */
  function NewRegistry(): (r: Registry)
    ensures forall n :: Get(r, n).None?
  {
    map[]
  }

  /** `Register`: files the provider under its name, replacing any provider
      of that name; no other name is affected. */
  function Register(r: Registry, p: Provider): (r': Registry)
    ensures Get(r', p.name) == Some(p)
    ensures forall n :: n != p.name ==> Get(r', n) == Get(r, n)
    ensures r'.Keys == r.Keys + {p.name}
  {
    r[p.name := p]
  }

  /** `Get`: the provider registered under a name, if any. */
  function Get(r: Registry, name: string): (found: Option<Provider>)
    ensures found.Some? <==> name in r
    ensures found.Some? ==> found.value == r[name] && found.value.name == name
  {
    if name in r then Some(r[name]) else None
  }

  /** Some registered provider supports the model. */
  ghost predicate Supported(r: Registry, model: string)
  {
    exists n :: n in r && r[n].supportsModel(model)
  }

  /** The provider named `name` is the only registered one supporting the model. */
  ghost predicate SoleSupporter(r: Registry, model: string, name: string)
  {
    name in r && r[name].supportsModel(model) &&
    forall n :: n in r && r[n].supportsModel(model) ==> n == name
  }

  /** The provider a model resolves to when exactly one supports it. When
      several do, Go's map iteration order decides, and the model leaves
      the choice open. */
  ghost function Resolve(r: Registry, model: string): (found: Option<Provider>)
    ensures found.Some? <==> exists n :: SoleSupporter(r, model, n)
    ensures forall n :: SoleSupporter(r, model, n) ==> found == Some(r[n])
  {
    if exists n :: SoleSupporter(r, model, n) then
      var n :| SoleSupporter(r, model, n);
      Some(r[n])
    else None
  }

  /** `GetForModel`: some registered provider supporting the model, found
      when one exists. Which one, when several do, is unspecified. */
  method GetForModel(r: Registry, model: string) returns (found: Option<Provider>)
    ensures found.Some? <==> Supported(r, model)
    ensures found.Some? ==> found.value.name in r && r[found.value.name] == found.value
    ensures found.Some? ==> found.value.supportsModel(model)
    ensures Resolve(r, model).Some? ==> found == Resolve(r, model)
  {
    var pending := r.Keys;
    while pending != {}
      invariant pending <= r.Keys
      invariant forall n :: n in r && n !in pending ==> !r[n].supportsModel(model)
      decreases |pending|
    {
      var n :| n in pending;
      if r[n].supportsModel(model) {
        return Some(r[n]);
      }
      pending := pending - {n};
    }
    return None;
  }

  /** The sequence lists every registered provider once. */
  ghost predicate Enumerates(r: Registry, ps: seq<Provider>)
  {
    |ps| == |r| &&
    (forall i :: 0 <= i < |ps| ==> ps[i].name in r && r[ps[i].name] == ps[i]) &&
    (forall i, j :: 0 <= i < j < |ps| ==> ps[i].name != ps[j].name)
  }

  /** `All`: every registered provider once, in an unspecified order. */
  method All(r: Registry) returns (ps: seq<Provider>)
    ensures Enumerates(r, ps)
    ensures forall n :: n in r ==> exists i :: 0 <= i < |ps| && ps[i].name == n
  {
    var names := KeysInSomeOrder(r.Keys);
    ps := seq(|names|, i requires 0 <= i < |names| => r[names[i]]);
    forall n | n in r ensures exists i :: 0 <= i < |ps| && ps[i].name == n {
      var i :| 0 <= i < |names| && names[i] == n;
      assert ps[i].name == n;
    }
  }

  /** The elements of a finite set of names, each once, in an unspecified order. */
  method KeysInSomeOrder(keys: set<string>) returns (names: seq<string>)
    ensures |names| == |keys|
    ensures forall i :: 0 <= i < |names| ==> names[i] in keys
    ensures forall n :: n in keys ==> exists i :: 0 <= i < |names| && names[i] == n
    ensures forall i, j :: 0 <= i < j < |names| ==> names[i] != names[j]
  {
    names := [];
    var pending := keys;
    while pending != {}
      invariant pending <= keys
      invariant forall i :: 0 <= i < |names| ==> names[i] in keys && names[i] !in pending
      invariant forall n :: n in keys && n !in pending ==> n in names
      invariant forall i, j :: 0 <= i < j < |names| ==> names[i] != names[j]
      invariant |names| + |pending| == |keys|
      decreases |pending|
    {
      var n :| n in pending;
      names := names + [n];
      pending := pending - {n};
    }
  }

  /** Registering a provider again under the same name keeps only the
      later one. */
  lemma RegisterLastWins(r: Registry, p: Provider, q: Provider)
    requires p.name == q.name
    ensures Register(Register(r, p), q) == Register(r, q)
  {
  }

  /** Registrations under different names commute. */
  lemma RegisterCommutes(r: Registry, p: Provider, q: Provider)
    requires p.name != q.name
    ensures Register(Register(r, p), q) == Register(Register(r, q), p)
  {
    UpdatesCommute(r, p.name, p, q.name, q);
  }

  /** Updates of a map at two different keys commute. */
  lemma UpdatesCommute<K, V>(m: map<K, V>, a: K, x: V, b: K, y: V)
    requires a != b
    ensures m[a := x][b := y] == m[b := y][a := x]
  {
  }

  /** Registering a provider that supports the model makes the model
      supported; registering one under a new name that does not support it
      leaves support for the model as it was. */
  lemma RegisterSupport(r: Registry, p: Provider, model: string)
    ensures p.supportsModel(model) ==> Supported(Register(r, p), model)
    ensures !p.supportsModel(model) && p.name !in r ==>
              (Supported(Register(r, p), model) <==> Supported(r, model))
  {
    var r' := Register(r, p);
    if p.supportsModel(model) {
      assert p.name in r' && r'[p.name].supportsModel(model);
    }
    if !p.supportsModel(model) && p.name !in r {
      if Supported(r', model) {
        var n :| n in r' && r'[n].supportsModel(model);
        assert n != p.name && n in r && r[n].supportsModel(model);
      }
      if Supported(r, model) {
        var n :| n in r && r[n].supportsModel(model);
        assert n in r' && r'[n].supportsModel(model);
      }
    }
  }
}
