/** The library's error record (errors.go): a kind, a message and an optional
    wrapped cause, rendered recursively by `Error()`. */
module Errors {
  import opened Wrappers

  /** The error kinds. `PricingUpdateFailed` is referenced by the tracker but
      has no constant in errors.go; its name here is this model's choice. */
  datatype Kind =
    | InvalidModel
    | InvalidParams
    | ProviderNotFound
    | TokenizationFailed
    | PricingNotFound
    | PricingUpdateFailed

  /** The string value of each kind constant. */
  function KindName(k: Kind): string
  {
    match k
    case InvalidModel => "invalid_model"
    case InvalidParams => "invalid_params"
    case ProviderNotFound => "provider_not_found"
    case TokenizationFailed => "tokenization_failed"
    case PricingNotFound => "pricing_not_found"
    case PricingUpdateFailed => "pricing_update_failed"
  }

  /** A Go `error`: either a `*TokenTrackerError` or a plain error made by
      `errors.New` / `fmt.Errorf` (which has no cause of its own). */
  datatype Error =
    | Tracker(kind: Kind, message: string, cause: Option<Error>)
    | Plain(text: string)

  /** `NewError`: build a tracker error from its three parts. */
  function NewError(kind: Kind, message: string, cause: Option<Error>): (e: Error)
    ensures Unwrap(e) == cause
    ensures e.Tracker? && e.kind == kind && e.message == message
  {
    Tracker(kind, message, cause)
  }

  /** `Unwrap`: the stored cause; a plain error unwraps to nil. */
  function Unwrap(e: Error): Option<Error>
  {
    match e
    case Tracker(_, _, cause) => cause
    case Plain(_) => None
  }

  /** `Error()`: "<kind>: <message>", followed by " (cause: <cause>)" when a
      cause is present. */
  function Render(e: Error): string
  {
    match e
    case Plain(text) => text
    case Tracker(k, m, None) => KindName(k) + ": " + m
    case Tracker(k, m, Some(c)) => KindName(k) + ": " + m + " (cause: " + Render(c) + ")"
  }

  // ---------------------------------------------------------------------------
  // The shape of a nested rendering: the heads of the wrapping layers,
  // outermost first, then the innermost error's own text, then one ")" for
  // every wrapping layer.
  // ---------------------------------------------------------------------------

  /** Whether the error wraps a cause. */
  predicate Wraps(e: Error)
  {
    e.Tracker? && e.cause.Some?
  }

  /** The number of wrapping layers above the innermost error. */
  function Depth(e: Error): nat
  {
    if Wraps(e) then 1 + Depth(e.cause.value) else 0
  }

  /** The innermost error: the first one in the chain of causes without a cause. */
  function Innermost(e: Error): (r: Error)
    ensures !Wraps(r)
  {
    if Wraps(e) then Innermost(e.cause.value) else e
  }

  /** The head one wrapping layer contributes: "<kind>: <message> (cause: ". */
  function Head(e: Error): string
  {
    match e
    case Tracker(k, m, _) => KindName(k) + ": " + m + " (cause: "
    case Plain(text) => text
  }

  /** The heads of all wrapping layers, outermost first. */
  function Heads(e: Error): string
  {
    if Wraps(e) then Head(e) + Heads(e.cause.value) else ""
  }

  /** A run of `n` closing parentheses. */
  function Closers(n: nat): string
  {
    if n == 0 then "" else Closers(n - 1) + ")"
  }

  /** The text an error without a cause renders to. */
  function Leaf(e: Error): string
  {
    match e
    case Plain(text) => text
    case Tracker(k, m, _) => KindName(k) + ": " + m
  }

  /** Nested errors render as the heads of every wrapping layer, outermost
      first, then the innermost error's text, then one ")" per layer. */
  lemma {:induction false} RenderChain(e: Error)
    ensures Render(e) == Heads(e) + Leaf(Innermost(e)) + Closers(Depth(e))
  {
    if Wraps(e) {
      var inner := e.cause.value;
      RenderChain(inner);
      Regroup(Render(e), Head(e), Render(inner), Heads(inner), Leaf(Innermost(inner)), Closers(Depth(inner)));
    }
  }

  /** Regrouping the text of a wrapping layer around its cause's rendering. */
  lemma Regroup(r: string, head: string, inner: string, hs: string, leaf: string, closers: string)
    requires r == head + inner + ")" && inner == hs + leaf + closers
    ensures r == (head + hs) + leaf + (closers + ")")
  {
    assert head + (hs + leaf + closers) + ")" == (head + hs) + leaf + (closers + ")");
  }

  /** Every tracker error's text starts with its kind name and message, and a
      wrapped cause appears verbatim inside it. */
  lemma RenderShape(e: Error)
    requires e.Tracker?
    ensures var pre := KindName(e.kind) + ": " + e.message;
      |pre| <= |Render(e)| && Render(e)[..|pre|] == pre
    ensures e.cause.Some? ==>
      var pre := KindName(e.kind) + ": " + e.message + " (cause: ";
      Render(e) == pre + Render(e.cause.value) + ")"
    ensures e.cause.None? ==> Render(e) == KindName(e.kind) + ": " + e.message
  {
    var pre := KindName(e.kind) + ": " + e.message;
    if e.cause.Some? {
      assert Render(e) == pre + (" (cause: " + Render(e.cause.value) + ")");
    }
  }

  /** A character of the snake_case alphabet: a lower-case letter or '_'. */
  predicate SnakeChar(c: char)
  {
    'a' <= c <= 'z' || c == '_'
  }

  /** Every character of `s` is in the snake_case alphabet. */
  predicate SnakeCase(s: string)
  {
    forall c :: c in s ==> SnakeChar(c)
  }

  /** Reads a kind back from its constant's string value. */
  function KindOf(s: string): Option<Kind>
  {
    if s == "invalid_model" then Some(InvalidModel)
    else if s == "invalid_params" then Some(InvalidParams)
    else if s == "provider_not_found" then Some(ProviderNotFound)
    else if s == "tokenization_failed" then Some(TokenizationFailed)
    else if s == "pricing_not_found" then Some(PricingNotFound)
    else if s == "pricing_update_failed" then Some(PricingUpdateFailed)
    else None
  }

  /** The kind constants are pairwise distinct: each name reads back as the
      kind it names. */
  lemma KindNameRoundTrip(k: Kind)
    ensures KindOf(KindName(k)) == Some(k)
  {
  }

  /** The kind constants are pairwise distinct. */
  lemma KindNamesDistinct(k1: Kind, k2: Kind)
    ensures KindName(k1) == KindName(k2) <==> k1 == k2
  {
    KindNameRoundTrip(k1);
    KindNameRoundTrip(k2);
  }

  /** Every kind constant is a snake_case identifier containing '_'. */
  lemma KindNamesSnakeCase(k: Kind)
    ensures SnakeCase(KindName(k)) && '_' in KindName(k)
  {
    match k
    case InvalidModel => assert SnakeCase("invalid_model");
    case InvalidParams => assert SnakeCase("invalid_params");
    case ProviderNotFound => assert SnakeCase("provider_not_found");
    case TokenizationFailed => assert SnakeCase("tokenization_failed");
    case PricingNotFound => assert SnakeCase("pricing_not_found");
    case PricingUpdateFailed => assert SnakeCase("pricing_update_failed");
  }
}
