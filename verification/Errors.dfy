/** Error trees: what errors.Is and errors.As find in them, and which failures are worth a retry. */
module Errors {
  import opened Wrappers

  const MAX_INT64 := 0x7FFF_FFFF_FFFF_FFFF

  /** A 64-bit count of nanoseconds. */
  type Duration = d: int | -MAX_INT64 - 1 <= d <= MAX_INT64

  /** Values an error is tested against. The last two are the context package's. */
  datatype Sentinel =
    | Auth | RateLimit | NotFound | BadRequest | Server | Unsupported | Refusal | StreamClosed
    | Canceled | DeadlineExceeded

  /**
   An error value. Failure is the library's own error, which unwraps to its kind and its cause;
   Wrapped is any error around one other and Joined any error around several.
   */
  datatype Error =
    | Plain(sentinel: Sentinel)
    | Failure(status: int, kind: Option<Error>, cause: Option<Error>, retryAfter: Duration)
    | Certificate(inner: Error)
    | Hostname
    | UnknownAuthority
    | Wrapped(inner: Error)
    | Joined(parts: seq<Error>)
    | Other(message: string)

  /** The tree in the order both searches visit it: each error before what it wraps. */
  function Preorder(e: Error): (nodes: seq<Error>)
    ensures |nodes| > 0 && nodes[0] == e
    decreases e, 0
  {
    match e
    case Failure(_, kind, cause, _) =>
      [e] + ((if kind.Some? then Preorder(kind.value) else []) + (if cause.Some? then Preorder(cause.value) else []))
    case Certificate(inner) => [e] + Preorder(inner)
    case Wrapped(inner) => [e] + Preorder(inner)
    case Joined(parts) => [e] + PreorderAll(parts)
    case _ => [e]
  }

  function PreorderAll(parts: seq<Error>): seq<Error>
    decreases parts
  {
    if parts == [] then [] else Preorder(parts[0]) + PreorderAll(parts[1..])
  }

  /** errors.Is */
  predicate Is(e: Error, target: Sentinel) {
    Plain(target) in Preorder(e)
  }

  predicate Rejected(e: Error) {
    e.Certificate? || e.Hostname? || e.UnknownAuthority?
  }

  /** Whether errors.As finds a rejected certificate. */
  predicate HasRejected(nodes: seq<Error>) {
    exists i :: 0 <= i < |nodes| && Rejected(nodes[i])
  }

  /** errors.As for the library's own error: the first one in the tree. */
  function FirstFailure(nodes: seq<Error>): (f: Option<Error>)
    ensures f.Some? ==> f.value.Failure? && f.value in nodes
    ensures f.None? <==> forall i :: 0 <= i < |nodes| ==> !nodes[i].Failure?
  {
    if nodes == [] then None
    else if nodes[0].Failure? then
      assert nodes[0] in nodes;
      Some(nodes[0])
    else
      assert nodes == [nodes[0]] + nodes[1..];
      FirstFailure(nodes[1..])
  }

  function AsFailure(e: Error): (f: Option<Error>)
    ensures f.Some? ==> f.value.Failure?
  {
    FirstFailure(Preorder(e))
  }

  predicate Retryable(f: Error)
    requires f.Failure?
  {
    if f.kind.Some? then Is(f.kind.value, RateLimit) || Is(f.kind.value, Server) else f.status == 0
  }

  predicate ShouldRetry(e: Error) {
    if Is(e, Canceled) || Is(e, DeadlineExceeded) then false
    else if HasRejected(Preorder(e)) then false
    else
      var f := AsFailure(e);
      if f.Some? then Retryable(f.value) else true
  }

  function RetryAfterFrom(e: Option<Error>): Duration {
    if e.None? then 0
    else
      var f := AsFailure(e.value);
      if f.Some? then f.value.retryAfter else 0
  }

  /** The library's own error as adapters build it. */
  class Report {
    const status: int
    const kind: Option<Error>
    const retryAfter: Duration
    var cause: Option<Error>

    constructor (status: int, kind: Option<Error>, retryAfter: Duration)
      ensures Value() == Failure(status, kind, None, retryAfter)
    {
      this.status := status;
      this.kind := kind;
      this.retryAfter := retryAfter;
      cause := None;
    }

    function Value(): Error
      reads this
    {
      Failure(status, kind, cause, retryAfter)
    }

    /** Attaches the cause to this very report and hands it back. */
    method WithCause(err: Error) returns (r: Report)
      modifies this`cause
      ensures r == this && Value() == Failure(status, kind, Some(err), retryAfter)
    {
      cause := Some(err);
      return this;
    }
  }

  // ------------------------------------------------------------------
  // Laws
  // ------------------------------------------------------------------

  /** Wrapping an error changes no test a caller can make of it. */
  lemma WrappingIsTransparent(e: Error)
    ensures forall target :: Is(Wrapped(e), target) == Is(e, target)
    ensures AsFailure(Wrapped(e)) == AsFailure(e)
    ensures ShouldRetry(Wrapped(e)) == ShouldRetry(e)
    ensures RetryAfterFrom(Some(Wrapped(e))) == RetryAfterFrom(Some(e))
  {
    var nodes := Preorder(e);
    var all := Preorder(Wrapped(e));
    assert all == [Wrapped(e)] + nodes;
    assert all[1..] == nodes;
    assert HasRejected(all) == HasRejected(nodes) by {
      if HasRejected(nodes) {
        var i :| 0 <= i < |nodes| && Rejected(nodes[i]);
        assert all[i + 1] == nodes[i];
      }
    }
  }

  /** A failure answers a test through its kind or through its cause, and carries both to the caller. */
  lemma FailureIs(f: Error, target: Sentinel)
    requires f.Failure?
    ensures Is(f, target) <==>
            (f.kind.Some? && Is(f.kind.value, target)) || (f.cause.Some? && Is(f.cause.value, target))
  {
    var kinds := if f.kind.Some? then Preorder(f.kind.value) else [];
    var causes := if f.cause.Some? then Preorder(f.cause.value) else [];
    assert Preorder(f) == [f] + (kinds + causes);
  }

  /** A failure whose kind is one of the library's sentinels, however much is wrapped around it. */
  predicate Classified(e: Error) {
    match e
    case Wrapped(inner) => Classified(inner)
    case Failure(_, kind, _, _) => kind.Some? && kind.value.Plain?
    case _ => false
  }

  function Classification(e: Error): Sentinel
    requires Classified(e)
  {
    if e.Wrapped? then Classification(e.inner) else e.kind.value.sentinel
  }

  lemma {:induction false} ClassifiedAs(e: Error)
    requires Classified(e)
    ensures AsFailure(e).Some? && AsFailure(e).value.kind == Some(Plain(Classification(e)))
    ensures Is(e, Classification(e))
  {
    match e
    case Wrapped(inner) =>
      ClassifiedAs(inner);
      WrappingIsTransparent(inner);
    case Failure(_, _, _, _) =>
      FailureIs(e, Classification(e));
  }

  /**
   A classified failure is retried exactly when it is a rate limit or a server error and nothing in it
   is a cancellation, an expired deadline or a rejected certificate.
   */
  lemma ClassifiedRetryIff(e: Error)
    requires Classified(e)
    ensures ShouldRetry(e) <==>
            && (Classification(e) == RateLimit || Classification(e) == Server)
            && !Is(e, Canceled) && !Is(e, DeadlineExceeded) && !HasRejected(Preorder(e))
  {
    ClassifiedAs(e);
    assert Preorder(Plain(Classification(e))) == [Plain(Classification(e))];
  }

  /**
   Whether a failure that carries a cause is retried: its kind and status must allow it, and the cause
   must not be a cancellation, an expired deadline or a rejected certificate. So a transport failure,
   which has no kind and no status, stands or falls with its cause.
   */
  lemma CausedRetryIff(f: Error, cause: Error)
    requires f.Failure? && (f.kind.Some? ==> f.kind.value.Plain?)
    requires f.kind != Some(Plain(Canceled)) && f.kind != Some(Plain(DeadlineExceeded))
    ensures ShouldRetry(f.(cause := Some(cause))) <==>
            && (if f.kind.None? then f.status == 0
                else f.kind.value.sentinel == RateLimit || f.kind.value.sentinel == Server)
            && !Is(cause, Canceled) && !Is(cause, DeadlineExceeded) && !HasRejected(Preorder(cause))
  {
    var e := f.(cause := Some(cause));
    CausedRejected(e);
    FailureIs(e, Canceled);
    FailureIs(e, DeadlineExceeded);
    assert AsFailure(e) == Some(e);
    if f.kind.Some? {
      assert Preorder(f.kind.value) == [f.kind.value];
    }
  }

  lemma CausedRejected(e: Error)
    requires e.Failure? && (e.kind.Some? ==> e.kind.value.Plain?) && e.cause.Some?
    ensures HasRejected(Preorder(e)) == HasRejected(Preorder(e.cause.value))
  {
    var kinds, nodes := if e.kind.Some? then [e.kind.value] else [], Preorder(e.cause.value);
    assert Preorder(e) == [e] + (kinds + nodes);
    assert [e] + (kinds + nodes) == ([e] + kinds) + nodes;
    RejectedBelow([e] + kinds, nodes);
  }

  lemma RejectedBelow(above: seq<Error>, nodes: seq<Error>)
    requires !HasRejected(above)
    ensures HasRejected(above + nodes) == HasRejected(nodes)
  {
    if HasRejected(nodes) {
      var i :| 0 <= i < |nodes| && Rejected(nodes[i]);
      assert (above + nodes)[|above| + i] == nodes[i];
    }
  }

  /**
   "Never retried" holds of classified failures only: without a Failure in the tree every sentinel,
   Auth and BadRequest included, counts as a transport error and is retried.
   */
  lemma UnclassifiedRetryIff(e: Error)
    requires AsFailure(e).None?
    ensures ShouldRetry(e) <==> !Is(e, Canceled) && !Is(e, DeadlineExceeded) && !HasRejected(Preorder(e))
    ensures ShouldRetry(Wrapped(Plain(Auth)))
  {
    assert Preorder(Plain(Auth)) == [Plain(Auth)];
    assert Preorder(Wrapped(Plain(Auth))) == [Wrapped(Plain(Auth)), Plain(Auth)];
  }

  // ------------------------------------------------------------------
  // The tree itself
  // ------------------------------------------------------------------

  /** The error holds another one, at any depth, by unwrapping. */
  predicate Holds(e: Error, x: Error)
    decreases e
  {
    e == x ||
    match e
    case Failure(_, kind, cause, _) =>
      (kind.Some? && Holds(kind.value, x)) || (cause.Some? && Holds(cause.value, x))
    case Certificate(inner) => Holds(inner, x)
    case Wrapped(inner) => Holds(inner, x)
    case Joined(parts) => exists p :: p in parts && Holds(p, x)
    case _ => false
  }

  /** The searches visit exactly the errors held. */
  lemma {:induction false} PreorderHolds(e: Error, x: Error)
    ensures x in Preorder(e) <==> Holds(e, x)
    decreases e, 0
  {
    match e
    case Failure(_, kind, cause, _) =>
      if kind.Some? {
        PreorderHolds(kind.value, x);
      }
      if cause.Some? {
        PreorderHolds(cause.value, x);
      }
    case Certificate(inner) => PreorderHolds(inner, x);
    case Wrapped(inner) => PreorderHolds(inner, x);
    case Joined(parts) => PreorderAllHolds(parts, x);
    case _ =>
  }

  lemma {:induction false} PreorderAllHolds(parts: seq<Error>, x: Error)
    ensures x in PreorderAll(parts) <==> exists p :: p in parts && Holds(p, x)
    decreases parts
  {
    if parts != [] {
      PreorderHolds(parts[0], x);
      PreorderAllHolds(parts[1..], x);
      assert parts == [parts[0]] + parts[1..];
    }
  }

  /** An error around several answers a test exactly when one of them does. */
  lemma JoinedIsIff(parts: seq<Error>, target: Sentinel)
    ensures Is(Joined(parts), target) <==> exists p :: p in parts && Is(p, target)
  {
    PreorderHolds(Joined(parts), Plain(target));
    forall p | p in parts ensures Is(p, target) <==> Holds(p, Plain(target)) {
      PreorderHolds(p, Plain(target));
    }
  }

  /** Nothing that holds a cancellation, an expired deadline or a rejected certificate is retried. */
  lemma NeverRetried(e: Error, x: Error)
    requires Holds(e, x)
    requires x in {Plain(Canceled), Plain(DeadlineExceeded), Hostname, UnknownAuthority} || x.Certificate?
    ensures !ShouldRetry(e)
  {
    PreorderHolds(e, x);
  }

  /** The library's own error that a caller finds: the nearest the top, kinds before causes, first parts first. */
  function Foremost(e: Error): (f: Option<Error>)
    ensures f.Some? ==> f.value.Failure?
    decreases e, 0
  {
    match e
    case Failure(_, _, _, _) => Some(e)
    case Certificate(inner) => Foremost(inner)
    case Wrapped(inner) => Foremost(inner)
    case Joined(parts) => ForemostOf(parts)
    case _ => None
  }

  function ForemostOf(parts: seq<Error>): (f: Option<Error>)
    ensures f.Some? ==> f.value.Failure?
    decreases parts
  {
    if parts == [] then None
    else if Foremost(parts[0]).Some? then Foremost(parts[0])
    else ForemostOf(parts[1..])
  }

  lemma {:induction false} FirstFailureAppend(a: seq<Error>, b: seq<Error>)
    ensures FirstFailure(a + b) == if FirstFailure(a).Some? then FirstFailure(a) else FirstFailure(b)
  {
    if a == [] {
      assert a + b == b;
    } else {
      assert (a + b)[1..] == a[1..] + b;
      FirstFailureAppend(a[1..], b);
    }
  }

  lemma FirstFailureCons(e: Error, rest: seq<Error>)
    ensures FirstFailure([e] + rest) == if e.Failure? then Some(e) else FirstFailure(rest)
  {
    assert ([e] + rest)[1..] == rest;
  }

  lemma {:induction false} AsFailureIs(e: Error)
    ensures AsFailure(e) == Foremost(e)
    decreases e, 0
  {
    match e
    case Failure(_, _, _, _) =>
    case Certificate(inner) =>
      AsFailureIs(inner);
      FirstFailureCons(e, Preorder(inner));
    case Wrapped(inner) =>
      AsFailureIs(inner);
      FirstFailureCons(e, Preorder(inner));
    case Joined(parts) =>
      AsFailureOfIs(parts);
      FirstFailureCons(e, PreorderAll(parts));
    case _ =>
      FirstFailureCons(e, []);
      assert Preorder(e) == [e] + [];
  }

  lemma {:induction false} AsFailureOfIs(parts: seq<Error>)
    ensures FirstFailure(PreorderAll(parts)) == ForemostOf(parts)
    decreases parts
  {
    if parts != [] {
      AsFailureIs(parts[0]);
      AsFailureOfIs(parts[1..]);
      FirstFailureAppend(Preorder(parts[0]), PreorderAll(parts[1..]));
    }
  }

  /** The hint of an error is that of the foremost failure it holds, and none without one. */
  lemma HintIs(e: Error)
    ensures RetryAfterFrom(Some(e)) == if Foremost(e).Some? then Foremost(e).value.retryAfter else 0
    ensures RetryAfterFrom(None) == 0
  {
    AsFailureIs(e);
  }

  /** An error under some number of wrappers. */
  function Under(n: nat, e: Error): Error {
    if n == 0 then e else Wrapped(Under(n - 1, e))
  }

  lemma {:induction false} ForemostUnder(n: nat, f: Error)
    requires f.Failure?
    ensures Foremost(Under(n, f)) == Some(f)
  {
    if n > 0 {
      ForemostUnder(n - 1, f);
    }
  }
}
