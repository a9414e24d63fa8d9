/** What every run of a retry loop guarantees, whatever the provider, the context and the dice do. */
module RetryLaws {
  import opened Backoff
  import opened Errors
  import opened Retry
  import opened Seqs
  import opened Wrappers
  import Skyl

  /** The delay chosen after attempt i, if another follows. */
  function PauseAfter<R>(p: Policy, script: nat -> Try<R>, i: nat): Option<Duration> {
    DelayFor(p, i, RetryAfterFrom(script(i).error), script(i + 1).random)
  }

  /** Attempt i failed in a way worth another attempt, and the wait after it ran its course. */
  predicate GoesOn<R>(op: Operation, p: Policy, script: nat -> Try<R>, i: nat) {
    var t := script(i);
    && t.error.Some? && !Hopeless(op, t.error.value) && t.ended.None?
    && PauseAfter(p, script, i).Some? && script(i + 1).cut.None?
  }

  /** Attempt i is the last: every earlier one went on, and it did not or exhausted the budget. */
  predicate IsLast<R>(op: Operation, p: Policy, script: nat -> Try<R>, i: nat) {
    && i <= p.maxRetries
    && (forall j: nat :: j < i ==> GoesOn(op, p, script, j))
    && (i == p.maxRetries || !GoesOn(op, p, script, i))
  }

  /** The wait after attempt i was started and cut short. */
  predicate CutShort<R>(op: Operation, p: Policy, script: nat -> Try<R>, i: nat) {
    var t := script(i);
    && t.error.Some? && !Hopeless(op, t.error.value) && t.ended.None? && i < p.maxRetries
    && PauseAfter(p, script, i).Some? && script(i + 1).cut.Some?
  }

  /** How a call ends whose last attempt is i. */
  function EndingAt<R>(op: Operation, p: Policy, script: nat -> Try<R>, i: nat): Ending<R> {
    var t := script(i);
    if t.error.None? then Replied(t.reply)
    else if Hopeless(op, t.error.value) || t.ended.Some? then Gave(t.error.value)
    else if p.maxRetries <= i then Gave(Wrapped(t.error.value))
    else if PauseAfter(p, script, i).None? then Panicked
    else if script(i + 1).cut.Some? then Gave(Wrapped(ContextError(script(i + 1).cut.value)))
    else Panicked
  }

  /** The delays chosen after the attempts from first up to bound. */
  ghost predicate WaitsAre<R>(p: Policy, script: nat -> Try<R>, first: nat, waits: seq<Duration>) {
    forall j :: 0 <= j < |waits| ==> PauseAfter(p, script, first + j) == Some(waits[j])
  }

  /** What the attempts from k on amount to. */
  ghost predicate Shaped<R>(op: Operation, p: Policy, script: nat -> Try<R>, k: nat, trip: Trip<R>) {
    && 1 <= trip.calls <= p.maxRetries + 1 - k
    && (forall i: nat :: k <= i < k + trip.calls - 1 ==> GoesOn(op, p, script, i))
    && (k + trip.calls - 1 == p.maxRetries || !GoesOn(op, p, script, k + trip.calls - 1))
    && trip.ending == EndingAt(op, p, script, k + trip.calls - 1)
    && |trip.waits| == trip.calls - (if CutShort(op, p, script, k + trip.calls - 1) then 0 else 1)
    && WaitsAre(p, script, k, trip.waits)
  }

  lemma AttemptGoesOn<R>(op: Operation, p: Policy, script: nat -> Try<R>, k: nat)
    requires k < p.maxRetries && GoesOn(op, p, script, k)
    ensures Attempted(op, p, script, k) ==
            Before(1, [PauseAfter(p, script, k).value], Attempted(op, p, script, k + 1))
  {
    var delay := PauseAfter(p, script, k).value;
    BeforeBefore(1, [], 0, [delay], Attempted(op, p, script, k + 1));
    AppendNil([delay]);
  }

  lemma AttemptStops<R>(op: Operation, p: Policy, script: nat -> Try<R>, k: nat)
    requires k == p.maxRetries || (k < p.maxRetries && !GoesOn(op, p, script, k))
    ensures Attempted(op, p, script, k) ==
            Trip(1, if CutShort(op, p, script, k) then [PauseAfter(p, script, k).value] else [],
                 EndingAt(op, p, script, k))
  {
    if CutShort(op, p, script, k) {
      AppendNil([PauseAfter(p, script, k).value]);
    }
  }

  lemma ShapeExtends<R>(op: Operation, p: Policy, script: nat -> Try<R>, k: nat, rest: Trip<R>)
    requires k < p.maxRetries && GoesOn(op, p, script, k) && Shaped(op, p, script, k + 1, rest)
    ensures Shaped(op, p, script, k, Before(1, [PauseAfter(p, script, k).value], rest))
  {
    var trip := Before(1, [PauseAfter(p, script, k).value], rest);
    assert k + trip.calls - 1 == k + 1 + rest.calls - 1;
    forall j | 0 <= j < |trip.waits| ensures PauseAfter(p, script, k + j) == Some(trip.waits[j]) {
      if j > 0 {
        assert PauseAfter(p, script, k + 1 + (j - 1)) == Some(rest.waits[j - 1]);
      }
    }
  }

  lemma LastShape<R>(op: Operation, p: Policy, script: nat -> Try<R>, k: nat)
    requires k == p.maxRetries || (k < p.maxRetries && !GoesOn(op, p, script, k))
    ensures Shaped(op, p, script, k,
                   Trip(1, if CutShort(op, p, script, k) then [PauseAfter(p, script, k).value] else [],
                        EndingAt(op, p, script, k)))
  {
  }

  lemma {:induction false} AttemptedShape<R>(op: Operation, p: Policy, script: nat -> Try<R>, k: nat)
    requires k <= p.maxRetries
    ensures Shaped(op, p, script, k, Attempted(op, p, script, k))
    decreases p.maxRetries - k
  {
    if k < p.maxRetries && GoesOn(op, p, script, k) {
      AttemptedShape(op, p, script, k + 1);
      AttemptGoesOn(op, p, script, k);
      ShapeExtends(op, p, script, k, Attempted(op, p, script, k + 1));
    } else {
      AttemptStops(op, p, script, k);
      LastShape(op, p, script, k);
    }
  }

  lemma WholeShape<R>(op: Operation, p: Policy, script: nat -> Try<R>)
    requires Guarded(p)
    ensures Shaped(op, p, script, 0, Whole(op, p, script))
  {
    AttemptedShape(op, p, script, 0);
  }

  lemma LastIsUnique<R>(op: Operation, p: Policy, script: nat -> Try<R>, i: nat, j: nat)
    requires IsLast(op, p, script, i) && IsLast(op, p, script, j)
    ensures i == j
  {
  }

  /**
   A call makes exactly as many attempts as the first one that does not go on requires: at least one,
   at most the retries plus one.
   */
  lemma CallsIff<R>(op: Operation, p: Policy, script: nat -> Try<R>, n: nat)
    requires Guarded(p)
    ensures 1 <= Whole(op, p, script).calls <= p.maxRetries + 1
    ensures Whole(op, p, script).calls == n <==> n > 0 && IsLast(op, p, script, n - 1)
  {
    WholeShape(op, p, script);
    var last := Whole(op, p, script).calls - 1;
    assert IsLast(op, p, script, last);
    if n > 0 && IsLast(op, p, script, n - 1) {
      LastIsUnique(op, p, script, last, n - 1);
    }
  }

  /** What every report of an attempt says: its number and its error. */
  ghost predicate Reports<R(!new)>(report: (nat, Try<R>) -> HookEvent) {
    forall i, t {:trigger report(i, t)} :: report(i, t).attempt == i && report(i, t).error == t.error
  }

  /**
   The hooks hear one event per attempt, numbered from 0; every event but the last carries an error worth
   retrying, and the last one none exactly when the call succeeds, with the reply of that attempt.
   */
  lemma EventsTellTheCall<R(!new)>(
    op: Operation, p: Policy, script: nat -> Try<R>, report: (nat, Try<R>) -> HookEvent)
    requires Guarded(p) && Reports(report)
    ensures var trip := Whole(op, p, script);
            var events := EventsOf(report, script, trip.calls);
            && |events| == trip.calls
            && (forall i :: 0 <= i < |events| ==> events[i].attempt == i && events[i].error == script(i).error)
            && (forall i :: 0 <= i < |events| - 1 ==>
                              events[i].error.Some? && ShouldRetry(events[i].error.value) &&
                              !Hopeless(op, events[i].error.value))
            && (trip.ending.Replied? <==> events[|events| - 1].error.None?)
            && (trip.ending.Replied? ==> trip.ending.reply == script(trip.calls - 1).reply)
  {
    WholeShape(op, p, script);
    var trip := Whole(op, p, script);
    var events := EventsOf(report, script, trip.calls);
    forall i | 0 <= i < |events| - 1
      ensures events[i].error.Some? && ShouldRetry(events[i].error.value) && !Hopeless(op, events[i].error.value)
    {
      assert GoesOn(op, p, script, i);
    }
  }

  /** The three operations all report that way. */
  lemma EveryOperationReports<R(!new)>()
    ensures Reports(CompleteEvent) && Reports(StreamEvent<R>) && Reports(ModelsEvent<R>)
  {
  }

  /** Handshakes and listings are reported as what they are, without any of a reply's fields. */
  lemma OtherReports<R>(attempt: nat, t: Try<R>)
    ensures var silent := CompleteEvent(attempt, Try(None, t.error, t.ended, t.random, t.cut));
            && StreamEvent(attempt, t) == silent.(operation := OpStream)
            && ModelsEvent(attempt, t) == silent.(operation := OpModels)
  {
  }

  /** What the hooks hear of a completion: which operation, and what the reply, if there is one, says. */
  lemma CompletionReports(script: nat -> Try<Skyl.Response>, calls: nat, i: nat)
    requires i < calls
    ensures var ev, reply := EventsOf(CompleteEvent, script, calls)[i], script(i).reply;
            && ev.operation == OpComplete && !ev.completed
            && (reply.Some? ==>
                  && ev.usage == reply.value.usage && ev.stopReason == reply.value.stopReason
                  && ev.responseId == reply.value.id && ev.responseModel == reply.value.model)
            && (reply.None? ==>
                  && ev.usage == Skyl.NO_USAGE && ev.stopReason == Skyl.NoReason
                  && ev.responseId == "" && ev.responseModel == "")
  {
  }

  /**
   A failed call answers every test as its last attempt's error does, and was classified as worth
   retrying or not alike, unless the wait was cut short; then it answers as the context's error.
   */
  lemma FailureAnswersAsTheLast<R>(op: Operation, p: Policy, script: nat -> Try<R>)
    requires Guarded(p) && Whole(op, p, script).ending.Gave?
    ensures var trip := Whole(op, p, script);
            var last := script(trip.calls - 1);
            && last.error.Some?
            && var blamed := if |trip.waits| == trip.calls && script(trip.calls).cut.Some?
                             then ContextError(script(trip.calls).cut.value) else last.error.value;
            && (forall target :: Is(trip.ending.error, target) == Is(blamed, target))
            && ShouldRetry(trip.ending.error) == ShouldRetry(blamed)
  {
    WholeShape(op, p, script);
    var trip := Whole(op, p, script);
    var i := trip.calls - 1;
    if CutShort(op, p, script, i) {
      WrappingIsTransparent(ContextError(script(i + 1).cut.value));
    } else {
      WrappingIsTransparent(script(i).error.value);
    }
  }

  /**
   A failing call hands on the provider's error unwrapped when that error will not improve or the
   context is over; it stops short of its budget for no other reason than those or a cut wait.
   */
  lemma GivesUpEarlyOnlyFor<R>(op: Operation, p: Policy, script: nat -> Try<R>)
    requires Guarded(p) && Whole(op, p, script).ending.Gave?
    ensures var trip := Whole(op, p, script);
            var last := script(trip.calls - 1);
            && last.error.Some?
            && var over := Hopeless(op, last.error.value) || last.ended.Some?;
            && (over ==> trip.ending.error == last.error.value)
            && (!over && |trip.waits| < trip.calls ==> trip.ending.error == Wrapped(last.error.value))
            && (trip.calls <= p.maxRetries ==> over || |trip.waits| == trip.calls)
  {
    WholeShape(op, p, script);
  }

  /** With a maximum delay below the largest duration no call panics. */
  lemma NeverPanics<R>(op: Operation, p: Policy, script: nat -> Try<R>)
    requires Guarded(p) && p.maxDelay < MAX_INT64
    ensures Whole(op, p, script).ending != Panicked
  {
    WholeShape(op, p, script);
    var i := Whole(op, p, script).calls - 1;
    assert Ceiling(p, i) <= p.maxDelay;
  }

  // ------------------------------------------------------------------
  // How long a call waits
  // ------------------------------------------------------------------

  function Total(waits: seq<Duration>): int {
    if waits == [] then 0 else Total(waits[..|waits| - 1]) + waits[|waits| - 1]
  }

  lemma {:induction false} TotalAtMost(waits: seq<Duration>, bound: nat)
    requires forall j :: 0 <= j < |waits| ==> waits[j] <= bound
    ensures Total(waits) <= |waits| * bound
  {
    if waits != [] {
      TotalAtMost(waits[..|waits| - 1], bound);
      assert |waits| * bound == (|waits| - 1) * bound + bound;
    }
  }

  /** Each wait is at most twice the bound on the one before, the first at most base. */
  predicate Doubling(waits: seq<Duration>, base: nat) {
    forall j :: 0 <= j < |waits| ==> waits[j] <= base * Pow2(j)
  }

  lemma {:induction false} TotalGeometric(waits: seq<Duration>, base: nat)
    requires Doubling(waits, base)
    ensures Total(waits) <= base * (Pow2(|waits|) - 1)
  {
    if waits != [] {
      var n := |waits| - 1;
      TotalGeometric(waits[..n], base);
      assert base * (Pow2(n + 1) - 1) == base * (Pow2(n) - 1) + base * Pow2(n);
    }
  }

  lemma PauseBounds<R>(p: Policy, script: nat -> Try<R>, i: nat)
    requires Guarded(p) && PauseAfter(p, script, i).Some?
    ensures var delay := PauseAfter(p, script, i).value;
            && delay <= Max(p.maxDelay, p.retryAfterCap)
            && (RetryAfterFrom(script(i).error) <= 0 ==> delay <= p.baseDelay * Pow2(i))
  {
    DelayBounds(p, i, RetryAfterFrom(script(i).error), script(i + 1).random);
    CeilingBelowExponential(p, i);
  }

  /** A call never waits longer in all than its retries times the larger cap. */
  lemma TotalWaitBounded<R>(op: Operation, p: Policy, script: nat -> Try<R>)
    requires Guarded(p)
    ensures Total(Whole(op, p, script).waits) <= p.maxRetries * Max(p.maxDelay, p.retryAfterCap)
  {
    WaitCount(op, p, script);
    var trip := Whole(op, p, script);
    var bound := Max(p.maxDelay, p.retryAfterCap);
    forall j | 0 <= j < |trip.waits| ensures trip.waits[j] <= bound {
      assert PauseAfter(p, script, 0 + j) == Some(trip.waits[j]);
      PauseBounds(p, script, j);
    }
    TotalAtMost(trip.waits, bound);
    Scale(bound, |trip.waits|, p.maxRetries);
  }

  lemma WaitsDouble<R>(p: Policy, script: nat -> Try<R>, waits: seq<Duration>)
    requires Guarded(p) && WaitsAre(p, script, 0, waits)
    requires forall i: nat :: RetryAfterFrom(script(i).error) <= 0
    ensures Doubling(waits, p.baseDelay)
  {
    forall j | 0 <= j < |waits| ensures waits[j] <= p.baseDelay * Pow2(j) {
      assert PauseAfter(p, script, 0 + j) == Some(waits[j]);
      PauseBounds(p, script, j);
    }
  }

  lemma TotalDoubling(waits: seq<Duration>, base: nat, n: nat)
    requires Doubling(waits, base) && |waits| <= n
    ensures Total(waits) <= base * (Pow2(n) - 1)
  {
    TotalGeometric(waits, base);
    Pow2Monotone(|waits|, n);
    Scale(base, Pow2(|waits|) - 1, Pow2(n) - 1);
  }

  lemma WaitCount<R>(op: Operation, p: Policy, script: nat -> Try<R>)
    requires Guarded(p)
    ensures |Whole(op, p, script).waits| <= p.maxRetries && WaitsAre(p, script, 0, Whole(op, p, script).waits)
  {
    WholeShape(op, p, script);
  }

  /** When the provider never says how long to wait, the whole wait is at most base * (2^retries - 1). */
  lemma TotalWaitWithoutHints<R>(op: Operation, p: Policy, script: nat -> Try<R>)
    requires Guarded(p)
    requires forall i: nat :: RetryAfterFrom(script(i).error) <= 0
    ensures Total(Whole(op, p, script).waits) <= p.baseDelay * (Pow2(p.maxRetries) - 1)
  {
    var waits := Whole(op, p, script).waits;
    WaitCount(op, p, script);
    WaitsDouble(p, script, waits);
    TotalDoubling(waits, p.baseDelay, p.maxRetries);
  }

  /**
   A provider that says how long to wait is heeded: after an error that holds a failure with a hint, under any
   wrapping, the client waits at least the hint, up to its cap, and exactly that when the hint exceeds what the
   backoff could have drawn.
   */
  lemma HintIsHeeded<R>(op: Operation, p: Policy, script: nat -> Try<R>, j: nat)
    requires Guarded(p) && j < |Whole(op, p, script).waits|
    requires script(j).error.Some? && Foremost(script(j).error.value).Some?
    ensures var hint, wait := Foremost(script(j).error.value).value.retryAfter, Whole(op, p, script).waits[j];
            && Min(hint, p.retryAfterCap) <= wait
            && (p.maxDelay < hint ==> wait == Min(hint, p.retryAfterCap))
  {
    WaitCount(op, p, script);
    var hint, wait := RetryAfterFrom(script(j).error), Whole(op, p, script).waits[j];
    HintIs(script(j).error.value);
    assert PauseAfter(p, script, 0 + j) == Some(wait);
    DelayBounds(p, j, hint, script(j + 1).random);
    if p.maxDelay < hint {
      LongHint(p, j, hint, script(j + 1).random);
    }
  }

  lemma LongHint(p: Policy, attempt: nat, hint: Duration, random: nat)
    requires DelayFor(p, attempt, hint, random).Some? && MaxDelay(p) < hint
    ensures DelayFor(p, attempt, hint, random) == Some(Min(hint, HintCap(p)))
  {
  }

  /** So a failure's own hint is heeded however deep it is wrapped. */
  lemma WrappedHintIsHeeded<R>(op: Operation, p: Policy, script: nat -> Try<R>, j: nat, n: nat, f: Error)
    requires Guarded(p) && j < |Whole(op, p, script).waits|
    requires f.Failure? && script(j).error == Some(Under(n, f))
    ensures Min(f.retryAfter, p.retryAfterCap) <= Whole(op, p, script).waits[j]
    ensures p.maxDelay < f.retryAfter ==> Whole(op, p, script).waits[j] == Min(f.retryAfter, p.retryAfterCap)
  {
    ForemostUnder(n, f);
    HintIsHeeded(op, p, script, j);
  }

  /** A call whose wait was cut short tells the caller which way its context ended, and that it is over. */
  lemma CutWaitTellsWhy<R>(op: Operation, p: Policy, script: nat -> Try<R>)
    requires Guarded(p) && |Whole(op, p, script).waits| == Whole(op, p, script).calls
    ensures var trip := Whole(op, p, script);
            var cut := script(trip.calls).cut;
            && cut.Some? && trip.ending.Gave? && !ShouldRetry(trip.ending.error)
            && (Is(trip.ending.error, Canceled) <==> cut == Some(Cancelled))
            && (Is(trip.ending.error, DeadlineExceeded) <==> cut == Some(Expired))
  {
    WholeShape(op, p, script);
    var cut := script(Whole(op, p, script).calls).cut.value;
    WrappingIsTransparent(ContextError(cut));
    assert Preorder(ContextError(cut)) == [ContextError(cut)];
  }

  /**
   A client built without options makes at most four attempts and, while no provider tells it to wait, waits
   at most three and a half seconds in all; told to wait, at most a quarter of an hour.
   */
  lemma DefaultClient<R>(op: Operation, script: nat -> Try<R>)
    ensures var p := PolicyIn([]);
            && Guarded(p)
            && Whole(op, p, script).calls <= 4
            && Whole(op, p, script).ending != Panicked
            && Total(Whole(op, p, script).waits) <= 15 * 60 * 1_000_000_000
            && ((forall i: nat :: RetryAfterFrom(script(i).error) <= 0) ==>
                  Total(Whole(op, p, script).waits) <= 3_500_000_000)
  {
    var p := PolicyIn([]);
    CallsIff(op, p, script, 1);
    NeverPanics(op, p, script);
    TotalWaitBounded(op, p, script);
    if forall i: nat :: RetryAfterFrom(script(i).error) <= 0 {
      TotalWaitWithoutHints(op, p, script);
      assert Pow2(3) == 8;
    }
  }

  // ------------------------------------------------------------------
  // Listing models
  // ------------------------------------------------------------------

  /** Some error inside a failure, its kind aside, is the unsupported sentinel. */
  predicate UnsupportedBelow(e: Error)
    requires Classified(e)
  {
    match e
    case Wrapped(inner) => UnsupportedBelow(inner)
    case Failure(_, _, cause, _) => cause.Some? && Is(cause.value, Unsupported)
  }

  lemma {:induction false} UnsupportedIff(e: Error)
    requires Classified(e)
    ensures Is(e, Unsupported) <==> Classification(e) == Unsupported || UnsupportedBelow(e)
  {
    match e
    case Wrapped(inner) =>
      UnsupportedIff(inner);
      WrappingIsTransparent(inner);
    case Failure(_, kind, _, _) =>
      FailureIs(e, Unsupported);
      assert Preorder(kind.value) == [kind.value];
  }

  /**
   The listing's own test for an unsupported operation decides for a classified failure exactly when that
   is worth retrying and the unsupported sentinel sits in its cause. It also decides for the bare sentinel,
   which a completion would retry.
   */
  lemma ListingGuardIff(e: Error)
    ensures Classified(e) ==>
              (Hopeless(OpModels, e) != Hopeless(OpComplete, e) <==> ShouldRetry(e) && UnsupportedBelow(e))
    ensures Hopeless(OpModels, Plain(Unsupported)) && !Hopeless(OpComplete, Plain(Unsupported))
  {
    if Classified(e) {
      ClassifiedRetryIff(e);
      UnsupportedIff(e);
    }
    assert Preorder(Plain(Unsupported)) == [Plain(Unsupported)];
  }
}
