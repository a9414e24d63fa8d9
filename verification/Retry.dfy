/** The client: guarded options, hooks, and the three retry loops. */
module Retry {
  import opened Backoff
  import opened Errors
  import opened Seqs
  import opened Wrappers
  import Skyl

  datatype Operation = OpComplete | OpStream | OpStreamEnd | OpModels

  /** What a hook is told about one attempt. */
  datatype HookEvent = HookEvent(
    operation: Operation,
    attempt: nat,
    error: Option<Error>,
    usage: Skyl.Usage,
    responseId: string,
    responseModel: string,
    stopReason: Skyl.StopReason,
    completed: bool)

  /** An event that reports no tokens. */
  function Bare(op: Operation, attempt: nat, error: Option<Error>): HookEvent {
    HookEvent(op, attempt, error, Skyl.NO_USAGE, "", "", Skyl.NoReason, false)
  }

  /** How a context ends. */
  datatype Ended = Cancelled | Expired

  function ContextError(e: Ended): Error {
    Plain(if e == Cancelled then Canceled else DeadlineExceeded)
  }

  /**
   What one attempt meets: the provider's reply and error, whether the caller's context had ended by
   the time it returned, the random value its backoff drew and whether the wait before it was cut short.
   */
  datatype Try<+R> = Try(
    reply: Option<R>,
    error: Option<Error>,
    ended: Option<Ended>,
    random: nat,
    cut: Option<Ended>)

  /** The reply may be absent on success too: the client passes on what the provider gave. */
  datatype Ending<+R> = Replied(reply: Option<R>) | Gave(error: Error) | Panicked

  /** A whole call: how many attempts reached the provider, how long it chose to wait, how it ended. */
  datatype Trip<+R> = Trip(calls: nat, waits: seq<Duration>, ending: Ending<R>)

  /** An error after which the operation makes no other attempt. */
  predicate Hopeless(op: Operation, e: Error) {
    (op == OpModels && Is(e, Unsupported)) || !ShouldRetry(e)
  }

  /** Attempts from the given one on, after the last error. */
  function Rounds<R>(op: Operation, p: Policy, script: nat -> Try<R>, attempt: nat, last: Option<Error>): Trip<R>
    requires attempt <= p.maxRetries + 1 && (attempt > 0 ==> last.Some?)
    requires 0 <= p.maxRetries
    decreases p.maxRetries + 1 - attempt
  {
    if p.maxRetries < attempt then Trip(0, [], Gave(Wrapped(last.value)))
    else if attempt == 0 then Attempted(op, p, script, attempt)
    else
      var delay := DelayFor(p, attempt - 1, RetryAfterFrom(last), script(attempt).random);
      if delay.None? then Trip(0, [], Panicked)
      else if script(attempt).cut.Some? then
        Trip(0, [delay.value], Gave(Wrapped(ContextError(script(attempt).cut.value))))
      else Before(0, [delay.value], Attempted(op, p, script, attempt))
  }

  function Attempted<R>(op: Operation, p: Policy, script: nat -> Try<R>, attempt: nat): (trip: Trip<R>)
    requires attempt <= p.maxRetries
    ensures trip.calls >= 1
    decreases p.maxRetries + 1 - attempt, 0
  {
    var t := script(attempt);
    if t.error.None? then Trip(1, [], Replied(t.reply))
    else if Hopeless(op, t.error.value) || t.ended.Some? then Trip(1, [], Gave(t.error.value))
    else Before(1, [], Rounds(op, p, script, attempt + 1, t.error))
  }

  function Before<R>(calls: nat, waits: seq<Duration>, rest: Trip<R>): Trip<R> {
    Trip(calls + rest.calls, waits + rest.waits, rest.ending)
  }

  /** A whole call of an operation. */
  function Whole<R>(op: Operation, p: Policy, script: nat -> Try<R>): (trip: Trip<R>)
    requires 0 <= p.maxRetries
    ensures trip.calls >= 1
  {
    Rounds(op, p, script, 0, None)
  }

  /** The events of the first attempts of a call, given how to report each. */
  function EventsOf<R>(report: (nat, Try<R>) -> HookEvent, script: nat -> Try<R>, calls: nat): (events: seq<HookEvent>)
    ensures |events| == calls
    ensures forall i :: 0 <= i < calls ==> events[i] == report(i, script(i))
  {
    if calls == 0 then [] else EventsOf(report, script, calls - 1) + [report(calls - 1, script(calls - 1))]
  }

  function CompleteEvent(attempt: nat, t: Try<Skyl.Response>): HookEvent {
    var r := t.reply;
    if r.None? then Bare(OpComplete, attempt, t.error)
    else
      HookEvent(OpComplete, attempt, t.error, r.value.usage, r.value.id, r.value.model, r.value.stopReason, false)
  }

  function StreamEvent<R>(attempt: nat, t: Try<R>): HookEvent {
    Bare(OpStream, attempt, t.error)
  }

  function ModelsEvent<R>(attempt: nat, t: Try<R>): HookEvent {
    Bare(OpModels, attempt, t.error)
  }

  lemma BeforeNothing<R>(t: Trip<R>)
    ensures Before(0, [], t) == t
  {
    AppendNil(t.waits);
  }

  lemma BeforeBefore<R>(a: nat, waits: seq<Duration>, b: nat, more: seq<Duration>, t: Trip<R>)
    ensures Before(a, waits, Before(b, more, t)) == Before(a + b, waits + more, t)
  {
    Assoc(waits, more, t.waits);
  }

  // What one turn of a retry loop does to the call so far.

  lemma AfterPause<R>(op: Operation, p: Policy, script: nat -> Try<R>, attempt: nat, last: Option<Error>,
                      waits: seq<Duration>, more: seq<Duration>, ending: Option<Ending<R>>)
    requires 0 < attempt <= p.maxRetries && last.Some?
    requires PauseIs(p, attempt, last, script(attempt), more, ending)
    ensures ending.Some? ==>
              Before(attempt, waits, Rounds(op, p, script, attempt, last)) == Trip(attempt, waits + more, ending.value)
    ensures ending.None? ==>
              Before(attempt, waits, Rounds(op, p, script, attempt, last)) ==
              Before(attempt, waits + more, Attempted(op, p, script, attempt))
  {
    BeforeBefore(attempt, waits, 0, more, Attempted(op, p, script, attempt));
  }

  lemma AfterAttempt<R>(op: Operation, p: Policy, script: nat -> Try<R>, attempt: nat, waits: seq<Duration>)
    requires attempt <= p.maxRetries
    ensures var t := script(attempt);
            Before(attempt, waits, Attempted(op, p, script, attempt)) ==
            if t.error.None? then Trip(attempt + 1, waits, Replied(t.reply))
            else if Hopeless(op, t.error.value) || t.ended.Some? then Trip(attempt + 1, waits, Gave(t.error.value))
            else Before(attempt + 1, waits, Rounds(op, p, script, attempt + 1, t.error))
  {
    AppendNil(waits);
    if attempt < p.maxRetries + 1 && script(attempt).error.Some? {
      BeforeBefore(attempt, waits, 1, [], Rounds(op, p, script, attempt + 1, script(attempt).error));
    }
  }

  lemma AfterAll<R>(op: Operation, p: Policy, script: nat -> Try<R>, last: Error, waits: seq<Duration>)
    requires 0 <= p.maxRetries
    ensures Before(p.maxRetries + 1, waits, Rounds(op, p, script, p.maxRetries + 1, Some(last))) ==
            Trip(p.maxRetries + 1, waits, Gave(Wrapped(last)))
  {
    AppendNil(waits);
  }

  /** The delay chosen before an attempt, and how the call ends if it ends there. */
  ghost predicate PauseIs<R>(p: Policy, attempt: nat, last: Option<Error>, t: Try<R>,
                           waits: seq<Duration>, ending: Option<Ending<R>>)
    requires attempt > 0
  {
    var delay := DelayFor(p, attempt - 1, RetryAfterFrom(last), t.random);
    if delay.None? then waits == [] && ending == Some(Panicked)
    else
      && waits == [delay.value]
      && ending == if t.cut.Some? then Some(Gave(Wrapped(ContextError(t.cut.value)))) else None
  }

  /** Every hook has been told the same further events. */
  predicate Heard(before: seq<seq<HookEvent>>, after: seq<seq<HookEvent>>, events: seq<HookEvent>) {
    |after| == |before| && forall k :: 0 <= k < |after| ==> after[k] == before[k] + events
  }

  lemma HeardNothing(logs: seq<seq<HookEvent>>)
    ensures Heard(logs, logs, [])
  {
  }

  lemma HeardMore(a: seq<seq<HookEvent>>, b: seq<seq<HookEvent>>, c: seq<seq<HookEvent>>,
                  first: seq<HookEvent>, second: seq<HookEvent>)
    requires Heard(a, b, first) && Heard(b, c, second)
    ensures Heard(a, c, first + second)
  {
    forall k | 0 <= k < |c| ensures c[k] == a[k] + (first + second) {
      Assoc(a[k], first, second);
    }
  }

  // ------------------------------------------------------------------
  // Options
  // ------------------------------------------------------------------

  datatype Setting =
    | MaxRetries(n: int)
    | RetryDelay(base: Duration, max: Duration)
    | RetryAfterCap(d: Duration)
    | Timeout(d: Duration)
    | Hook(given: bool)

  // The value an option list settles on: the last acceptable one.

  function RetriesIn(settings: seq<Setting>): int {
    if settings == [] then DEFAULTS.maxRetries
    else
      var s := settings[|settings| - 1];
      if s.MaxRetries? && s.n >= 0 then s.n else RetriesIn(settings[..|settings| - 1])
  }

  function BaseIn(settings: seq<Setting>): Duration {
    if settings == [] then DEFAULTS.baseDelay
    else
      var s := settings[|settings| - 1];
      if s.RetryDelay? && s.base > 0 then s.base else BaseIn(settings[..|settings| - 1])
  }

  function MaxIn(settings: seq<Setting>): Duration {
    if settings == [] then DEFAULTS.maxDelay
    else
      var s := settings[|settings| - 1];
      if s.RetryDelay? && s.max > 0 then s.max else MaxIn(settings[..|settings| - 1])
  }

  function CapIn(settings: seq<Setting>): Duration {
    if settings == [] then DEFAULTS.retryAfterCap
    else
      var s := settings[|settings| - 1];
      if s.RetryAfterCap? && s.d > 0 then s.d else CapIn(settings[..|settings| - 1])
  }

  function HooksIn(settings: seq<Setting>): nat {
    if settings == [] then 0
    else HooksIn(settings[..|settings| - 1]) + (if settings[|settings| - 1] == Hook(true) then 1 else 0)
  }

  function PolicyIn(settings: seq<Setting>): Policy {
    Policy(RetriesIn(settings), BaseIn(settings), MaxIn(settings), CapIn(settings))
  }

  /** A policy whose fields the options guard: no default of backoff's own is ever needed. */
  predicate Guarded(p: Policy) {
    p.maxRetries >= 0 && p.baseDelay > 0 && p.maxDelay > 0 && p.retryAfterCap > 0
  }

  lemma {:induction false} OptionsKeepGuard(settings: seq<Setting>)
    ensures Guarded(PolicyIn(settings))
  {
    if settings != [] {
      OptionsKeepGuard(settings[..|settings| - 1]);
    }
  }

  // ------------------------------------------------------------------
  // The client
  // ------------------------------------------------------------------

  /** logs[k] is what the k-th registered hook has been told; calls counts what reached the provider. */
  class Client {
    var policy: Policy
    var timeout: Duration
    var logs: seq<seq<HookEvent>>
    var calls: nat

    ghost predicate Valid()
      reads this`policy
    {
      Guarded(policy)
    }

    /** Applies the options in order to the defaults. */
    constructor (settings: seq<Setting>)
      ensures Valid() && policy == PolicyIn(settings)
      ensures |logs| == HooksIn(settings) && calls == 0
      ensures forall k :: 0 <= k < |logs| ==> logs[k] == []
    {
      policy := DEFAULTS;
      timeout := 600_000_000_000;
      logs := [];
      calls := 0;
      new;
      for i := 0 to |settings|
        invariant policy == PolicyIn(settings[..i])
        invariant |logs| == HooksIn(settings[..i]) && calls == 0
        invariant forall k :: 0 <= k < |logs| ==> logs[k] == []
      {
        Snoc(settings[..i], settings[i]);
        assert settings[..i + 1] == settings[..i] + [settings[i]];
        Apply(settings[i]);
      }
      assert settings[..|settings|] == settings;
      OptionsKeepGuard(settings);
    }

    method Apply(s: Setting)
      modifies this`policy, this`timeout, this`logs
      ensures policy.maxRetries == if s.MaxRetries? && s.n >= 0 then s.n else old(policy.maxRetries)
      ensures policy.baseDelay == if s.RetryDelay? && s.base > 0 then s.base else old(policy.baseDelay)
      ensures policy.maxDelay == if s.RetryDelay? && s.max > 0 then s.max else old(policy.maxDelay)
      ensures policy.retryAfterCap == if s.RetryAfterCap? && s.d > 0 then s.d else old(policy.retryAfterCap)
      ensures timeout == if s.Timeout? then s.d else old(timeout)
      ensures logs == if s == Hook(true) then old(logs) + [[]] else old(logs)
    {
      match s
      case MaxRetries(n) =>
        if n >= 0 {
          policy := policy.(maxRetries := n);
        }
      case RetryDelay(base, max) =>
        if base > 0 {
          policy := policy.(baseDelay := base);
        }
        if max > 0 {
          policy := policy.(maxDelay := max);
        }
      case RetryAfterCap(d) =>
        if d > 0 {
          policy := policy.(retryAfterCap := d);
        }
      case Timeout(d) =>
        timeout := d;
      case Hook(given) =>
        if given {
          logs := logs + [[]];
        }
    }

    /** Tells every hook, in the order they were registered. */
    method Emit(ev: HookEvent)
      modifies this`logs
      ensures Heard(old(logs), logs, [ev])
    {
      for i := 0 to |logs|
        invariant |logs| == |old(logs)|
        invariant forall k :: 0 <= k < i ==> logs[k] == old(logs[k]) + [ev]
        invariant forall k :: i <= k < |logs| ==> logs[k] == old(logs[k])
      {
        logs := logs[i := logs[i] + [ev]];
      }
    }

    /** The wait before another attempt. */
    method Pause<R>(attempt: nat, lastErr: Option<Error>, t: Try<R>)
      returns (waits: seq<Duration>, ending: Option<Ending<R>>)
      requires attempt > 0
      ensures PauseIs(policy, attempt, lastErr, t, waits, ending)
    {
      var delay := Delay(policy, attempt - 1, RetryAfterFrom(lastErr), t.random);
      if delay.None? {
        return [], Some(Panicked);
      }
      return [delay.value], if t.cut.Some? then Some(Gave(Wrapped(ContextError(t.cut.value)))) else None;
    }

    /** One attempt at a completion, reported to the hooks. */
    method CompleteOnce(attempt: nat, t: Try<Skyl.Response>)
      modifies this`calls, this`logs
      ensures calls == old(calls) + 1
      ensures Heard(old(logs), logs, [CompleteEvent(attempt, t)])
    {
      calls := calls + 1;
      var ev := Bare(OpComplete, attempt, t.error);
      if t.reply.Some? {
        var r := t.reply.value;
        ev := ev.(usage := r.usage, responseId := r.id, responseModel := r.model, stopReason := r.stopReason);
      }
      Emit(ev);
    }

    /** A completion: rejected requests never reach the provider. */
    method Complete(rejection: Option<Error>, script: nat -> Try<Skyl.Response>) returns (trip: Trip<Skyl.Response>)
      requires Valid()
      modifies this`calls, this`logs
      ensures trip == if rejection.Some? then Trip(0, [], Gave(rejection.value)) else Whole(OpComplete, policy, script)
      ensures calls == old(calls) + trip.calls
      ensures Heard(old(logs), logs, EventsOf(CompleteEvent, script, trip.calls))
    {
      HeardNothing(logs);
      if rejection.Some? {
        return Trip(0, [], Gave(rejection.value));
      }
      BeforeNothing(Whole(OpComplete, policy, script));
      var lastErr := None;
      var attempt := 0;
      var waits := [];
      while attempt <= policy.maxRetries
        invariant 0 <= attempt <= policy.maxRetries + 1 && (attempt > 0 ==> lastErr.Some?)
        invariant Before(attempt, waits, Rounds(OpComplete, policy, script, attempt, lastErr)) ==
                  Whole(OpComplete, policy, script)
        invariant calls == old(calls) + attempt
        invariant Heard(old(logs), logs, EventsOf(CompleteEvent, script, attempt))
      {
        var t := script(attempt);
        if attempt > 0 {
          var more, stop := Pause(attempt, lastErr, t);
          AfterPause(OpComplete, policy, script, attempt, lastErr, waits, more, stop);
          waits := waits + more;
          if stop.Some? {
            return Trip(attempt, waits, stop.value);
          }
        }

        ghost var before := logs;
        CompleteOnce(attempt, t);
        HeardMore(old(logs), before, logs, EventsOf(CompleteEvent, script, attempt), [CompleteEvent(attempt, t)]);
        AfterAttempt(OpComplete, policy, script, attempt, waits);
        attempt := attempt + 1;

        if t.error.None? {
          return Trip(attempt, waits, Replied(t.reply));
        }
        lastErr := t.error;
        if !ShouldRetry(t.error.value) || t.ended.Some? {
          return Trip(attempt, waits, Gave(t.error.value));
        }
      }
      AfterAll(OpComplete, policy, script, lastErr.value, waits);
      return Trip(attempt, waits, Gave(Wrapped(lastErr.value)));
    }

    /** One attempt at a handshake, reported to the hooks. */
    method StreamOnce<R>(attempt: nat, t: Try<R>)
      modifies this`calls, this`logs
      ensures calls == old(calls) + 1
      ensures Heard(old(logs), logs, [StreamEvent(attempt, t)])
    {
      calls := calls + 1;
      Emit(Bare(OpStream, attempt, t.error));
    }

    /** A streaming handshake; only it is retried. */
    method Stream<R>(rejection: Option<Error>, script: nat -> Try<R>) returns (trip: Trip<R>)
      requires Valid()
      modifies this`calls, this`logs
      ensures trip == if rejection.Some? then Trip(0, [], Gave(rejection.value)) else Whole(OpStream, policy, script)
      ensures calls == old(calls) + trip.calls
      ensures Heard(old(logs), logs, EventsOf(StreamEvent, script, trip.calls))
    {
      HeardNothing(logs);
      if rejection.Some? {
        return Trip(0, [], Gave(rejection.value));
      }
      BeforeNothing(Whole(OpStream, policy, script));
      var lastErr := None;
      var attempt := 0;
      var waits := [];
      while attempt <= policy.maxRetries
        invariant 0 <= attempt <= policy.maxRetries + 1 && (attempt > 0 ==> lastErr.Some?)
        invariant Before(attempt, waits, Rounds(OpStream, policy, script, attempt, lastErr)) ==
                  Whole(OpStream, policy, script)
        invariant calls == old(calls) + attempt
        invariant Heard(old(logs), logs, EventsOf(StreamEvent, script, attempt))
      {
        var t := script(attempt);
        if attempt > 0 {
          var more, stop := Pause(attempt, lastErr, t);
          AfterPause(OpStream, policy, script, attempt, lastErr, waits, more, stop);
          waits := waits + more;
          if stop.Some? {
            return Trip(attempt, waits, stop.value);
          }
        }

        ghost var before := logs;
        StreamOnce(attempt, t);
        HeardMore(old(logs), before, logs, EventsOf(StreamEvent, script, attempt), [StreamEvent(attempt, t)]);
        AfterAttempt(OpStream, policy, script, attempt, waits);
        attempt := attempt + 1;

        if t.error.None? {
          return Trip(attempt, waits, Replied(t.reply));
        }
        lastErr := t.error;
        if !ShouldRetry(t.error.value) || t.ended.Some? {
          return Trip(attempt, waits, Gave(t.error.value));
        }
      }
      AfterAll(OpStream, policy, script, lastErr.value, waits);
      return Trip(attempt, waits, Gave(Wrapped(lastErr.value)));
    }

    /** One attempt at a listing, reported to the hooks. */
    method ModelsOnce<R>(attempt: nat, t: Try<R>)
      modifies this`calls, this`logs
      ensures calls == old(calls) + 1
      ensures Heard(old(logs), logs, [ModelsEvent(attempt, t)])
    {
      calls := calls + 1;
      Emit(Bare(OpModels, attempt, t.error));
    }

    /** A model listing, which also gives up on a provider that cannot list. */
    method Models<R>(script: nat -> Try<R>) returns (trip: Trip<R>)
      requires Valid()
      modifies this`calls, this`logs
      ensures trip == Whole(OpModels, policy, script)
      ensures calls == old(calls) + trip.calls
      ensures Heard(old(logs), logs, EventsOf(ModelsEvent, script, trip.calls))
    {
      HeardNothing(logs);
      BeforeNothing(Whole(OpModels, policy, script));
      var lastErr := None;
      var attempt := 0;
      var waits := [];
      while attempt <= policy.maxRetries
        invariant 0 <= attempt <= policy.maxRetries + 1 && (attempt > 0 ==> lastErr.Some?)
        invariant Before(attempt, waits, Rounds(OpModels, policy, script, attempt, lastErr)) ==
                  Whole(OpModels, policy, script)
        invariant calls == old(calls) + attempt
        invariant Heard(old(logs), logs, EventsOf(ModelsEvent, script, attempt))
      {
        var t := script(attempt);
        if attempt > 0 {
          var more, stop := Pause(attempt, lastErr, t);
          AfterPause(OpModels, policy, script, attempt, lastErr, waits, more, stop);
          waits := waits + more;
          if stop.Some? {
            return Trip(attempt, waits, stop.value);
          }
        }

        ghost var before := logs;
        ModelsOnce(attempt, t);
        HeardMore(old(logs), before, logs, EventsOf(ModelsEvent, script, attempt), [ModelsEvent(attempt, t)]);
        AfterAttempt(OpModels, policy, script, attempt, waits);
        attempt := attempt + 1;

        if t.error.None? {
          return Trip(attempt, waits, Replied(t.reply));
        }
        lastErr := t.error;
        if Is(t.error.value, Unsupported) || !ShouldRetry(t.error.value) || t.ended.Some? {
          return Trip(attempt, waits, Gave(t.error.value));
        }
      }
      AfterAll(OpModels, policy, script, lastErr.value, waits);
      return Trip(attempt, waits, Gave(Wrapped(lastErr.value)));
    }
  }
}
