/** The wrapper that reports a stream's outcome to the hooks once, whatever its consumer does. */
module Observed {
  import opened Errors
  import opened Retry
  import opened Seqs
  import opened Wrappers
  import Skyl

  // ------------------------------------------------------------------
  // Any stream
  // ------------------------------------------------------------------

  /**
   How a provider's stream answers, with no contract assumed: whether Next finds an event, what Event
   shows, the error and what Close returns, each after so many Nexts and so many Closes.
   */
  datatype Behaviour = Behaviour(
    nexts: (nat, nat) -> bool,
    events: (nat, nat) -> Skyl.StreamEvent,
    errors: (nat, nat) -> Option<Error>,
    closes: (nat, nat) -> Option<Error>)

  /** Where a stream is: the Nexts and the Closes so far. */
  datatype Place = Place(asked: nat, closed: nat)

  const START := Place(0, 0)

  datatype Op = Next | Event | Err | Close

  datatype Answer = Moved(ok: bool) | Shown(event: Skyl.StreamEvent) | Failing(error: Option<Error>)

  function EventAt(b: Behaviour, at: Place): Skyl.StreamEvent {
    b.events(at.asked, at.closed)
  }

  function ErrorAt(b: Behaviour, at: Place): Option<Error> {
    b.errors(at.asked, at.closed)
  }

  function Goto(at: Place, op: Op): Place {
    match op
    case Next => at.(asked := at.asked + 1)
    case Close => at.(closed := at.closed + 1)
    case _ => at
  }

  function Reply(b: Behaviour, at: Place, op: Op): Answer {
    match op
    case Next => Moved(b.nexts(at.asked, at.closed))
    case Event => Shown(EventAt(b, at))
    case Err => Failing(ErrorAt(b, at))
    case Close => Failing(b.closes(at.asked, at.closed))
  }

  class Stream {
    const behaviour: Behaviour
    var at: Place

    constructor (behaviour: Behaviour)
      ensures this.behaviour == behaviour && at == START
    {
      this.behaviour := behaviour;
      at := START;
    }

    method Next() returns (ok: bool)
      modifies this
      ensures at == Goto(old(at), Op.Next) && Moved(ok) == Reply(behaviour, old(at), Op.Next)
    {
      ok := behaviour.nexts(at.asked, at.closed);
      at := at.(asked := at.asked + 1);
    }

    function Event(): Skyl.StreamEvent
      reads this
    {
      EventAt(behaviour, at)
    }

    function Err(): Option<Error>
      reads this
    {
      ErrorAt(behaviour, at)
    }

    method Close() returns (err: Option<Error>)
      modifies this
      ensures at == Goto(old(at), Op.Close) && Failing(err) == Reply(behaviour, old(at), Op.Close)
    {
      err := behaviour.closes(at.asked, at.closed);
      at := at.(closed := at.closed + 1);
    }
  }

  // ------------------------------------------------------------------
  // The wrapper
  // ------------------------------------------------------------------

  /** What the wrapper keeps beside the stream it wraps. */
  datatype Latch = Latch(usage: Skyl.Usage, stopReason: Skyl.StopReason, completed: bool, fired: bool)

  const UNFIRED := Latch(Skyl.NO_USAGE, Skyl.NoReason, false, false)

  function EndEvent(attempt: nat, error: Option<Error>, l: Latch): HookEvent {
    HookEvent(OpStreamEnd, attempt, error, l.usage, "", "", l.stopReason, l.completed)
  }

  /** The terminal event that an operation lets through, if it does. */
  function DonePassed(b: Behaviour, at: Place, op: Op): Option<Skyl.StreamEvent> {
    if op == Next && b.nexts(at.asked, at.closed) && EventAt(b, Goto(at, op)).Done? then Some(EventAt(b, Goto(at, op)))
    else None
  }

  /** The latch once an operation has let an event through. */
  function Noted(l: Latch, done: Option<Skyl.StreamEvent>): Latch {
    if done.Some? && done.value.Done? then
      Latch(if done.value.usage.Some? then done.value.usage.value else l.usage, done.value.reason, true, l.fired)
    else l
  }

  function Latched(b: Behaviour, at: Place, l: Latch, op: Op): Latch {
    var done := DonePassed(b, at, op);
    if done.Some? || op == Close then Noted(l, done).(fired := true) else l
  }

  /** What the hooks are told during one operation. */
  function Told(b: Behaviour, attempt: nat, at: Place, l: Latch, op: Op): seq<HookEvent> {
    var done := DonePassed(b, at, op);
    if (done.Some? || op == Close) && !l.fired then [EndEvent(attempt, ErrorAt(b, Goto(at, op)), Noted(l, done))]
    else []
  }

  class ObservedStream {
    const inner: Stream
    const client: Client
    const attempt: nat
    var usage: Skyl.Usage
    var stopReason: Skyl.StopReason
    var completed: bool
    var fired: bool

    constructor (inner: Stream, client: Client, attempt: nat)
      ensures this.inner == inner && this.client == client && this.attempt == attempt && State() == UNFIRED
    {
      this.inner := inner;
      this.client := client;
      this.attempt := attempt;
      usage := Skyl.NO_USAGE;
      stopReason := Skyl.NoReason;
      completed := false;
      fired := false;
    }

    ghost function State(): Latch
      reads this
    {
      Latch(usage, stopReason, completed, fired)
    }

    method Next() returns (ok: bool)
      modifies this, inner, client`logs
      ensures inner.at == Goto(old(inner.at), Op.Next)
      ensures Moved(ok) == Reply(inner.behaviour, old(inner.at), Op.Next)
      ensures State() == Latched(inner.behaviour, old(inner.at), old(State()), Op.Next)
      ensures Heard(old(client.logs), client.logs,
                    Told(inner.behaviour, attempt, old(inner.at), old(State()), Op.Next))
    {
      HeardNothing(client.logs);
      ok := inner.Next();
      if !ok {
        return false;
      }
      var ev := inner.Event();
      if ev.Done? {
        completed := true;
        if ev.usage.Some? {
          usage := ev.usage.value;
        }
        stopReason := ev.reason;
        Emit();
      }
    }

    function Event(): Skyl.StreamEvent
      reads this, inner
    {
      inner.Event()
    }

    function Err(): Option<Error>
      reads this, inner
    {
      inner.Err()
    }

    method Close() returns (err: Option<Error>)
      modifies this, inner, client`logs
      ensures inner.at == Goto(old(inner.at), Op.Close)
      ensures Failing(err) == Reply(inner.behaviour, old(inner.at), Op.Close)
      ensures State() == Latched(inner.behaviour, old(inner.at), old(State()), Op.Close)
      ensures Heard(old(client.logs), client.logs,
                    Told(inner.behaviour, attempt, old(inner.at), old(State()), Op.Close))
    {
      err := inner.Close();
      Emit();
    }

    method Emit()
      modifies this`fired, client`logs
      ensures State() == old(State()).(fired := true)
      ensures Heard(old(client.logs), client.logs,
                    if old(fired) then [] else [EndEvent(attempt, inner.Err(), old(State()))])
    {
      HeardNothing(client.logs);
      if fired {
        return;
      }
      fired := true;
      client.Emit(HookEvent(OpStreamEnd, attempt, inner.Err(), usage, "", "", stopReason, completed));
    }
  }

  /** A stream as the caller gets it: wrapped only when someone is listening. */
  datatype Handle = Raw(stream: Stream) | Watched(watched: ObservedStream)

  /** Opening a stream: the handshake, then the wrapper around the stream it gave. */
  method Open(client: Client, rejection: Option<Error>, script: nat -> Try<Behaviour>)
    returns (trip: Trip<Behaviour>, handle: Option<Handle>)
    requires client.Valid()
    modifies client`calls, client`logs
    ensures trip == if rejection.Some? then Trip(0, [], Gave(rejection.value))
                    else Whole(OpStream, client.policy, script)
    ensures Heard(old(client.logs), client.logs, EventsOf(StreamEvent, script, trip.calls))
    ensures handle.Some? <==> trip.ending.Replied? && trip.ending.reply.Some?
    ensures handle.Some? ==>
              match handle.value
              case Raw(s) => fresh(s) && |client.logs| == 0 && s.at == START && s.behaviour == trip.ending.reply.value
              case Watched(w) =>
                && fresh(w) && fresh(w.inner) && |client.logs| > 0 && w.client == client
                && w.inner.at == START && w.inner.behaviour == trip.ending.reply.value
                && w.State() == UNFIRED && w.attempt == trip.calls - 1
  {
    handle := None;
    trip := client.Stream(rejection, script);
    if trip.ending.Replied? && trip.ending.reply.Some? {
      var s := new Stream(trip.ending.reply.value);
      if |client.logs| == 0 {
        handle := Some(Raw(s));
      } else {
        var w := new ObservedStream(s, client, trip.calls - 1);
        handle := Some(Watched(w));
      }
    }
  }

  // ------------------------------------------------------------------
  // Laws
  // ------------------------------------------------------------------

  /** Everything the hooks are told over a whole use of the wrapper. */
  function Heeded(b: Behaviour, attempt: nat, at: Place, l: Latch, ops: seq<Op>): seq<HookEvent>
    decreases |ops|
  {
    if ops == [] then []
    else
      Told(b, attempt, at, l, ops[0]) +
      Heeded(b, attempt, Goto(at, ops[0]), Latched(b, at, l, ops[0]), ops[1..])
  }

  /** What a consumer of the bare stream sees. */
  function Replies(b: Behaviour, at: Place, ops: seq<Op>): seq<Answer>
    decreases |ops|
  {
    if ops == [] then [] else [Reply(b, at, ops[0])] + Replies(b, Goto(at, ops[0]), ops[1..])
  }

  /** One operation of a consumer that holds the wrapper. */
  method Use(w: ObservedStream, op: Op) returns (answer: Answer)
    modifies w, w.inner, w.client`logs
    ensures answer == Reply(w.inner.behaviour, old(w.inner.at), op)
    ensures w.inner.at == Goto(old(w.inner.at), op)
    ensures w.State() == Latched(w.inner.behaviour, old(w.inner.at), old(w.State()), op)
    ensures Heard(old(w.client.logs), w.client.logs,
                  Told(w.inner.behaviour, w.attempt, old(w.inner.at), old(w.State()), op))
  {
    HeardNothing(w.client.logs);
    match op
    case Next =>
      var ok := w.Next();
      answer := Moved(ok);
    case Event =>
      answer := Shown(w.Event());
    case Err =>
      answer := Failing(w.Err());
    case Close =>
      var err := w.Close();
      answer := Failing(err);
  }

  /** Any use of the wrapper: the consumer sees exactly the stream inside, and the hooks hear Heeded. */
  method Consume(w: ObservedStream, ops: seq<Op>) returns (answers: seq<Answer>)
    modifies w, w.inner, w.client`logs
    ensures answers == Replies(w.inner.behaviour, old(w.inner.at), ops)
    ensures Heard(old(w.client.logs), w.client.logs,
                  Heeded(w.inner.behaviour, w.attempt, old(w.inner.at), old(w.State()), ops))
    decreases |ops|
  {
    HeardNothing(w.client.logs);
    if ops == [] {
      return [];
    }
    ghost var at, l := w.inner.at, w.State();
    var first := Use(w, ops[0]);
    ghost var between := w.client.logs;
    var rest := Consume(w, ops[1..]);
    HeardMore(old(w.client.logs), between, w.client.logs, Told(w.inner.behaviour, w.attempt, at, l, ops[0]),
              Heeded(w.inner.behaviour, w.attempt, Goto(at, ops[0]),
                     Latched(w.inner.behaviour, at, l, ops[0]), ops[1..]));
    return [first] + rest;
  }

  /** Where the stream is after some operations. */
  function Arrives(at: Place, ops: seq<Op>): Place
    decreases |ops|
  {
    if ops == [] then at else Arrives(Goto(at, ops[0]), ops[1..])
  }

  /** The operation ends the stream for the hooks: it lets a terminal event through or closes. */
  predicate Ends(b: Behaviour, at: Place, op: Op) {
    op == Close || DonePassed(b, at, op).Some?
  }

  /** How many of the operations come before the first that ends the stream. */
  function Before(b: Behaviour, at: Place, ops: seq<Op>): (n: nat)
    ensures n <= |ops|
    decreases |ops|
  {
    if ops == [] || Ends(b, at, ops[0]) then 0 else 1 + Before(b, Goto(at, ops[0]), ops[1..])
  }

  lemma {:induction false} SilentOnceFired(b: Behaviour, attempt: nat, at: Place, l: Latch, ops: seq<Op>)
    requires l.fired
    ensures Heeded(b, attempt, at, l, ops) == []
    decreases |ops|
  {
    if ops != [] {
      SilentOnceFired(b, attempt, Goto(at, ops[0]), Latched(b, at, l, ops[0]), ops[1..]);
    }
  }

  /**
   Whatever the consumer does and however the inner stream behaves, the hooks hear one stream_end if
   some operation ended the stream and none otherwise. It is decided by the first such operation:
   completed when that let a terminal event through, with the usage and reason of that event, or
   nothing known when it was a Close, and with the error the stream then had.
   */
  lemma {:induction false} FiresOnce(b: Behaviour, attempt: nat, at: Place, ops: seq<Op>)
    ensures var n := Before(b, at, ops);
            Heeded(b, attempt, at, UNFIRED, ops) ==
            if n == |ops| then []
            else
              var there := Arrives(at, ops[..n]);
              var after := ErrorAt(b, Goto(there, ops[n]));
              var done := DonePassed(b, there, ops[n]);
              if done.None? then [HookEvent(OpStreamEnd, attempt, after, Skyl.NO_USAGE, "", "", Skyl.NoReason, false)]
              else
                var usage := if done.value.usage.Some? then done.value.usage.value else Skyl.NO_USAGE;
                [HookEvent(OpStreamEnd, attempt, after, usage, "", "", done.value.reason, true)]
    decreases |ops|
  {
    if ops != [] {
      var next, latch := Goto(at, ops[0]), Latched(b, at, UNFIRED, ops[0]);
      if Ends(b, at, ops[0]) {
        SilentOnceFired(b, attempt, next, latch, ops[1..]);
        AppendNil(Told(b, attempt, at, UNFIRED, ops[0]));
      } else {
        FiresOnce(b, attempt, next, ops[1..]);
        var m := Before(b, next, ops[1..]);
        assert ops[..m + 1][1..] == ops[1..][..m];
        if m < |ops[1..]| {
          assert ops[1..][m] == ops[m + 1];
        }
      }
    }
  }

  /** An operation ends the stream for the hooks unless no terminal event ever passes and nobody closes. */
  lemma {:induction false} SomeoneEndsIff(b: Behaviour, at: Place, ops: seq<Op>)
    ensures Before(b, at, ops) < |ops| <==>
            exists i :: 0 <= i < |ops| && Ends(b, Arrives(at, ops[..i]), ops[i])
    decreases |ops|
  {
    if ops != [] {
      var next := Goto(at, ops[0]);
      SomeoneEndsIff(b, next, ops[1..]);
      forall i | 1 <= i < |ops| ensures Arrives(at, ops[..i]) == Arrives(next, ops[1..][..i - 1]) {
        assert ops[..i][1..] == ops[1..][..i - 1];
      }
      assert ops[..0] == [];
      if Ends(b, at, ops[0]) {
        assert Ends(b, Arrives(at, ops[..0]), ops[0]);
      } else if Before(b, next, ops[1..]) < |ops[1..]| {
        var i :| 0 <= i < |ops[1..]| && Ends(b, Arrives(next, ops[1..][..i]), ops[1..][i]);
        assert Ends(b, Arrives(at, ops[..i + 1]), ops[i + 1]);
      } else {
        forall i | 0 <= i < |ops| ensures !Ends(b, Arrives(at, ops[..i]), ops[i]) {
          if i > 0 {
            assert ops[i] == ops[1..][i - 1];
          }
        }
      }
    }
  }
}
