/**
 The gateway's stream handler and its heartbeat goroutine: two threads that share one response writer
 through a mutex, a "done" channel and an "exited" channel. Writes go out byte by byte and may fail
 at any byte.
 */
module Heartbeat {
  import opened Bytes
  import opened Seqs
  import opened SseLaws
  import opened Wrappers

  // ------------------------------------------------------------------
  // The system
  // ------------------------------------------------------------------

  /** An event as the handler marshals it; marshalling can fail. */
  datatype Encoding = Encoded(payload: Bytes) | Unencodable

  /** What draining the upstream stream delivers: events, then an error or a clean end. */
  datatype Script = Script(events: seq<Encoding>, failure: Option<Encoding>)

  datatype Deferred = CloseStream | StopBeat | ReleaseLock

  /** Deferred calls, the last registered on top. */
  datatype Stack = Empty | Push(top: Deferred, below: Stack)

  const CLOSING := Push(CloseStream, Empty)
  const STOPPING := Push(StopBeat, CLOSING)
  const RELEASING := Push(ReleaseLock, STOPPING)

  datatype Owner = Nobody | TheHandler | TheBeat

  datatype HandlerPc =
    | Pulling
    | Wanting(item: Encoding, last: bool)
    | Writing(payload: Bytes, sent: nat, last: bool)
    | Unlocking(ok: bool)
    | Leaving
    | Waiting
    | Returned

  datatype BeatPc = Off | Idle | Blocked | Beating(sent: nat) | Releasing(ok: bool) | Exiting | Exited

  /**
   The shared state. The last four fields record history: how many events were written whole, whether
   the error frame was, the whole frames written before the first failed write, and whether a write
   has failed.
   */
  datatype State = State(
    h: HandlerPc,
    b: BeatPc,
    lock: Owner,
    deferred: Stack,
    doneClosed: bool,
    exitedClosed: bool,
    cancelled: bool,
    streamClosed: bool,
    pulled: nat,
    out: Bytes,
    delivered: nat,
    errorSent: bool,
    clean: seq<Piece>,
    tainted: bool)

  /** After the heartbeat is started; without an interval there is no goroutine. */
  predicate Init(s: State) {
    && s.h == Pulling
    && (s.b == Off || s.b == Idle)
    && s.lock == Nobody
    && s.deferred == STOPPING
    && !s.doneClosed && !s.exitedClosed && !s.streamClosed
    && s.pulled == 0
    && s.out == [] && s.delivered == 0 && !s.errorSent && s.clean == [] && !s.tainted
  }

  /** One atomic move of the handler, of the goroutine, of the ticker or of the request's context. */
  datatype Move =
    | PullEvent
    | PullFailure
    | PullEnd
    | Lock
    | WriteByte
    | WriteDone
    | WriteFails
    | Unlock
    | RunRelease
    | RunStop
    | RunClose
    | Return
    | AwaitExit
    | BeatStops
    | BeatLocks
    | BeatByte
    | BeatDone
    | BeatFails
    | BeatUnlocks
    | BeatExits
    | Tick
    | Cancel

  predicate Enabled(script: Script, s: State, m: Move) {
    match m
    case PullEvent => s.h == Pulling && s.pulled < |script.events|
    case PullFailure => s.h == Pulling && |script.events| <= s.pulled && script.failure.Some?
    case PullEnd => s.h == Pulling && |script.events| <= s.pulled && script.failure.None?
    case Lock => s.h.Wanting? && s.lock == Nobody
    case WriteByte => s.h.Writing? && s.h.sent < |Frame(s.h.payload)|
    case WriteDone => s.h.Writing? && s.h.sent == |Frame(s.h.payload)|
    case WriteFails => s.h.Writing?
    case Unlock => s.h.Unlocking?
    case RunRelease => s.h == Leaving && s.deferred.Push? && s.deferred.top == ReleaseLock
    case RunStop => s.h == Leaving && s.deferred.Push? && s.deferred.top == StopBeat
    case RunClose => s.h == Leaving && s.deferred.Push? && s.deferred.top == CloseStream
    case Return => s.h == Leaving && s.deferred == Empty
    case AwaitExit => s.h == Waiting && s.exitedClosed
    case BeatStops => s.b == Idle && (s.doneClosed || s.cancelled)
    case BeatLocks => s.b == Blocked && s.lock == Nobody
    case BeatByte => s.b.Beating? && s.b.sent < |KEEP_ALIVE|
    case BeatDone => s.b.Beating? && s.b.sent == |KEEP_ALIVE|
    case BeatFails => s.b.Beating?
    case BeatUnlocks => s.b.Releasing?
    case BeatExits => s.b == Exiting
    case Tick => s.b == Idle
    case Cancel => true
  }

  /** Where the handler goes when its write is over. */
  function AfterWrite(ok: bool, last: bool): HandlerPc {
    if last then Leaving else Unlocking(ok)
  }

  /** Taking the mutex, and the marshalling that follows; the error path also defers the unlock. */
  function AfterLock(s: State): State
    requires s.h.Wanting?
  {
    s.(lock := TheHandler,
       deferred := if s.h.last then Push(ReleaseLock, s.deferred) else s.deferred,
       h := if s.h.item.Encoded? then Writing(s.h.item.payload, 0, s.h.last) else AfterWrite(false, s.h.last))
  }

  function AfterWriteDone(s: State): State
    requires s.h.Writing?
  {
    var t := s.(h := AfterWrite(true, s.h.last));
    if s.tainted then t
    else
      var logged := t.(clean := s.clean + [Payload(s.h.payload)]);
      if s.h.last then logged.(errorSent := true) else logged.(delivered := s.delivered + 1)
  }

  predicate HandlerMove(m: Move) {
    m.PullEvent? || m.PullFailure? || m.PullEnd? || m.Lock? || m.WriteByte? || m.WriteDone? || m.WriteFails? ||
    m.Unlock? || m.RunRelease? || m.RunStop? || m.RunClose? || m.Return? || m.AwaitExit?
  }

  function AfterHandler(script: Script, s: State, m: Move): State
    requires HandlerMove(m) && Enabled(script, s, m)
  {
    match m
    case PullEvent => s.(h := Wanting(script.events[s.pulled], false), pulled := s.pulled + 1)
    case PullFailure => s.(h := Wanting(script.failure.value, true))
    case PullEnd => s.(h := Leaving)
    case Lock => AfterLock(s)
    case WriteByte => s.(out := s.out + [Frame(s.h.payload)[s.h.sent]], h := s.h.(sent := s.h.sent + 1))
    case WriteDone => AfterWriteDone(s)
    case WriteFails => s.(h := AfterWrite(false, s.h.last), tainted := true)
    case Unlock => s.(lock := Nobody, h := if s.h.ok then Pulling else Leaving)
    case RunRelease => s.(deferred := s.deferred.below, lock := Nobody)
    case RunStop =>
      if s.b == Off then s.(deferred := s.deferred.below)
      else s.(deferred := s.deferred.below, doneClosed := true, h := Waiting)
    case RunClose => s.(deferred := s.deferred.below, streamClosed := true)
    case Return => s.(h := Returned)
    case AwaitExit => s.(h := Leaving)
  }

  /** The ticker may fire, and the context end, whatever else is ready. */
  function AfterBeat(script: Script, s: State, m: Move): State
    requires !HandlerMove(m) && Enabled(script, s, m)
  {
    match m
    case BeatStops => s.(b := Exiting)
    case BeatLocks => s.(lock := TheBeat, b := Beating(0))
    case BeatByte => s.(out := s.out + [KEEP_ALIVE[s.b.sent]], b := Beating(s.b.sent + 1))
    case BeatDone => s.(b := Releasing(true), clean := if s.tainted then s.clean else s.clean + [KeepAlive])
    case BeatFails => s.(b := Releasing(false), tainted := true)
    case BeatUnlocks => s.(lock := Nobody, b := if s.b.ok then Idle else Exiting)
    case BeatExits => s.(exitedClosed := true, b := Exited)
    case Tick => s.(b := Blocked)
    case Cancel => s.(cancelled := true)
  }

  function After(script: Script, s: State, m: Move): State
    requires Enabled(script, s, m)
  {
    if HandlerMove(m) then AfterHandler(script, s, m) else AfterBeat(script, s, m)
  }

  /** A move of one of the two threads that the ticker did not cause. */
  predicate ThreadMove(m: Move) {
    !m.Tick? && !m.Cancel?
  }

  /** A run from the start, under any interleaving: the states and the moves between them. */
  predicate Run(script: Script, run: seq<State>, moves: seq<Move>) {
    && |run| == |moves| + 1 && Init(run[0])
    && forall i :: 0 <= i < |moves| ==>
                     Enabled(script, run[i], moves[i]) && run[i + 1] == After(script, run[i], moves[i])
  }

  // ------------------------------------------------------------------
  // Invariants
  // ------------------------------------------------------------------

  /** Where the handler is fixes what is still deferred. */
  predicate DeferOk(s: State) {
    match s.h
    case Writing(_, _, last) => s.deferred == if last then RELEASING else STOPPING
    case Leaving =>
      s.deferred == RELEASING || s.deferred == STOPPING || s.deferred == CLOSING || s.deferred == Empty
    case Waiting => s.deferred == CLOSING
    case Returned => s.deferred == Empty
    case _ => s.deferred == STOPPING
  }

  predicate HandlerHolds(s: State) {
    s.h.Writing? || s.h.Unlocking? || (s.h == Leaving && s.deferred == RELEASING)
  }

  predicate BeatHolds(s: State) {
    s.b.Beating? || s.b.Releasing?
  }

  /** The mutex is held by exactly the thread whose program counter says so. */
  predicate LockOk(s: State) {
    && (s.lock == TheHandler <==> HandlerHolds(s))
    && (s.lock == TheBeat <==> BeatHolds(s))
  }

  /** The handler is past the stop function. */
  predicate Stopped(s: State) {
    s.h == Returned || (s.h == Leaving && (s.deferred == CLOSING || s.deferred == Empty))
  }

  predicate ChannelsOk(s: State) {
    && (s.exitedClosed <==> s.b == Exited)
    && (s.doneClosed <==> s.b != Off && (s.h == Waiting || Stopped(s)))
    && (Stopped(s) ==> s.b == Off || s.b == Exited)
    && (s.h == Waiting ==> s.b != Off)
    && (s.streamClosed <==> s.deferred == Empty)
  }

  predicate SafetyInv(s: State) {
    DeferOk(s) && LockOk(s) && ChannelsOk(s)
  }

  // The moves by kind.

  predicate PullMove(m: Move) {
    m.PullEvent? || m.PullFailure? || m.PullEnd?
  }

  predicate WriteMove(m: Move) {
    m.Lock? || m.WriteByte? || m.WriteDone? || m.WriteFails?
  }

  predicate LeaveMove(m: Move) {
    m.Unlock? || m.RunRelease? || m.RunClose? || m.Return? || m.AwaitExit?
  }

  predicate BeatWriteMove(m: Move) {
    m.BeatLocks? || m.BeatByte? || m.BeatDone? || m.BeatFails?
  }

  predicate BeatOtherMove(m: Move) {
    m.BeatStops? || m.BeatUnlocks? || m.BeatExits? || m.Tick? || m.Cancel?
  }

  lemma PullKeepsSafety(script: Script, s: State, m: Move)
    requires SafetyInv(s) && Enabled(script, s, m)
    requires PullMove(m)
    ensures SafetyInv(After(script, s, m))
  {
  }

  lemma WriteKeepsSafety(script: Script, s: State, m: Move)
    requires SafetyInv(s) && Enabled(script, s, m)
    requires WriteMove(m)
    ensures SafetyInv(After(script, s, m))
  {
  }

  lemma LeaveKeepsSafety(script: Script, s: State, m: Move)
    requires SafetyInv(s) && Enabled(script, s, m)
    requires LeaveMove(m)
    ensures SafetyInv(After(script, s, m))
  {
  }

  lemma StopKeepsSafety(script: Script, s: State, m: Move)
    requires SafetyInv(s) && Enabled(script, s, m)
    requires m == RunStop
    ensures SafetyInv(After(script, s, m))
  {
  }

  lemma BeatWriteKeepsSafety(script: Script, s: State, m: Move)
    requires SafetyInv(s) && Enabled(script, s, m)
    requires BeatWriteMove(m)
    ensures SafetyInv(After(script, s, m))
  {
  }

  lemma BeatOtherKeepsSafety(script: Script, s: State, m: Move)
    requires SafetyInv(s) && Enabled(script, s, m)
    requires BeatOtherMove(m)
    ensures SafetyInv(After(script, s, m))
  {
  }

  /** Every move keeps the lock, the deferred stack and the channels consistent. */
  lemma MoveKeepsSafety(script: Script, s: State, m: Move)
    requires SafetyInv(s) && Enabled(script, s, m)
    ensures SafetyInv(After(script, s, m))
  {
    if PullMove(m) {
      PullKeepsSafety(script, s, m);
    } else if WriteMove(m) {
      WriteKeepsSafety(script, s, m);
    } else if LeaveMove(m) {
      LeaveKeepsSafety(script, s, m);
    } else if m == RunStop {
      StopKeepsSafety(script, s, m);
    } else if BeatWriteMove(m) {
      BeatWriteKeepsSafety(script, s, m);
    } else if BeatOtherMove(m) {
      BeatOtherKeepsSafety(script, s, m);
    }
  }

  // ------------------------------------------------------------------
  // What reaches the client
  // ------------------------------------------------------------------

  /** The bytes of the frame being written. */
  function Partial(s: State): Bytes {
    if s.h.Writing? && s.h.sent <= |Frame(s.h.payload)| then Frame(s.h.payload)[..s.h.sent]
    else if s.b.Beating? && s.b.sent <= |KEEP_ALIVE| then KEEP_ALIVE[..s.b.sent]
    else []
  }

  /** One writer at a time, and never past the end of its frame. */
  predicate WritersOk(s: State) {
    && !(s.h.Writing? && s.b.Beating?)
    && (s.h.Writing? ==> s.h.sent <= |Frame(s.h.payload)|)
    && (s.b.Beating? ==> s.b.sent <= |KEEP_ALIVE|)
  }

  /** Up to the first failed write the output is whole frames and the part of one being written. */
  predicate BytesOk(s: State) {
    && WritersOk(s)
    && (!s.tainted ==> s.out == Render(s.clean) + Partial(s))
    && Render(s.clean) <= s.out
  }

  /** The payloads of the first n events. */
  function EventPayloads(events: seq<Encoding>, n: nat): seq<Bytes>
    requires n <= |events|
  {
    if n == 0 then []
    else EventPayloads(events, n - 1) + (if events[n - 1].Encoded? then [events[n - 1].payload] else [])
  }

  /** The first n events all marshal. */
  predicate Marshalled(events: seq<Encoding>, n: nat)
    requires n <= |events|
  {
    n == 0 || (Marshalled(events, n - 1) && events[n - 1].Encoded?)
  }

  function FailurePayload(script: Script): seq<Bytes> {
    if script.failure.Some? && script.failure.value.Encoded? then [script.failure.value.payload] else []
  }

  function DeliveredPayloads(script: Script, delivered: nat, errorSent: bool): seq<Bytes>
    requires delivered <= |script.events|
  {
    EventPayloads(script.events, delivered) + if errorSent then FailurePayload(script) else []
  }

  /** What the handler is working on, and how much it has already delivered. */
  predicate ProgressOk(script: Script, s: State) {
    && s.delivered <= s.pulled
    && s.pulled <= |script.events|
    && match s.h
       case Pulling => !s.errorSent && (!s.tainted ==> s.delivered == s.pulled)
       case Wanting(item, last) => Working(script, s, item, last)
       case Writing(payload, _, last) => Working(script, s, Encoded(payload), last)
       case Unlocking(ok) =>
         && !s.errorSent
         && (!s.tainted ==> if ok then s.delivered == s.pulled else GaveUp(script, s))
       case _ => !s.tainted ==> GaveUp(script, s) || Drained(script, s)
  }

  predicate Working(script: Script, s: State, item: Encoding, last: bool)
    requires s.pulled <= |script.events|
  {
    && !s.errorSent
    && if last then
         && script.failure == Some(item) && s.pulled == |script.events|
         && (!s.tainted ==> s.delivered == s.pulled)
       else
         && 0 < s.pulled && script.events[s.pulled - 1] == item
         && (!s.tainted ==> s.delivered == s.pulled - 1)
  }

  /** The handler stopped at an event that does not marshal. */
  predicate GaveUp(script: Script, s: State)
    requires s.pulled <= |script.events|
  {
    0 < s.pulled && script.events[s.pulled - 1] == Unencodable && s.delivered == s.pulled - 1 && !s.errorSent
  }

  /** Everything was delivered, the error frame included. */
  predicate Drained(script: Script, s: State) {
    s.delivered == |script.events| && (s.errorSent <==> FailurePayload(script) != [])
  }

  /** The whole frames written carry exactly the payloads delivered, in order. */
  predicate LogOk(script: Script, s: State) {
    && s.delivered <= |script.events|
    && Marshalled(script.events, s.delivered)
    && PayloadsOf(s.clean) == DeliveredPayloads(script, s.delivered, s.errorSent)
  }

  predicate Inv(script: Script, s: State) {
    SafetyInv(s) && BytesOk(s) && ProgressOk(script, s) && LogOk(script, s)
  }

  lemma RenderSnoc(pieces: seq<Piece>, piece: Piece)
    ensures Render(pieces + [piece]) == Render(pieces) + Wire(piece)
    ensures PayloadsOf(pieces + [piece]) == PayloadsOf(pieces) + (if piece.Payload? then [piece.payload] else [])
  {
    Snoc(pieces, piece);
  }

  lemma WriteByteBytes(script: Script, s: State)
    requires BytesOk(s) && Enabled(script, s, WriteByte)
    ensures BytesOk(After(script, s, WriteByte))
  {
    var frame, n := Frame(s.h.payload), s.h.sent;
    TakeSnoc(frame, n);
    PrefixGrows(Render(s.clean), s.out, [frame[n]]);
    Assoc(Render(s.clean), frame[..n], [frame[n]]);
  }

  lemma WriteDoneBytes(script: Script, s: State)
    requires BytesOk(s) && Enabled(script, s, WriteDone)
    ensures BytesOk(After(script, s, WriteDone))
  {
    assert After(script, s, WriteDone) == AfterWriteDone(s);
    FrameFinished(s);
  }

  lemma FrameFinished(s: State)
    requires BytesOk(s) && s.h.Writing? && s.h.sent == |Frame(s.h.payload)|
    ensures BytesOk(AfterWriteDone(s))
  {
    TakeAll(Frame(s.h.payload));
    RenderSnoc(s.clean, Payload(s.h.payload));
    AppendNil(Render(s.clean + [Payload(s.h.payload)]));
  }

  lemma BeatByteBytes(script: Script, s: State)
    requires BytesOk(s) && Enabled(script, s, BeatByte)
    ensures BytesOk(After(script, s, BeatByte))
  {
    var n := s.b.sent;
    TakeSnoc(KEEP_ALIVE, n);
    PrefixGrows(Render(s.clean), s.out, [KEEP_ALIVE[n]]);
    Assoc(Render(s.clean), KEEP_ALIVE[..n], [KEEP_ALIVE[n]]);
  }

  lemma BeatDoneBytes(script: Script, s: State)
    requires BytesOk(s) && Enabled(script, s, BeatDone)
    ensures BytesOk(After(script, s, BeatDone))
  {
    TakeAll(KEEP_ALIVE);
    RenderSnoc(s.clean, KeepAlive);
    AppendNil(Render(s.clean + [KeepAlive]));
  }

  lemma PullKeepsBytes(script: Script, s: State, m: Move)
    requires BytesOk(s) && SafetyInv(s) && Enabled(script, s, m)
    requires PullMove(m)
    ensures BytesOk(After(script, s, m))
  {
  }

  lemma WriteKeepsBytes(script: Script, s: State, m: Move)
    requires BytesOk(s) && SafetyInv(s) && Enabled(script, s, m)
    requires WriteMove(m) && !m.WriteByte? && !m.WriteDone?
    ensures BytesOk(After(script, s, m))
  {
  }

  lemma LeaveKeepsBytes(script: Script, s: State, m: Move)
    requires BytesOk(s) && SafetyInv(s) && Enabled(script, s, m)
    requires LeaveMove(m)
    ensures BytesOk(After(script, s, m))
  {
  }

  lemma StopKeepsBytes(script: Script, s: State, m: Move)
    requires BytesOk(s) && SafetyInv(s) && Enabled(script, s, m)
    requires m == RunStop
    ensures BytesOk(After(script, s, m))
  {
  }

  lemma BeatWriteKeepsBytes(script: Script, s: State, m: Move)
    requires BytesOk(s) && SafetyInv(s) && Enabled(script, s, m)
    requires BeatWriteMove(m) && !m.BeatByte? && !m.BeatDone?
    ensures BytesOk(After(script, s, m))
  {
  }

  lemma BeatOtherKeepsBytes(script: Script, s: State, m: Move)
    requires BytesOk(s) && SafetyInv(s) && Enabled(script, s, m)
    requires BeatOtherMove(m)
    ensures BytesOk(After(script, s, m))
  {
  }

  /** Up to the first failed write the output stays whole frames and the part of one being written. */
  lemma MoveKeepsBytes(script: Script, s: State, m: Move)
    requires BytesOk(s) && SafetyInv(s) && Enabled(script, s, m)
    ensures BytesOk(After(script, s, m))
  {
    if m == WriteByte {
      WriteByteBytes(script, s);
    } else if m == WriteDone {
      WriteDoneBytes(script, s);
    } else if m == BeatByte {
      BeatByteBytes(script, s);
    } else if m == BeatDone {
      BeatDoneBytes(script, s);
    } else if PullMove(m) {
      PullKeepsBytes(script, s, m);
    } else if WriteMove(m) {
      WriteKeepsBytes(script, s, m);
    } else if LeaveMove(m) {
      LeaveKeepsBytes(script, s, m);
    } else if m == RunStop {
      StopKeepsBytes(script, s, m);
    } else if BeatWriteMove(m) {
      BeatWriteKeepsBytes(script, s, m);
    } else if BeatOtherMove(m) {
      BeatOtherKeepsBytes(script, s, m);
    }
  }

  lemma PullKeepsProgress(script: Script, s: State, m: Move)
    requires ProgressOk(script, s) && Enabled(script, s, m)
    requires PullMove(m)
    ensures ProgressOk(script, After(script, s, m))
  {
  }

  lemma WriteKeepsProgress(script: Script, s: State, m: Move)
    requires ProgressOk(script, s) && Enabled(script, s, m)
    requires WriteMove(m)
    ensures ProgressOk(script, After(script, s, m))
  {
  }

  lemma LeaveKeepsProgress(script: Script, s: State, m: Move)
    requires ProgressOk(script, s) && Enabled(script, s, m)
    requires LeaveMove(m)
    ensures ProgressOk(script, After(script, s, m))
  {
  }

  lemma StopKeepsProgress(script: Script, s: State, m: Move)
    requires ProgressOk(script, s) && Enabled(script, s, m)
    requires m == RunStop
    ensures ProgressOk(script, After(script, s, m))
  {
  }

  lemma BeatWriteKeepsProgress(script: Script, s: State, m: Move)
    requires ProgressOk(script, s) && Enabled(script, s, m)
    requires BeatWriteMove(m)
    ensures ProgressOk(script, After(script, s, m))
  {
  }

  lemma BeatOtherKeepsProgress(script: Script, s: State, m: Move)
    requires ProgressOk(script, s) && Enabled(script, s, m)
    requires BeatOtherMove(m)
    ensures ProgressOk(script, After(script, s, m))
  {
  }

  /** Every move keeps the account of what was delivered. */
  lemma MoveKeepsProgress(script: Script, s: State, m: Move)
    requires ProgressOk(script, s) && Enabled(script, s, m)
    ensures ProgressOk(script, After(script, s, m))
  {
    if PullMove(m) {
      PullKeepsProgress(script, s, m);
    } else if WriteMove(m) {
      WriteKeepsProgress(script, s, m);
    } else if LeaveMove(m) {
      LeaveKeepsProgress(script, s, m);
    } else if m == RunStop {
      StopKeepsProgress(script, s, m);
    } else if BeatWriteMove(m) {
      BeatWriteKeepsProgress(script, s, m);
    } else if BeatOtherMove(m) {
      BeatOtherKeepsProgress(script, s, m);
    }
  }

  lemma DeliverEvent(script: Script, n: nat, payload: Bytes)
    requires n < |script.events| && script.events[n] == Encoded(payload)
    ensures DeliveredPayloads(script, n + 1, false) == DeliveredPayloads(script, n, false) + [payload]
  {
    AppendNil(EventPayloads(script.events, n));
    AppendNil(EventPayloads(script.events, n + 1));
  }

  lemma DeliverFailure(script: Script, n: nat, payload: Bytes)
    requires n <= |script.events| && script.failure == Some(Encoded(payload))
    ensures DeliveredPayloads(script, n, true) == DeliveredPayloads(script, n, false) + [payload]
  {
    AppendNil(EventPayloads(script.events, n));
  }

  /** The event being written is the next to be delivered. */
  lemma WritingTheNext(script: Script, s: State)
    requires ProgressOk(script, s) && s.h.Writing? && !s.tainted && !s.h.last
    ensures s.delivered < |script.events| && script.events[s.delivered] == Encoded(s.h.payload) && !s.errorSent
  {
  }

  lemma OneMore(script: Script, clean: seq<Piece>, n: nat, payload: Bytes)
    requires n < |script.events| && script.events[n] == Encoded(payload) && Marshalled(script.events, n)
    requires PayloadsOf(clean) == DeliveredPayloads(script, n, false)
    ensures Marshalled(script.events, n + 1)
    ensures PayloadsOf(clean + [Payload(payload)]) == DeliveredPayloads(script, n + 1, false)
  {
    RenderSnoc(clean, Payload(payload));
    DeliverEvent(script, n, payload);
  }

  lemma EventWrittenLog(script: Script, s: State)
    requires ProgressOk(script, s) && LogOk(script, s) && s.h.Writing? && !s.tainted && !s.h.last
    ensures LogOk(script, AfterWriteDone(s))
  {
    WritingTheNext(script, s);
    OneMore(script, s.clean, s.delivered, s.h.payload);
  }

  lemma FailureWrittenLog(script: Script, s: State)
    requires ProgressOk(script, s) && LogOk(script, s) && s.h.Writing? && !s.tainted && s.h.last
    ensures LogOk(script, AfterWriteDone(s))
  {
    RenderSnoc(s.clean, Payload(s.h.payload));
    DeliverFailure(script, s.delivered, s.h.payload);
  }

  lemma WriteDoneLog(script: Script, s: State)
    requires ProgressOk(script, s) && LogOk(script, s) && Enabled(script, s, WriteDone)
    ensures LogOk(script, After(script, s, WriteDone))
  {
    assert After(script, s, WriteDone) == AfterWriteDone(s);
    if s.tainted {
    } else if s.h.last {
      FailureWrittenLog(script, s);
    } else {
      EventWrittenLog(script, s);
    }
  }

  lemma BeatDoneLog(script: Script, s: State)
    requires LogOk(script, s) && Enabled(script, s, BeatDone)
    ensures LogOk(script, After(script, s, BeatDone))
  {
    RenderSnoc(s.clean, KeepAlive);
    AppendNil(PayloadsOf(s.clean));
  }

  lemma PullKeepsLog(script: Script, s: State, m: Move)
    requires LogOk(script, s) && Enabled(script, s, m)
    requires PullMove(m)
    ensures LogOk(script, After(script, s, m))
  {
  }

  lemma WriteKeepsLog(script: Script, s: State, m: Move)
    requires LogOk(script, s) && Enabled(script, s, m)
    requires WriteMove(m) && !m.WriteDone?
    ensures LogOk(script, After(script, s, m))
  {
  }

  lemma LeaveKeepsLog(script: Script, s: State, m: Move)
    requires LogOk(script, s) && Enabled(script, s, m)
    requires LeaveMove(m)
    ensures LogOk(script, After(script, s, m))
  {
  }

  lemma StopKeepsLog(script: Script, s: State, m: Move)
    requires LogOk(script, s) && Enabled(script, s, m)
    requires m == RunStop
    ensures LogOk(script, After(script, s, m))
  {
  }

  lemma BeatWriteKeepsLog(script: Script, s: State, m: Move)
    requires LogOk(script, s) && Enabled(script, s, m)
    requires BeatWriteMove(m) && !m.BeatDone?
    ensures LogOk(script, After(script, s, m))
  {
  }

  lemma BeatOtherKeepsLog(script: Script, s: State, m: Move)
    requires LogOk(script, s) && Enabled(script, s, m)
    requires BeatOtherMove(m)
    ensures LogOk(script, After(script, s, m))
  {
  }

  /** The whole frames stay exactly the payloads delivered. */
  lemma MoveKeepsLog(script: Script, s: State, m: Move)
    requires ProgressOk(script, s) && LogOk(script, s) && Enabled(script, s, m)
    ensures LogOk(script, After(script, s, m))
  {
    if m == WriteDone {
      WriteDoneLog(script, s);
    } else if m == BeatDone {
      BeatDoneLog(script, s);
    } else if PullMove(m) {
      PullKeepsLog(script, s, m);
    } else if WriteMove(m) {
      WriteKeepsLog(script, s, m);
    } else if LeaveMove(m) {
      LeaveKeepsLog(script, s, m);
    } else if m == RunStop {
      StopKeepsLog(script, s, m);
    } else if BeatWriteMove(m) {
      BeatWriteKeepsLog(script, s, m);
    } else if BeatOtherMove(m) {
      BeatOtherKeepsLog(script, s, m);
    }
  }

  lemma MoveKeepsInv(script: Script, s: State, m: Move)
    requires Inv(script, s) && Enabled(script, s, m)
    ensures Inv(script, After(script, s, m))
  {
    MoveKeepsSafety(script, s, m);
    MoveKeepsBytes(script, s, m);
    MoveKeepsProgress(script, s, m);
    MoveKeepsLog(script, s, m);
  }
}
