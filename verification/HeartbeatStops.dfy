/**
 When each of the two threads gives up, in every interleaving, and what an undisturbed round of each
 puts on the wire.
 */
module HeartbeatStops {
  import opened Bytes
  import opened Heartbeat
  import opened HeartbeatLaws
  import opened Seqs
  import opened SseLaws

  // ------------------------------------------------------------------
  // The handler
  // ------------------------------------------------------------------

  /** The handler is on its way out: it will pull and write no more. */
  predicate HandlerQuit(s: State) {
    s.h == Unlocking(false) || s.h == Leaving || s.h == Waiting || s.h == Returned
  }

  /** The end of the stream, a failed write, an event that does not marshal, or the error frame written. */
  predicate Quits(s: State, m: Move) {
    || m == PullEnd
    || m == WriteFails
    || (m == Lock && s.h.Wanting? && s.h.item == Unencodable)
    || (m == WriteDone && s.h.Writing? && s.h.last)
  }

  lemma HandlerQuitStep(script: Script, s: State, m: Move)
    requires HandlerMove(m) && Enabled(script, s, m)
    ensures HandlerQuit(After(script, s, m)) <==> HandlerQuit(s) || Quits(s, m)
  {
    match m
    case PullEvent => case PullFailure => case PullEnd => case Lock => case WriteByte => case WriteDone =>
    case WriteFails => case Unlock => case RunRelease => case RunStop => case RunClose => case Return =>
    case AwaitExit =>
  }

  lemma BeatLeavesHandler(script: Script, s: State, m: Move)
    requires !HandlerMove(m) && Enabled(script, s, m)
    ensures After(script, s, m).h == s.h && After(script, s, m).pulled == s.pulled
  {
    match m
    case BeatStops => case BeatLocks => case BeatByte => case BeatDone => case BeatFails => case BeatUnlocks =>
    case BeatExits => case Tick => case Cancel =>
  }

  lemma QuitStep(script: Script, s: State, m: Move)
    requires Enabled(script, s, m)
    ensures HandlerQuit(After(script, s, m)) <==> HandlerQuit(s) || Quits(s, m)
  {
    if HandlerMove(m) {
      HandlerQuitStep(script, s, m);
    } else {
      BeatLeavesHandler(script, s, m);
    }
  }

  /** Some move before the j-th state made the handler give up. */
  ghost predicate QuitBefore(run: seq<State>, moves: seq<Move>, j: nat)
    requires |run| == |moves| + 1 && j < |run|
  {
    exists i :: 0 <= i < j && Quits(run[i], moves[i])
  }

  /**
   In every interleaving the handler is on its way out exactly from the first failed write, event that
   does not marshal, end of the stream or written error frame on; nothing the goroutine meets, its own
   failed write included, makes it leave.
   */
  lemma {:induction false} HandlerQuitsIff(script: Script, run: seq<State>, moves: seq<Move>, j: nat)
    requires Run(script, run, moves) && j < |run|
    ensures HandlerQuit(run[j]) <==> QuitBefore(run, moves, j)
  {
    if j > 0 {
      HandlerQuitsIff(script, run, moves, j - 1);
      RunStep(script, run, moves, j - 1);
      QuitStep(script, run[j - 1], moves[j - 1]);
      QuitBeforeSnoc(run, moves, j - 1);
    }
  }

  lemma QuitBeforeSnoc(run: seq<State>, moves: seq<Move>, j: nat)
    requires |run| == |moves| + 1 && j < |moves|
    ensures QuitBefore(run, moves, j + 1) <==> QuitBefore(run, moves, j) || Quits(run[j], moves[j])
  {
    if QuitBefore(run, moves, j) {
      var i :| 0 <= i < j && Quits(run[i], moves[i]);
      assert Quits(run[i], moves[i]);
    }
  }

  lemma QuitMove(script: Script, s: State, m: Move)
    requires HandlerQuit(s) && Enabled(script, s, m)
    ensures !PullMove(m) && !WriteMove(m) && After(script, s, m).pulled == s.pulled
  {
    if HandlerMove(m) {
      match m
      case Unlock => case RunRelease => case RunStop => case RunClose => case Return => case AwaitExit =>
    } else {
      BeatLeavesHandler(script, s, m);
    }
  }

  lemma QuittingKeepsPulled(script: Script, s: State, m: Move)
    requires Enabled(script, s, m) && Quits(s, m)
    ensures After(script, s, m).pulled == s.pulled
  {
    match m
    case PullEnd => case WriteFails => case Lock => case WriteDone =>
  }

  /**
   After a failed write, as after the other reasons to give up, the handler pulls nothing more from the
   stream and neither takes the mutex to write nor writes a byte, however the two threads interleave.
   */
  lemma FailedWriteStopsHandler(script: Script, run: seq<State>, moves: seq<Move>, i: nat, j: nat)
    requires Run(script, run, moves) && i < j < |moves| && Quits(run[i], moves[i])
    ensures moves[j] !in {PullEvent, PullFailure, PullEnd, Lock, WriteByte, WriteDone, WriteFails}
    ensures run[j].pulled == run[i].pulled
  {
    RunStep(script, run, moves, i);
    QuitStep(script, run[i], moves[i]);
    QuittingKeepsPulled(script, run[i], moves[i]);
    for k := i + 1 to j
      invariant HandlerQuit(run[k]) && run[k].pulled == run[i].pulled
    {
      RunStep(script, run, moves, k);
      QuitMove(script, run[k], moves[k]);
      QuitStep(script, run[k], moves[k]);
    }
    RunStep(script, run, moves, j);
    QuitMove(script, run[j], moves[j]);
  }

  // ------------------------------------------------------------------
  // The goroutine
  // ------------------------------------------------------------------

  /** The goroutine is on its way out: it will write no more. */
  predicate BeatQuit(s: State) {
    s.b == Releasing(false) || s.b == Exiting || s.b == Exited
  }

  lemma BeatQuitStep(script: Script, s: State, m: Move)
    requires Enabled(script, s, m)
    ensures BeatQuit(After(script, s, m)) <==> BeatQuit(s) || m == BeatFails || m == BeatStops
  {
    if HandlerMove(m) {
      HandlerLeavesBeat(script, s, m);
    } else {
      match m
      case BeatStops => case BeatLocks => case BeatByte => case BeatDone => case BeatFails => case BeatUnlocks =>
      case BeatExits => case Tick => case Cancel =>
    }
  }

  predicate BeatQuitBefore(moves: seq<Move>, j: nat)
    requires j <= |moves|
  {
    BeatFails in moves[..j] || BeatStops in moves[..j]
  }

  /**
   In every interleaving the goroutine is on its way out exactly from its first failed write, or its
   first look at a closed channel, on; a failed write of the handler alone does not end it.
   */
  lemma {:induction false} BeatQuitsIff(script: Script, run: seq<State>, moves: seq<Move>, j: nat)
    requires Run(script, run, moves) && j < |run|
    ensures BeatQuit(run[j]) <==> BeatQuitBefore(moves, j)
  {
    if j > 0 {
      BeatQuitsIff(script, run, moves, j - 1);
      RunStep(script, run, moves, j - 1);
      BeatQuitStep(script, run[j - 1], moves[j - 1]);
      TakeSnoc(moves, j - 1);
    }
  }

  /** After a failed keep-alive, or once it saw a closed channel, the goroutine writes no byte more. */
  lemma FailedBeatStops(script: Script, run: seq<State>, moves: seq<Move>, i: nat, j: nat)
    requires Run(script, run, moves) && i < j < |moves| && (moves[i] == BeatFails || moves[i] == BeatStops)
    ensures moves[j] !in {Tick, BeatLocks, BeatByte, BeatDone, BeatFails, BeatStops}
  {
    BeatQuitsIff(script, run, moves, j);
    assert moves[..j][i] == moves[i];
    RunStep(script, run, moves, j);
    BeatQuitMove(script, run[j], moves[j]);
  }

  lemma BeatQuitMove(script: Script, s: State, m: Move)
    requires BeatQuit(s) && Enabled(script, s, m)
    ensures m !in {Tick, BeatLocks, BeatByte, BeatDone, BeatFails, BeatStops}
  {
  }

  /** Closed exactly when the stop function has run while there is a goroutine to stop. */
  lemma {:induction false} StopsOnlyWhen(script: Script, run: seq<State>, moves: seq<Move>, j: nat)
    requires Run(script, run, moves) && j < |run|
    ensures run[j].doneClosed <==> run[0].b != Off && RunStop in moves[..j]
    ensures run[j].cancelled <==> run[0].cancelled || Cancel in moves[..j]
    ensures run[j].b == Off <==> run[0].b == Off
  {
    if j > 0 {
      StopsOnlyWhen(script, run, moves, j - 1);
      RunStep(script, run, moves, j - 1);
      SignalStep(script, run[j - 1], moves[j - 1]);
      TakeSnoc(moves, j - 1);
    }
  }

  lemma SignalStep(script: Script, s: State, m: Move)
    requires Enabled(script, s, m)
    ensures var t := After(script, s, m);
            && (t.doneClosed <==> s.doneClosed || (m == RunStop && s.b != Off))
            && (t.cancelled <==> s.cancelled || m == Cancel)
            && (t.b == Off <==> s.b == Off)
  {
    if HandlerMove(m) {
      HandlerLeavesBeat(script, s, m);
      HandlerSignals(script, s, m);
    } else {
      match m
      case BeatStops => case BeatLocks => case BeatByte => case BeatDone => case BeatFails =>
      case BeatUnlocks => case BeatExits => case Tick => case Cancel =>
    }
  }

  lemma HandlerSignals(script: Script, s: State, m: Move)
    requires HandlerMove(m) && Enabled(script, s, m)
    ensures var t := After(script, s, m);
            (t.doneClosed <==> s.doneClosed || (m == RunStop && s.b != Off)) && t.cancelled == s.cancelled
  {
    match m
    case PullEvent => case PullFailure => case PullEnd => case Lock => case WriteByte => case WriteDone =>
    case WriteFails => case Unlock => case RunRelease => case RunStop => case RunClose => case Return =>
    case AwaitExit =>
  }

  /**
   The goroutine can leave of itself exactly while it is between ticks and the handler has run the stop
   function or the request's context has ended.
   */
  lemma BeatCanStopIff(script: Script, run: seq<State>, moves: seq<Move>, i: nat)
    requires Run(script, run, moves) && i < |run|
    ensures Enabled(script, run[i], BeatStops) <==>
            run[i].b == Idle && (RunStop in moves[..i] || run[0].cancelled || Cancel in moves[..i])
  {
    StopsOnlyWhen(script, run, moves, i);
  }

  // ------------------------------------------------------------------
  // Undisturbed rounds
  // ------------------------------------------------------------------

  lemma LeadsCons(script: Script, s: State, m: Move, moves: seq<Move>, t: State)
    requires ThreadMove(m) && Enabled(script, s, m) && Leads(script, After(script, s, m), moves, t)
    ensures Leads(script, s, [m] + moves, t)
  {
    assert ([m] + moves)[1..] == moves;
  }

  /** The state once the keep-alive being written, or the event frame, is out whole. */
  function Beaten(s: State): State
    requires s.b.Beating? && s.b.sent <= |KEEP_ALIVE|
  {
    s.(out := s.out + KEEP_ALIVE[s.b.sent..], clean := s.clean + [KeepAlive], lock := Nobody, b := Idle)
  }

  function Written(s: State): State
    requires s.h.Writing? && s.h.sent <= |Frame(s.h.payload)|
  {
    s.(out := s.out + Frame(s.h.payload)[s.h.sent..], clean := s.clean + [Payload(s.h.payload)],
       delivered := s.delivered + 1, lock := Nobody, h := Pulling)
  }

  lemma BeatEnds(script: Script, s: State)
    requires s.b == Beating(|KEEP_ALIVE|) && !s.tainted
    ensures Leads(script, s, [BeatDone, BeatUnlocks], Beaten(s))
  {
    AppendNil(s.out);
    var done := After(script, s, BeatDone);
    assert After(script, done, BeatUnlocks) == Beaten(s);
    LeadsCons(script, done, BeatUnlocks, [], Beaten(s));
    LeadsCons(script, s, BeatDone, [BeatUnlocks], Beaten(s));
  }

  lemma BeatByteBeaten(script: Script, s: State)
    requires s.b.Beating? && s.b.sent < |KEEP_ALIVE|
    ensures Enabled(script, s, BeatByte) && ThreadMove(BeatByte)
    ensures var next := After(script, s, BeatByte);
            next.b == Beating(s.b.sent + 1) && next.tainted == s.tainted && Beaten(next) == Beaten(s)
  {
    Uncons(KEEP_ALIVE[s.b.sent..]);
    Assoc(s.out, [KEEP_ALIVE[s.b.sent]], KEEP_ALIVE[s.b.sent + 1..]);
  }

  lemma {:induction false} BeatFinishes(script: Script, s: State) returns (moves: seq<Move>)
    requires s.b.Beating? && s.b.sent <= |KEEP_ALIVE| && !s.tainted
    ensures Leads(script, s, moves, Beaten(s))
    decreases |KEEP_ALIVE| - s.b.sent
  {
    if s.b.sent == |KEEP_ALIVE| {
      BeatEnds(script, s);
      moves := [BeatDone, BeatUnlocks];
    } else {
      BeatByteBeaten(script, s);
      moves := BeatFinishes(script, After(script, s, BeatByte));
      LeadsCons(script, s, BeatByte, moves, Beaten(s));
      moves := [BeatByte] + moves;
    }
  }

  /** A tick that meets a free mutex and a sound connection sends one whole keep-alive, and nothing else changes. */
  lemma BeatRound(script: Script, s: State) returns (moves: seq<Move>)
    requires s.b == Idle && s.lock == Nobody && !s.tainted
    ensures Enabled(script, s, Tick)
    ensures Leads(script, After(script, s, Tick), moves, s.(out := s.out + KEEP_ALIVE, clean := s.clean + [KeepAlive]))
  {
    var waiting := After(script, s, Tick);
    var beating := After(script, waiting, BeatLocks);
    moves := BeatFinishes(script, beating);
    LeadsCons(script, waiting, BeatLocks, moves, s.(out := s.out + KEEP_ALIVE, clean := s.clean + [KeepAlive]));
    moves := [BeatLocks] + moves;
  }

  lemma WriteEnds(script: Script, s: State)
    requires s.h.Writing? && s.h.sent == |Frame(s.h.payload)| && !s.h.last && !s.tainted
    ensures Leads(script, s, [WriteDone, Unlock], Written(s))
  {
    AppendNil(s.out);
    var done := After(script, s, WriteDone);
    assert After(script, done, Unlock) == Written(s);
    LeadsCons(script, done, Unlock, [], Written(s));
    LeadsCons(script, s, WriteDone, [Unlock], Written(s));
  }

  lemma WriteByteWritten(script: Script, s: State)
    requires s.h.Writing? && s.h.sent < |Frame(s.h.payload)|
    ensures Enabled(script, s, WriteByte) && ThreadMove(WriteByte)
    ensures var next := After(script, s, WriteByte);
            next.h == s.h.(sent := s.h.sent + 1) && next.tainted == s.tainted && Written(next) == Written(s)
  {
    var frame := Frame(s.h.payload);
    Uncons(frame[s.h.sent..]);
    Assoc(s.out, [frame[s.h.sent]], frame[s.h.sent + 1..]);
  }

  lemma {:induction false} WriteFinishes(script: Script, s: State) returns (moves: seq<Move>)
    requires s.h.Writing? && s.h.sent <= |Frame(s.h.payload)| && !s.h.last && !s.tainted
    ensures Leads(script, s, moves, Written(s))
    decreases |Frame(s.h.payload)| - s.h.sent
  {
    if s.h.sent == |Frame(s.h.payload)| {
      WriteEnds(script, s);
      moves := [WriteDone, Unlock];
    } else {
      WriteByteWritten(script, s);
      moves := WriteFinishes(script, After(script, s, WriteByte));
      LeadsCons(script, s, WriteByte, moves, Written(s));
      moves := [WriteByte] + moves;
    }
  }

  /** An event pulled while the mutex is free and the connection sound goes out as one whole frame. */
  lemma HandlerRound(script: Script, s: State) returns (moves: seq<Move>)
    requires s.h == Pulling && s.lock == Nobody && !s.tainted && s.pulled < |script.events|
    requires script.events[s.pulled].Encoded?
    ensures var payload := script.events[s.pulled].payload;
            Leads(script, s, moves, s.(out := s.out + Frame(payload), clean := s.clean + [Payload(payload)],
                                       pulled := s.pulled + 1, delivered := s.delivered + 1))
  {
    var payload := script.events[s.pulled].payload;
    var t := s.(out := s.out + Frame(payload), clean := s.clean + [Payload(payload)],
                pulled := s.pulled + 1, delivered := s.delivered + 1);
    var wanting := After(script, s, PullEvent);
    var writing := After(script, wanting, Lock);
    moves := WriteFinishes(script, writing);
    assert Frame(payload)[0..] == Frame(payload);
    LeadsCons(script, wanting, Lock, moves, t);
    LeadsCons(script, s, PullEvent, [Lock] + moves, t);
    moves := [PullEvent] + ([Lock] + moves);
  }
}
