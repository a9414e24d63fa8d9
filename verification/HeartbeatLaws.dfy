/** What every interleaving of the stream handler and its heartbeat guarantees. */
module HeartbeatLaws {
  import opened Bytes
  import opened Heartbeat
  import opened Seqs
  import opened SseLaws
  import opened Wrappers
  import Sse

  lemma InitInv(script: Script, s: State)
    requires Init(s)
    ensures Inv(script, s)
  {
    AppendNil(Render(s.clean));
  }

  lemma RunStep(script: Script, run: seq<State>, moves: seq<Move>, i: nat)
    requires Run(script, run, moves) && i < |moves|
    ensures |run| == |moves| + 1 && Enabled(script, run[i], moves[i])
    ensures run[i + 1] == After(script, run[i], moves[i])
  {
  }

  lemma {:induction false} RunKeepsInv(script: Script, run: seq<State>, moves: seq<Move>, i: nat)
    requires Run(script, run, moves) && i < |run|
    ensures Inv(script, run[i])
  {
    if i == 0 {
      InitInv(script, run[0]);
    } else {
      RunKeepsInv(script, run, moves, i - 1);
      RunStep(script, run, moves, i - 1);
      MoveKeepsInv(script, run[i - 1], moves[i - 1]);
    }
  }

  // ------------------------------------------------------------------
  // Exclusion
  // ------------------------------------------------------------------

  /** In every state of every run at most one thread writes, and it holds the mutex. */
  lemma MutualExclusion(script: Script, run: seq<State>, moves: seq<Move>, i: nat)
    requires Run(script, run, moves) && i < |run|
    ensures var s := run[i];
            && !(s.h.Writing? && s.b.Beating?)
            && (s.h.Writing? ==> s.lock == TheHandler)
            && (s.b.Beating? ==> s.lock == TheBeat)
  {
    RunKeepsInv(script, run, moves, i);
  }

  /** While the handler waits for the goroutine it does not hold the mutex. */
  lemma WaitingNeverHolds(script: Script, run: seq<State>, moves: seq<Move>, i: nat)
    requires Run(script, run, moves) && i < |run| && run[i].h == Waiting
    ensures run[i].lock != TheHandler && run[i].doneClosed
  {
    RunKeepsInv(script, run, moves, i);
  }

  /** Only a thread that is in the middle of a frame writes. */
  lemma SilentHandlerMove(script: Script, s: State, m: Move)
    requires Enabled(script, s, m) && (PullMove(m) || LeaveMove(m) || m == RunStop || m == Lock || m == WriteDone)
    ensures After(script, s, m).out == s.out
  {
    match m {
      case PullEvent =>
      case PullFailure =>
      case PullEnd =>
      case Unlock =>
      case RunRelease =>
      case RunClose =>
      case Return =>
      case AwaitExit =>
      case RunStop =>
      case Lock =>
      case WriteDone =>
    }
  }

  lemma SilentBeatMove(script: Script, s: State, m: Move)
    requires Enabled(script, s, m) && (BeatOtherMove(m) || m == BeatLocks || m == BeatDone)
    ensures After(script, s, m).out == s.out
  {
    match m {
      case BeatStops =>
      case BeatUnlocks =>
      case BeatExits =>
      case Tick =>
      case Cancel =>
      case BeatLocks =>
      case BeatDone =>
    }
  }

  lemma SilentMove(script: Script, s: State, m: Move)
    requires Enabled(script, s, m) && !s.h.Writing? && !s.b.Beating?
    ensures After(script, s, m).out == s.out
  {
    if HandlerMove(m) {
      SilentHandlerMove(script, s, m);
    } else {
      SilentBeatMove(script, s, m);
    }
  }

  /** Once the handler has returned the goroutine is gone, the mutex free and the stream closed. */
  lemma ReturnedIsAlone(script: Script, run: seq<State>, moves: seq<Move>, i: nat)
    requires Run(script, run, moves) && i < |run| && run[i].h == Returned
    ensures (run[i].b == Off || run[i].b == Exited) && run[i].lock == Nobody && run[i].streamClosed
  {
    RunKeepsInv(script, run, moves, i);
  }

  lemma QuietStep(script: Script, run: seq<State>, moves: seq<Move>, i: nat)
    requires Run(script, run, moves) && i < |moves| && run[i].h == Returned
    ensures i + 1 < |run| && run[i + 1].h == Returned && run[i + 1].out == run[i].out
  {
    ReturnedIsAlone(script, run, moves, i);
    RunStep(script, run, moves, i);
    StillAfterReturn(script, run[i], moves[i], run[i + 1]);
  }

  /** Once the handler has returned nothing is ever written again. */
  lemma QuietAfterReturn(script: Script, run: seq<State>, moves: seq<Move>, i: nat, j: nat)
    requires Run(script, run, moves) && i <= j < |run| && run[i].h == Returned
    ensures run[j].h == Returned && run[j].out == run[i].out
  {
    for k := i to j
      invariant run[k].h == Returned && run[k].out == run[i].out
    {
      QuietStep(script, run, moves, k);
    }
  }

  lemma ReturnedForGood(script: Script, s: State, m: Move)
    requires s.h == Returned && Enabled(script, s, m)
    ensures After(script, s, m).h == Returned
  {
    match m {
      case BeatLocks =>
      case BeatByte =>
      case BeatDone =>
      case BeatFails =>
      case BeatStops =>
      case BeatUnlocks =>
      case BeatExits =>
      case Tick =>
      case Cancel =>
    }
  }

  lemma StillAfterReturn(script: Script, s: State, m: Move, t: State)
    requires s.h == Returned && !s.b.Beating? && Enabled(script, s, m) && t == After(script, s, m)
    ensures t.h == Returned && t.out == s.out
  {
    SilentMove(script, s, m);
    ReturnedForGood(script, s, m);
  }

  // ------------------------------------------------------------------
  // Progress
  // ------------------------------------------------------------------

  /** A move some thread can make without waiting for the ticker. */
  function Ready(script: Script, s: State): Move {
    match s.h
    case Pulling =>
      if s.pulled < |script.events| then PullEvent else if script.failure.Some? then PullFailure else PullEnd
    case Wanting(_, _) => if s.lock == Nobody then Lock else BeatReady(s)
    case Writing(p, sent, _) => if sent < |Frame(p)| then WriteByte else WriteDone
    case Unlocking(_) => Unlock
    case Leaving =>
      (match s.deferred
       case Empty => Return
       case Push(ReleaseLock, _) => RunRelease
       case Push(StopBeat, _) => RunStop
       case Push(CloseStream, _) => RunClose)
    case Waiting => if s.exitedClosed then AwaitExit else BeatReady(s)
    case Returned => Cancel
  }

  function BeatReady(s: State): Move {
    match s.b
    case Idle => BeatStops
    case Blocked => BeatLocks
    case Beating(sent) => if sent < |KEEP_ALIVE| then BeatByte else BeatDone
    case Releasing(_) => BeatUnlocks
    case Exiting => BeatExits
    case _ => Cancel
  }

  /** No deadlock: until the handler has returned, some thread can move without a tick. */
  lemma NoDeadlock(script: Script, s: State)
    requires Inv(script, s) && s.h != Returned
    ensures ThreadMove(Ready(script, s)) && Enabled(script, s, Ready(script, s))
  {
  }

  /** Bytes an event's frame takes; an event that does not marshal takes none. */
  function FrameSize(item: Encoding): nat {
    if item.Encoded? then |Frame(item.payload)| else 0
  }

  /** Moves the handler can still make once it pulls event n. */
  function HandlerBudget(script: Script, n: nat): nat
    requires n <= |script.events|
    decreases |script.events| - n
  {
    if n == |script.events| then 8 + (if script.failure.Some? then FrameSize(script.failure.value) + 4 else 0)
    else HandlerBudget(script, n + 1) + FrameSize(script.events[n]) + 4
  }

  function StackSize(deferred: Stack): nat {
    if deferred == Empty then 0 else 1 + StackSize(deferred.below)
  }

  function HandlerMeasure(script: Script, s: State): int
    requires s.pulled <= |script.events|
  {
    HandlerMoves(s, HandlerBudget(script, s.pulled))
  }

  /** Moves the handler can still make, given a budget for what it has not pulled yet. */
  function HandlerMoves(s: State, budget: nat): int {
    match s.h
    case Pulling => budget
    case Wanting(item, last) => FrameSize(item) + (if last then 11 else budget + 3)
    case Writing(p, sent, last) => |Frame(p)| - sent + (if last then 9 else budget + 2)
    case Unlocking(ok) => if ok then budget + 1 else 8
    case Leaving => 2 * StackSize(s.deferred) + 1
    case Waiting => 2 * StackSize(s.deferred) + 2
    case Returned => 0
  }

  function BeatMeasure(s: State): int {
    match s.b
    case Idle => 2
    case Blocked => |KEEP_ALIVE| + 5
    case Beating(sent) => |KEEP_ALIVE| - sent + 4
    case Releasing(_) => 3
    case Exiting => 1
    case _ => 0
  }

  /** A bound on the moves the two threads can still make without a tick. */
  function Measure(script: Script, s: State): int
    requires s.pulled <= |script.events|
  {
    HandlerMeasure(script, s) + BeatMeasure(s)
  }

  lemma {:induction false} BudgetAtLeast(script: Script, n: nat)
    requires n <= |script.events|
    ensures HandlerBudget(script, n) >= 8
    decreases |script.events| - n
  {
    if n < |script.events| {
      BudgetAtLeast(script, n + 1);
    }
  }

  lemma MeasureIsNatural(script: Script, s: State)
    requires Inv(script, s)
    ensures Measure(script, s) >= 0
  {
    BudgetAtLeast(script, s.pulled);
  }

  lemma StackSizes()
    ensures StackSize(CLOSING) == 1 && StackSize(STOPPING) == 2 && StackSize(RELEASING) == 3
  {
  }

  lemma PullMovesDecrease(script: Script, s: State, m: Move)
    requires SafetyInv(s) && s.pulled <= |script.events| && Enabled(script, s, m)
    requires PullMove(m)
    ensures var t := After(script, s, m);
            && t.pulled <= |script.events|
            && HandlerMeasure(script, t) < HandlerMeasure(script, s)
            && BeatMeasure(t) == BeatMeasure(s)
  {
    StackSizes();
    match m {
      case PullEvent =>
      case PullFailure =>
      case PullEnd =>
    }
  }

  // The other moves leave what is still to be pulled alone.

  lemma LockDecreases(script: Script, s: State, m: Move, budget: nat)
    requires SafetyInv(s) && WritersOk(s) && budget >= 8 && Enabled(script, s, m)
    requires m == Lock
    ensures var t := After(script, s, m);
            && t.pulled == s.pulled
            && HandlerMoves(t, budget) < HandlerMoves(s, budget)
            && BeatMeasure(t) == BeatMeasure(s)
  {
    StackSizes();
    if s.h.item.Encoded? {
      assert After(script, s, m).h == Writing(s.h.item.payload, 0, s.h.last);
    }
  }

  lemma WriteMovesDecrease(script: Script, s: State, m: Move, budget: nat)
    requires SafetyInv(s) && WritersOk(s) && budget >= 8 && Enabled(script, s, m)
    requires WriteMove(m) && m != Lock
    ensures var t := After(script, s, m);
            && t.pulled == s.pulled
            && HandlerMoves(t, budget) < HandlerMoves(s, budget)
            && BeatMeasure(t) == BeatMeasure(s)
  {
    StackSizes();
    match m {
      case WriteByte =>
      case WriteDone =>
      case WriteFails =>
    }
  }

  lemma UnlockDecreases(script: Script, s: State, m: Move, budget: nat)
    requires SafetyInv(s) && budget >= 8 && Enabled(script, s, m)
    requires m == Unlock
    ensures var t := After(script, s, m);
            && t.pulled == s.pulled
            && HandlerMoves(t, budget) < HandlerMoves(s, budget)
            && BeatMeasure(t) == BeatMeasure(s)
  {
    StackSizes();
  }

  lemma LeaveMovesDecrease(script: Script, s: State, m: Move, budget: nat)
    requires SafetyInv(s) && budget >= 8 && Enabled(script, s, m)
    requires LeaveMove(m) && m != Unlock
    ensures var t := After(script, s, m);
            && t.pulled == s.pulled
            && HandlerMoves(t, budget) < HandlerMoves(s, budget)
            && BeatMeasure(t) == BeatMeasure(s)
  {
    match m {
      case RunRelease =>
      case RunClose =>
      case Return =>
      case AwaitExit =>
    }
  }

  lemma StopDecreases(script: Script, s: State, m: Move, budget: nat)
    requires SafetyInv(s) && budget >= 8 && Enabled(script, s, m)
    requires m == RunStop
    ensures var t := After(script, s, m);
            && t.pulled == s.pulled
            && HandlerMoves(t, budget) < HandlerMoves(s, budget)
            && BeatMeasure(t) == BeatMeasure(s)
  {
  }

  lemma BeatWritesDecrease(script: Script, s: State, m: Move)
    requires WritersOk(s) && s.pulled <= |script.events| && Enabled(script, s, m)
    requires BeatWriteMove(m)
    ensures var t := After(script, s, m);
            && t.pulled == s.pulled
            && HandlerMeasure(script, t) == HandlerMeasure(script, s)
            && BeatMeasure(t) < BeatMeasure(s)
  {
    match m {
      case BeatLocks =>
      case BeatByte =>
      case BeatDone =>
      case BeatFails =>
    }
  }

  lemma BeatMovesDecrease(script: Script, s: State, m: Move)
    requires WritersOk(s) && s.pulled <= |script.events| && Enabled(script, s, m)
    requires m == BeatStops || m == BeatUnlocks || m == BeatExits
    ensures var t := After(script, s, m);
            && t.pulled == s.pulled
            && HandlerMeasure(script, t) == HandlerMeasure(script, s)
            && BeatMeasure(t) < BeatMeasure(s)
  {
    match m {
      case BeatStops =>
      case BeatUnlocks =>
      case BeatExits =>
    }
  }

  /** Every move a thread makes without a tick uses up some of a bounded budget. */
  lemma ThreadMovesDecrease(script: Script, s: State, m: Move)
    requires Inv(script, s) && ThreadMove(m) && Enabled(script, s, m)
    ensures Inv(script, After(script, s, m))
    ensures 0 <= Measure(script, After(script, s, m)) < Measure(script, s)
  {
    MoveKeepsInv(script, s, m);
    MeasureIsNatural(script, After(script, s, m));
    BudgetAtLeast(script, s.pulled);
    if PullMove(m) {
      PullMovesDecrease(script, s, m);
    } else if m == Lock {
      LockDecreases(script, s, m, HandlerBudget(script, s.pulled));
    } else if WriteMove(m) {
      WriteMovesDecrease(script, s, m, HandlerBudget(script, s.pulled));
    } else if m == Unlock {
      UnlockDecreases(script, s, m, HandlerBudget(script, s.pulled));
    } else if LeaveMove(m) {
      LeaveMovesDecrease(script, s, m, HandlerBudget(script, s.pulled));
    } else if m == RunStop {
      StopDecreases(script, s, m, HandlerBudget(script, s.pulled));
    } else if BeatWriteMove(m) {
      BeatWritesDecrease(script, s, m);
    } else {
      BeatMovesDecrease(script, s, m);
    }
  }

  /** The state after making the given moves, each enabled in turn. */
  predicate Leads(script: Script, s: State, moves: seq<Move>, t: State)
    decreases |moves|
  {
    if moves == [] then s == t
    else
      && ThreadMove(moves[0]) && Enabled(script, s, moves[0])
      && Leads(script, After(script, s, moves[0]), moves[1..], t)
  }

  /**
   However the two threads interleave, without ticks they make at most the budgeted number of moves,
   and if no thread can move any more the handler has returned.
   */
  lemma {:induction false} Terminates(script: Script, s: State, moves: seq<Move>, t: State)
    requires Inv(script, s) && Leads(script, s, moves, t)
    ensures Inv(script, t)
    ensures |moves| <= Measure(script, s)
    ensures (forall m :: ThreadMove(m) ==> !Enabled(script, t, m)) ==> t.h == Returned
    decreases |moves|
  {
    if moves == [] {
      MeasureIsNatural(script, s);
      if t.h != Returned {
        NoDeadlock(script, t);
      }
    } else {
      ThreadMovesDecrease(script, s, moves[0]);
      Terminates(script, After(script, s, moves[0]), moves[1..], t);
    }
  }

  /** From every reachable state the threads alone can bring the handler to return. */
  lemma {:induction false} CanReturn(script: Script, s: State) returns (moves: seq<Move>, t: State)
    requires Inv(script, s)
    ensures Leads(script, s, moves, t) && t.h == Returned
    decreases MeasureOf(script, s)
  {
    if s.h == Returned {
      return [], s;
    }
    var m := Ready(script, s);
    NoDeadlock(script, s);
    ThreadMovesDecrease(script, s, m);
    var rest;
    rest, t := CanReturn(script, After(script, s, m));
    moves := [m] + rest;
    assert moves[1..] == rest;
  }

  function MeasureOf(script: Script, s: State): nat {
    if s.pulled <= |script.events| && Measure(script, s) >= 0 then Measure(script, s) else 0
  }

  // ------------------------------------------------------------------
  // Why the unlock is deferred after the stop
  // ------------------------------------------------------------------

  /** The handler waits for the goroutine while holding the mutex the goroutine waits for. */
  predicate Embraced(s: State) {
    s.h == Waiting && s.lock == TheHandler && s.b == Blocked && !s.exitedClosed
  }

  /** The handler with the two deferred calls of the error path the other way round. */
  function AfterSwapped(script: Script, s: State, m: Move): State
    requires Enabled(script, s, m)
  {
    var t := After(script, s, m);
    if m == Lock && s.h.last then t.(deferred := SWAPPED) else t
  }

  /** The state after the given moves of that handler, each enabled in turn. */
  predicate LeadsSwapped(script: Script, s: State, moves: seq<Move>, t: State)
    decreases |moves|
  {
    if moves == [] then s == t
    else Enabled(script, s, moves[0]) && LeadsSwapped(script, AfterSwapped(script, s, moves[0]), moves[1..], t)
  }

  const SWAPPED := Push(StopBeat, Push(ReleaseLock, CLOSING))

  /** The swapped handler holds the mutex on its error path and the goroutine waits for it. */
  predicate Entangled(s: State) {
    && (s.h == Leaving || (s.h.Writing? && s.h.last)) && s.deferred == SWAPPED
    && s.lock == TheHandler && s.b == Blocked && !s.exitedClosed
  }

  lemma StopEmbraces(script: Script, s: State) returns (moves: seq<Move>, t: State)
    requires Entangled(s) && s.h == Leaving
    ensures LeadsSwapped(script, s, moves, t) && Embraced(t)
  {
    t := AfterSwapped(script, s, RunStop);
    SwappedCons(script, s, RunStop, [], t);
    moves := [RunStop] + [];
  }

  lemma EntangledEmbraces(script: Script, s: State) returns (moves: seq<Move>, t: State)
    requires Entangled(s)
    ensures LeadsSwapped(script, s, moves, t) && Embraced(t)
  {
    if s.h == Leaving {
      moves, t := StopEmbraces(script, s);
    } else {
      moves, t := StopEmbraces(script, AfterSwapped(script, s, WriteFails));
      SwappedCons(script, s, WriteFails, moves, t);
      moves := [WriteFails] + moves;
    }
  }

  lemma TickEntangles(script: Script, s: State) returns (moves: seq<Move>, t: State)
    requires s.b == Idle && Entangled(s.(b := Blocked))
    ensures LeadsSwapped(script, s, moves, t) && Embraced(t)
  {
    moves, t := EntangledEmbraces(script, AfterSwapped(script, s, Tick));
    SwappedCons(script, s, Tick, moves, t);
    moves := [Tick] + moves;
  }

  /** From an error path with the goroutine waiting for a tick or for the mutex, the two can embrace. */
  lemma SwappedCanEmbrace(script: Script, s: State) returns (moves: seq<Move>, t: State)
    requires s.h.Wanting? && s.h.last && s.lock == Nobody && !s.exitedClosed && (s.b == Idle || s.b == Blocked)
    ensures LeadsSwapped(script, s, moves, t) && Embraced(t)
  {
    var locked := AfterSwapped(script, s, Lock);
    if s.b == Idle {
      moves, t := TickEntangles(script, locked);
    } else {
      moves, t := EntangledEmbraces(script, locked);
    }
    SwappedCons(script, s, Lock, moves, t);
    moves := [Lock] + moves;
  }

  lemma SwappedCons(script: Script, s: State, m: Move, moves: seq<Move>, t: State)
    requires Enabled(script, s, m) && LeadsSwapped(script, AfterSwapped(script, s, m), moves, t)
    ensures LeadsSwapped(script, s, [m] + moves, t)
  {
    assert ([m] + moves)[1..] == moves;
  }

  predicate BeatGone(s: State) {
    s.b == Off || s.b == Exiting || s.b == Exited
  }

  lemma StaysGone(script: Script, s: State, m: Move)
    requires BeatGone(s) && Enabled(script, s, m)
    ensures BeatGone(AfterSwapped(script, s, m))
  {
    if HandlerMove(m) {
      HandlerLeavesBeat(script, s, m);
    }
  }

  lemma HandlerLeavesBeat(script: Script, s: State, m: Move)
    requires HandlerMove(m) && Enabled(script, s, m)
    ensures After(script, s, m).b == s.b
  {
    match m
    case PullEvent => case PullFailure => case PullEnd => case Lock => case WriteByte => case WriteDone =>
    case WriteFails => case Unlock => case RunRelease => case RunStop => case RunClose => case Return =>
    case AwaitExit =>
  }

  lemma {:induction false} GoneNeverEmbraces(script: Script, s: State, moves: seq<Move>, t: State)
    requires BeatGone(s) && LeadsSwapped(script, s, moves, t)
    ensures !Embraced(t)
    decreases |moves|
  {
    if moves != [] {
      StaysGone(script, s, moves[0]);
      GoneNeverEmbraces(script, AfterSwapped(script, s, moves[0]), moves[1..], t);
    }
  }

  ghost predicate SwappedInto(script: Script, s: State, moves: seq<Move>, t: State) {
    LeadsSwapped(script, s, moves, t) && Embraced(t)
  }

  ghost predicate CanEmbrace(script: Script, s: State) {
    exists moves, t :: SwappedInto(script, s, moves, t)
  }

  /**
   Were the stop to run before the unlock, then a handler about to take the mutex on its error path could
   end up waiting for a goroutine that waits for that mutex, exactly when the goroutine is there and has
   not begun to leave.
   */
  lemma SwappedDefersEmbraceIff(script: Script, s: State)
    requires SafetyInv(s) && s.h.Wanting? && s.h.last && s.lock == Nobody
    ensures CanEmbrace(script, s) <==> s.b == Idle || s.b == Blocked
  {
    if s.b == Idle || s.b == Blocked {
      var moves, t := SwappedCanEmbrace(script, s);
      assert SwappedInto(script, s, moves, t);
    } else if CanEmbrace(script, s) {
      var moves, t :| SwappedInto(script, s, moves, t);
      GoneNeverEmbraces(script, s, moves, t);
      assert false;
    }
  }

  /** Nothing either thread can do ever ends such an embrace. */
  lemma EmbraceIsForever(script: Script, s: State, m: Move)
    requires Embraced(s) && Enabled(script, s, m)
    ensures !ThreadMove(m) && Embraced(After(script, s, m)) && After(script, s, m) == AfterSwapped(script, s, m)
  {
  }

  // ------------------------------------------------------------------
  // What the client decodes
  // ------------------------------------------------------------------

  /** Every payload the script can produce is one line, as JSON is. */
  predicate OneLineScript(script: Script) {
    && (forall i :: 0 <= i < |script.events| && script.events[i].Encoded? ==> OneLine(script.events[i].payload))
    && (script.failure.Some? && script.failure.value.Encoded? ==> OneLine(script.failure.value.payload))
  }

  lemma {:induction false} EventPayloadsOneLine(script: Script, n: nat)
    requires OneLineScript(script) && n <= |script.events|
    ensures forall i :: 0 <= i < |EventPayloads(script.events, n)| ==> OneLine(EventPayloads(script.events, n)[i])
  {
    if n > 0 {
      EventPayloadsOneLine(script, n - 1);
    }
  }

  lemma {:induction false} PiecesOneLine(pieces: seq<Piece>)
    requires forall i :: 0 <= i < |PayloadsOf(pieces)| ==> OneLine(PayloadsOf(pieces)[i])
    ensures OneLinePieces(pieces)
  {
    if pieces != [] {
      var front, last := pieces[..|pieces| - 1], pieces[|pieces| - 1];
      var before := PayloadsOf(front);
      assert forall i :: 0 <= i < |before| ==> before[i] == PayloadsOf(pieces)[i];
      PiecesOneLine(front);
      if last.Payload? {
        assert PayloadsOf(pieces)[|before|] == last.payload;
      }
      forall i | 0 <= i < |pieces| && pieces[i].Payload? ensures OneLine(pieces[i].payload) {
        if i < |front| {
          assert front[i] == pieces[i];
        }
      }
    }
  }

  lemma CleanOneLine(script: Script, s: State)
    requires OneLineScript(script) && LogOk(script, s)
    ensures OneLinePieces(s.clean)
  {
    EventPayloadsOneLine(script, s.delivered);
    PiecesOneLine(s.clean);
  }

  /**
   At any moment, in any interleaving, the output begins with whole frames that decode to exactly the
   payloads delivered so far, in order, however many keep-alives sit between them.
   */
  lemma OutputDecodes(script: Script, run: seq<State>, moves: seq<Move>, i: nat, failed: bool)
    requires OneLineScript(script) && Run(script, run, moves) && i < |run|
    ensures var s := run[i];
            && s.delivered <= s.pulled <= |script.events|
            && Render(s.clean) <= s.out
            && Sse.Decode(Render(s.clean), failed) ==
               Unnamed(DeliveredPayloads(script, s.delivered, s.errorSent))
            && (!s.tainted ==> s.out == Render(s.clean) + Partial(s))
  {
    var s := run[i];
    RunKeepsInv(script, run, moves, i);
    CleanOneLine(script, s);
    RenderDecodes(s.clean, [], failed);
    AppendNil(Render(s.clean));
    Sse.LastGroup([], failed, [], None, false);
    AppendNil(Unnamed(DeliveredPayloads(script, s.delivered, s.errorSent)));
  }

  /** How many events come before the first that does not marshal. */
  function FirstUnencodable(events: seq<Encoding>): (n: nat)
    ensures n <= |events|
    ensures forall i :: 0 <= i < n ==> events[i].Encoded?
    ensures n < |events| ==> events[n] == Unencodable
  {
    if events == [] || events[0] == Unencodable then 0 else 1 + FirstUnencodable(events[1..])
  }

  lemma {:induction false} MarshalledAll(events: seq<Encoding>, n: nat)
    requires n <= |events| && Marshalled(events, n)
    ensures forall i :: 0 <= i < n ==> events[i].Encoded?
  {
    if n > 0 {
      MarshalledAll(events, n - 1);
    }
  }

  lemma FirstUnencodableIs(events: seq<Encoding>, n: nat)
    requires n <= |events| && Marshalled(events, n) && (n < |events| ==> events[n] == Unencodable)
    ensures FirstUnencodable(events) == n
  {
    MarshalledAll(events, n);
  }

  /** What a stream that ran its course delivers: the events up to the first that does not marshal. */
  function WholeStream(script: Script): seq<Bytes> {
    var n := FirstUnencodable(script.events);
    EventPayloads(script.events, n) + if n == |script.events| then FailurePayload(script) else []
  }

  lemma ReturnedDelivered(script: Script, s: State)
    requires Inv(script, s) && s.h == Returned && !s.tainted
    ensures DeliveredPayloads(script, s.delivered, s.errorSent) == WholeStream(script)
  {
    FirstUnencodableIs(script.events, s.delivered);
    if s.delivered == |script.events| && !s.errorSent {
      assert FailurePayload(script) == [];
    }
  }

  /**
   When no write failed and the handler has returned, the client decodes the payloads up to the first
   event that does not marshal, and the error, if any, when they all do.
   */
  lemma ReturnedOutputIsWholeStream(script: Script, run: seq<State>, moves: seq<Move>, i: nat, failed: bool)
    requires OneLineScript(script) && Run(script, run, moves) && i < |run|
    requires run[i].h == Returned && !run[i].tainted
    ensures Sse.Decode(run[i].out, failed) == Unnamed(WholeStream(script))
  {
    OutputDecodes(script, run, moves, i, failed);
    RunKeepsInv(script, run, moves, i);
    AppendNil(Render(run[i].clean));
    ReturnedDelivered(script, run[i]);
  }

  // A connection cut in the middle of a frame.

  lemma CutLine(line: Bytes, n: nat)
    requires LF !in line && CR !in line && n <= |line| + 1
    ensures Sse.Decode((line + [LF, LF])[..n], true) == []
  {
    var whole := line + [LF, LF];
    var cut := whole[..n];
    if n <= |line| {
      assert cut == line[..n];
      Sse.LineEndIs(cut, n);
      if n > 0 {
        assert cut[..n] == cut;
        assert Sse.Lines(cut) == [cut] + [];
        Sse.LastGroup([cut], true, Sse.LastName(Sse.Fields([cut])),
                      Sse.Payload(Sse.DataValues(Sse.Fields([cut]))), Sse.Fields([cut]) != []);
        AppendNil([cut]);
      } else {
        Sse.LastGroup([], true, [], None, false);
      }
    } else {
      assert cut == line + ([LF] + []);
      LinesCons(line, []);
      if line == [] {
        Sse.EventsSplit([], [], true);
        Sse.LastGroup([], true, [], None, false);
        assert Sse.Lines(cut) == [] + ([[]] + []);
      } else {
        assert Sse.Lines(cut) == [line];
        Sse.LastGroup([line], true, Sse.LastName(Sse.Fields([line])),
                      Sse.Payload(Sse.DataValues(Sse.Fields([line]))), Sse.Fields([line]) != []);
        AppendNil([line]);
      }
    }
  }

  /** A frame that has not gone out whole adds nothing a reader of a broken connection would believe. */
  lemma PartialDecodesToNothing(script: Script, s: State)
    requires OneLineScript(script) && Inv(script, s)
    requires s.h.Writing? ==> s.h.sent < |Frame(s.h.payload)|
    requires s.b.Beating? ==> s.b.sent < |KEEP_ALIVE|
    ensures Sse.Decode(Partial(s), true) == []
  {
    if s.h.Writing? {
      assert OneLine(s.h.payload);
      CutLine(DATA_PREFIX + s.h.payload, s.h.sent);
    } else if s.b.Beating? {
      CutLine(KEEP_ALIVE_COMMENT, s.b.sent);
    } else {
      CutLine([], 0);
    }
  }

  /**
   Whenever the connection breaks before any write has failed, a client that reads with this reader
   sees exactly the payloads delivered whole: no part of a frame ever passes for an event.
   */
  lemma BrokenConnectionSeesWholeEvents(script: Script, run: seq<State>, moves: seq<Move>, i: nat)
    requires OneLineScript(script) && Run(script, run, moves) && i < |run| && !run[i].tainted
    requires run[i].h.Writing? ==> run[i].h.sent < |Frame(run[i].h.payload)|
    requires run[i].b.Beating? ==> run[i].b.sent < |KEEP_ALIVE|
    ensures run[i].delivered <= |script.events|
    ensures Sse.Decode(run[i].out, true) ==
            Unnamed(DeliveredPayloads(script, run[i].delivered, run[i].errorSent))
  {
    var s := run[i];
    RunKeepsInv(script, run, moves, i);
    CleanOneLine(script, s);
    RenderDecodes(s.clean, Partial(s), true);
    PartialDecodesToNothing(script, s);
    AppendNil(Unnamed(DeliveredPayloads(script, s.delivered, s.errorSent)));
  }
}
