/**
 When the OpenAI decoder's terminal event is the last thing its consumer sees. A sentinel emits the next
 buffered call that has a name, and only one that finds none ends anything: the first such sentinel
 emits the terminal event, the second stops the stream.
 */
module OaiEnding {
  import opened OaiLaws
  import opened OaiStream
  import opened OaiWire
  import opened Seqs
  import opened Skyl
  import opened Wrappers

  // ------------------------------------------------------------------
  // The backlog of calls, read off the frames
  // ------------------------------------------------------------------

  /** The indices with a call waiting, by first fragment, and whether each has a name yet. */
  datatype Backlog = Backlog(order: seq<int>, named: map<int, bool>)

  const NO_BACKLOG := Backlog([], map[])

  function Note(b: Backlog, tc: WireCall): Backlog {
    var i := IndexOf(tc);
    Backlog(if i in b.named then b.order else b.order + [i],
            b.named[i := (i in b.named && b.named[i]) || tc.name != ""])
  }

  function NoteAll(b: Backlog, calls: seq<WireCall>): Backlog {
    if calls == [] then b else Note(NoteAll(b, calls[..|calls| - 1]), calls[|calls| - 1])
  }

  /** Drops the calls up to and including the first named one; tells whether there was one. */
  function Take(b: Backlog): (Backlog, bool)
    decreases |b.order|
  {
    if b.order == [] then (b, false)
    else
      var i := b.order[0];
      var b1 := Backlog(b.order[1..], b.named - {i});
      if i in b.named && b.named[i] then (b1, true) else Take(b1)
  }

  /** The position of the first sentinel that finds no named call waiting, or of the first failure. */
  function FirstIdle(b: Backlog, frames: seq<Frame>): (n: nat)
    ensures n <= |frames|
    ensures n < |frames| ==> frames[n].Sentinel? || frames[n].Failure?
    ensures forall i :: 0 <= i < n ==> !frames[i].Failure?
    decreases |frames|
  {
    if frames == [] then 0
    else
      match frames[0]
      case Failure(_) => 0
      case Ignored => 1 + FirstIdle(b, frames[1..])
      case Sentinel => if Take(b).1 then 1 + FirstIdle(Take(b).0, frames[1..]) else 0
      case Chunk(w) => 1 + FirstIdle(NoteAll(b, OaiStream.CallsIn(w)), frames[1..])
  }

  /** The frames after the sentinel that emits the terminal event, if one does. */
  function AfterDone(frames: seq<Frame>): Option<seq<Frame>> {
    var n := FirstIdle(NO_BACKLOG, frames);
    if n < |frames| && frames[n].Sentinel? then Some(frames[n + 1..]) else None
  }

  predicate AnyNamed(fs: seq<WireCall>) {
    fs != [] && (AnyNamed(fs[..|fs| - 1]) || fs[|fs| - 1].name != "")
  }

  /**
   Nothing comes out of these frames before they stop: no text up to the next sentinel or failure, and
   no named call if the stop is one that flushes, a sentinel or a clean end.
   */
  predicate Quiet(frames: seq<Frame>, e: Option<StreamError>, named: bool)
    decreases |frames|
  {
    if frames == [] then named ==> e.Some?
    else
      match frames[0]
      case Failure(_) => true
      case Sentinel => !named
      case Ignored => Quiet(frames[1..], e, named)
      case Chunk(w) => TextIn(w) == "" && Quiet(frames[1..], e, named || AnyNamed(OaiStream.CallsIn(w)))
  }

  /** The frames after the terminal event run into a failure or the read error before an idle sentinel. */
  predicate EndsInError(frames: seq<Frame>, e: Option<StreamError>) {
    var n := FirstIdle(NO_BACKLOG, frames);
    if n < |frames| then frames[n].Failure? else e.Some?
  }

  predicate EndsInDone(o: Outcome) {
    o.events != [] && o.events[|o.events| - 1].Done?
  }

  // ------------------------------------------------------------------
  // The backlog mirrors the decoder's buffer
  // ------------------------------------------------------------------

  predicate Live(d: State) {
    !d.done && d.err == None
  }

  function Named(pending: map<int, PendingCall>): (named: map<int, bool>)
    ensures named.Keys == pending.Keys
  {
    map i | i in pending :: pending[i].name != ""
  }

  function BacklogOf(d: State): Backlog {
    Backlog(d.order, Named(d.pending))
  }

  lemma NamedUpdate(pending: map<int, PendingCall>, i: int, call: PendingCall)
    ensures Named(pending[i := call]) == Named(pending)[i := call.name != ""]
  {
  }

  lemma NoteIsAccumulate(d: State, tc: WireCall)
    ensures BacklogOf(Accumulate(d, tc)) == Note(BacklogOf(d), tc)
  {
    var i := IndexOf(tc);
    NamedUpdate(d.pending, i, Extend(if i in d.pending then d.pending[i] else NO_CALL, tc));
  }

  lemma {:induction false} NoteAllIsAccumulateAll(d: State, calls: seq<WireCall>)
    ensures BacklogOf(AccumulateAll(d, calls)) == NoteAll(BacklogOf(d), calls)
  {
    if calls != [] {
      NoteAllIsAccumulateAll(d, calls[..|calls| - 1]);
      NoteIsAccumulate(AccumulateAll(d, calls[..|calls| - 1]), calls[|calls| - 1]);
    }
  }

  lemma NoteAllIsAbsorb(d: State, w: WireResponse)
    ensures BacklogOf(Absorb(d, w)) == NoteAll(BacklogOf(d), OaiStream.CallsIn(w))
  {
    var d1 := if ReportsUsage(w) then d.(usage := UsageFromWire(w.usage)) else d;
    var d2 := if FinishIn(w) != "" then d1.(reason := MapFinishReason(FinishIn(w)), sawTerminal := true) else d1;
    NoteAllIsAccumulateAll(d2, OaiStream.CallsIn(w));
    assert BacklogOf(d2) == BacklogOf(d);
  }

  lemma EmptyBuffer(d: State)
    requires Ordered(d.order, d.pending) && d.order == []
    ensures BacklogOf(d) == NO_BACKLOG
  {
    forall i ensures i !in d.pending {
      assert i in d.pending ==> i in d.order;
    }
    assert d.pending == map[];
  }

  lemma BacklogUncons(d: State)
    requires Ordered(d.order, d.pending) && d.order != []
    ensures var i := d.order[0];
            var d1 := d.(order := d.order[1..], pending := d.pending - {i});
            && i in d.pending && BacklogOf(d).named[i] == (d.pending[i].name != "")
            && Ordered(d1.order, d1.pending)
            && BacklogOf(d1) == Backlog(d.order[1..], BacklogOf(d).named - {i})
  {
    PopOrdered(d.order, d.pending);
    NamedWithout(d.pending, d.order[0]);
  }

  lemma NamedWithout(pending: map<int, PendingCall>, i: int)
    ensures Named(pending - {i}) == Named(pending) - {i}
  {
  }

  /** One flush takes one named call, or finds none and empties the buffer. */
  lemma {:induction false} TakeIsFinish(d: State)
    requires Ordered(d.order, d.pending)
    ensures var (d1, ev) := Finish(d);
            var (b1, took) := Take(BacklogOf(d));
            && Ordered(d1.order, d1.pending)
            && (took ==> ev.Some? && ev.value.CallEvent? && BacklogOf(d1) == b1 &&
                         d1 == d.(order := d1.order, pending := d1.pending))
            && (!took ==> d1.order == [] && BacklogOf(d1) == NO_BACKLOG && d1.err == d.err && d1.flushed &&
                          ev == (if d.flushed then None else Some(DoneEvent(d))) && d1.done == (d.done || d.flushed))
    decreases |d.order|
  {
    if d.order == [] {
      EmptyBuffer(d);
    } else {
      var d1 := d.(order := d.order[1..], pending := d.pending - {d.order[0]});
      BacklogUncons(d);
      if d.pending[d.order[0]].name == "" {
        TakeIsFinish(d1);
        assert DoneEvent(d1) == DoneEvent(d);
      }
    }
  }

  // ------------------------------------------------------------------
  // Draining up to the next idle sentinel
  // ------------------------------------------------------------------

  /** Draining comes to the first idle frame with no terminal event on the way. */
  ghost predicate ComesTo(d: State, frames: seq<Frame>, e: Option<StreamError>, events: seq<StreamEvent>, d1: State)
  {
    var n := FirstIdle(BacklogOf(d), frames);
    && Live(d1) && Ordered(d1.order, d1.pending) && d1.flushed == d.flushed
    && (forall i :: 0 <= i < |events| ==> !events[i].Done?)
    && Drain(d, frames, e) == After(events, Drain(d1, frames[n..], e))
    && (n < |frames| && frames[n].Sentinel? ==> !Take(BacklogOf(d1)).1)
    && (d1.sawTerminal <==> d.sawTerminal || HasTerminal(frames[..n]))
  }

  lemma AfterAfter(a: seq<StreamEvent>, b: seq<StreamEvent>, o: Outcome)
    ensures After(a, After(b, o)) == After(a + b, o)
  {
    Assoc(a, b, o.events);
  }

  lemma ComesToStep(d: State, d0: State, f: Frame, rest: seq<Frame>, e: Option<StreamError>, first: seq<StreamEvent>,
                    events: seq<StreamEvent>, d1: State)
    requires ComesTo(d0, rest, e, events, d1)
    requires FirstIdle(BacklogOf(d), [f] + rest) == FirstIdle(BacklogOf(d0), rest) + 1
    requires d0.flushed == d.flushed && (d0.sawTerminal <==> d.sawTerminal || f.Sentinel? || Finishes(f))
    requires Drain(d, [f] + rest, e) == After(first, Drain(d0, rest, e))
    requires forall i :: 0 <= i < |first| ==> !first[i].Done?
    ensures ComesTo(d, [f] + rest, e, first + events, d1)
  {
    var m := FirstIdle(BacklogOf(d0), rest);
    ConsSlices(f, rest, m);
    HasTerminalCons(f, rest[..m]);
    AfterAfter(first, events, Drain(d1, rest[m..], e));
  }

  lemma HasTerminalCons(f: Frame, rest: seq<Frame>)
    ensures HasTerminal([f] + rest) <==> f.Sentinel? || Finishes(f) || HasTerminal(rest)
  {
    var all := [f] + rest;
    if HasTerminal(rest) {
      var i :| 0 <= i < |rest| && (rest[i].Sentinel? || Finishes(rest[i]));
      assert all[i + 1] == rest[i];
    }
    if f.Sentinel? || Finishes(f) {
      assert all[0].Sentinel? || Finishes(all[0]);
    }
  }

  lemma ComesToNow(d: State, frames: seq<Frame>, e: Option<StreamError>)
    requires Live(d) && Ordered(d.order, d.pending) && FirstIdle(BacklogOf(d), frames) == 0
    ensures ComesTo(d, frames, e, [], d)
  {
    AppendNil(Drain(d, frames, e).events);
    if frames != [] && frames[0].Sentinel? {
      assert !Take(BacklogOf(d)).1;
    }
  }

  lemma PlainComesTo(d: State, f: Frame, rest: seq<Frame>, e: Option<StreamError>, events: seq<StreamEvent>, d1: State)
    requires Live(d) && Ordered(d.order, d.pending) && (f.Ignored? || f.Chunk?)
    requires ComesTo(if f.Chunk? then Absorb(d, f.w) else d, rest, e, events, d1)
    ensures ComesTo(d, [f] + rest, e, TextsOf(f) + events, d1)
  {
    var d0 := if f.Chunk? then Absorb(d, f.w) else d;
    ConsSlices(f, rest, 0);
    if f.Chunk? {
      AbsorbKeeps(d, f.w);
      NoteAllIsAbsorb(d, f.w);
    }
    DrainOne(d, f, rest, e);
    ComesToStep(d, d0, f, rest, e, TextsOf(f), events, d1);
  }

  lemma SentinelComesTo(d: State, rest: seq<Frame>, e: Option<StreamError>, events: seq<StreamEvent>, d1: State)
    requires Live(d) && Ordered(d.order, d.pending) && Take(BacklogOf(d)).1
    requires ComesTo(Finish(d.(sawTerminal := true)).0, rest, e, events, d1)
    ensures Finish(d.(sawTerminal := true)).1.Some?
    ensures ComesTo(d, [Sentinel] + rest, e, [Finish(d.(sawTerminal := true)).1.value] + events, d1)
  {
    var (d0, ev) := Finish(d.(sawTerminal := true));
    ConsSlices(Sentinel, rest, 0);
    SentinelTakes(d, rest, e);
    ComesToStep(d, d0, Sentinel, rest, e, [ev.value], events, d1);
  }

  lemma {:induction false} DrainToIdle(d: State, frames: seq<Frame>, e: Option<StreamError>)
    returns (events: seq<StreamEvent>, d1: State)
    requires Live(d) && Ordered(d.order, d.pending)
    ensures ComesTo(d, frames, e, events, d1)
    decreases |frames|
  {
    if FirstIdle(BacklogOf(d), frames) == 0 {
      ComesToNow(d, frames, e);
      return [], d;
    }
    var f, rest := frames[0], frames[1..];
    Uncons(frames);
    if f.Sentinel? {
      var (d0, ev) := Finish(d.(sawTerminal := true));
      SentinelTakes(d, rest, e);
      events, d1 := DrainToIdle(d0, rest, e);
      SentinelComesTo(d, rest, e, events, d1);
      events := [ev.value] + events;
    } else {
      var d0 := if f.Chunk? then Absorb(d, f.w) else d;
      if f.Chunk? {
        AbsorbKeeps(d, f.w);
        AbsorbNames(d, f.w);
      }
      events, d1 := DrainToIdle(d0, rest, e);
      PlainComesTo(d, f, rest, e, events, d1);
      events := TextsOf(f) + events;
    }
  }

  lemma SentinelTakes(d: State, rest: seq<Frame>, e: Option<StreamError>)
    requires Live(d) && Ordered(d.order, d.pending) && Take(BacklogOf(d)).1
    ensures var (d1, ev) := Finish(d.(sawTerminal := true));
            && Live(d1) && Ordered(d1.order, d1.pending) && d1.flushed == d.flushed && d1.sawTerminal
            && BacklogOf(d1) == Take(BacklogOf(d)).0
            && ev.Some? && !ev.value.Done?
            && Drain(d, [Sentinel] + rest, e) == After([ev.value], Drain(d1, rest, e))
  {
    var d0 := d.(sawTerminal := true);
    assert BacklogOf(d0) == BacklogOf(d);
    TakeIsFinish(d0);
    assert ([Sentinel] + rest)[1..] == rest;
  }

  /** An idle sentinel emits the terminal event, or after that stops the stream for good. */
  lemma SentinelIdles(d: State, rest: seq<Frame>, e: Option<StreamError>)
    requires Live(d) && Ordered(d.order, d.pending) && !Take(BacklogOf(d)).1
    ensures d.flushed ==> Drain(d, [Sentinel] + rest, e) == Outcome([], None)
    ensures !d.flushed ==>
              var (d1, ev) := Finish(d.(sawTerminal := true));
              && Live(d1) && d1.flushed && Ordered(d1.order, d1.pending) && d1.order == []
              && BacklogOf(d1) == NO_BACKLOG
              && ev.Some? && ev.value.Done?
              && Drain(d, [Sentinel] + rest, e) == Emit(ev.value, Drain(d1, rest, e))
  {
    var d0 := d.(sawTerminal := true);
    assert BacklogOf(d0) == BacklogOf(d);
    TakeIsFinish(d0);
    assert ([Sentinel] + rest)[1..] == rest;
  }

  predicate Nameless(d: State) {
    forall i :: i in d.pending ==> d.pending[i].name == ""
  }

  lemma AccumulateName(d: State, tc: WireCall)
    requires Ordered(d.order, d.pending)
    ensures var r := Accumulate(d, tc);
            && Ordered(r.order, r.pending)
            && (Nameless(r) <==> Nameless(d) && tc.name == "")
  {
    var i, r := IndexOf(tc), Accumulate(d, tc);
    PushOrdered(d.order, d.pending, i, Extend(if i in d.pending then d.pending[i] else NO_CALL, tc));
    assert i in r.pending;
    if Nameless(r) {
      forall k | k in d.pending ensures d.pending[k].name == "" {
        assert k in r.pending;
      }
    }
  }

  lemma {:induction false} AccumulateNames(d: State, fs: seq<WireCall>)
    requires Ordered(d.order, d.pending)
    ensures var r := AccumulateAll(d, fs);
            && Ordered(r.order, r.pending)
            && (Nameless(r) <==> Nameless(d) && !AnyNamed(fs))
  {
    if fs != [] {
      var front := fs[..|fs| - 1];
      AccumulateNames(d, front);
      AccumulateName(AccumulateAll(d, front), fs[|fs| - 1]);
    }
  }

  lemma AbsorbNames(d: State, w: WireResponse)
    requires Ordered(d.order, d.pending)
    ensures var r := Absorb(d, w);
            && Ordered(r.order, r.pending)
            && (Nameless(r) <==> Nameless(d) && !AnyNamed(OaiStream.CallsIn(w)))
  {
    var d1 := if ReportsUsage(w) then d.(usage := UsageFromWire(w.usage)) else d;
    var d2 := if FinishIn(w) != "" then d1.(reason := MapFinishReason(FinishIn(w)), sawTerminal := true) else d1;
    AccumulateNames(d2, OaiStream.CallsIn(w));
    assert Nameless(d2) == Nameless(d);
  }

  lemma {:induction false} NamelessBuffer(d: State)
    requires Ordered(d.order, d.pending)
    ensures Nameless(d) <==> Buffered(d.order, d.pending) == []
    decreases |d.order|
  {
    if d.order != [] {
      var i := d.order[0];
      var d1 := d.(order := d.order[1..], pending := d.pending - {i});
      PopOrdered(d.order, d.pending);
      BufferedFrom(d1.order, d.pending, d1.pending);
      NamelessBuffer(d1);
      assert Nameless(d) <==> Nameless(d1) && d.pending[i].name == "" by {
        if Nameless(d1) && d.pending[i].name == "" {
          forall k | k in d.pending ensures d.pending[k].name == "" {
            assert k == i || k in d1.pending;
          }
        }
      }
    } else {
      assert forall k :: k in d.pending ==> k in d.order;
    }
  }

  // ------------------------------------------------------------------
  // After the terminal event
  // ------------------------------------------------------------------

  lemma {:induction false} SilentIff(d: State, frames: seq<Frame>, e: Option<StreamError>)
    requires Live(d) && Ordered(d.order, d.pending) && d.flushed
    ensures Drain(d, frames, e).events == [] <==> Quiet(frames, e, !Nameless(d))
    decreases |frames|
  {
    if frames == [] || frames[0].Sentinel? {
      var d0 := if frames == [] then d else d.(sawTerminal := true);
      FinishTakesFirst(d0);
      NamelessBuffer(d0);
      AppendNil(Buffered(d0.order, d0.pending));
      assert Nameless(d0) == Nameless(d);
    } else {
      var f, rest := frames[0], frames[1..];
      match f
      case Failure(_) =>
      case Ignored => SilentIff(d, rest, e);
      case Chunk(w) =>
        AbsorbKeeps(d, w);
        AbsorbNames(d, w);
        SilentIff(Absorb(d, w), rest, e);
    }
  }

  lemma TailError(d: State, frames: seq<Frame>, e: Option<StreamError>)
    requires Live(d) && Ordered(d.order, d.pending) && d.flushed && BacklogOf(d) == NO_BACKLOG
    ensures Drain(d, frames, e).err.Some? <==> EndsInError(frames, e)
  {
    var n := FirstIdle(NO_BACKLOG, frames);
    var events, d1 := DrainToIdle(d, frames, e);
    if n == |frames| {
      assert frames[n..] == [];
      if e.None? {
        DrainSucceeds(d1, []);
      }
    } else {
      Uncons(frames[n..]);
      if frames[n].Sentinel? {
        SentinelIdles(d1, frames[n..][1..], e);
      }
    }
  }

  /** A drain whose terminal event is emitted at a sentinel, cut there. */
  ghost predicate CutAtDone(o: Outcome, before: seq<StreamEvent>, done: StreamEvent, d: State,
                            post: seq<Frame>, e: Option<StreamError>)
  {
    && (forall i :: 0 <= i < |before| ==> !before[i].Done?) && done.Done?
    && Live(d) && d.flushed && Ordered(d.order, d.pending) && d.order == [] && BacklogOf(d) == NO_BACKLOG
    && o == After(before, Emit(done, Drain(d, post, e)))
  }

  lemma DoneAtSentinel(frames: seq<Frame>, e: Option<StreamError>)
    returns (before: seq<StreamEvent>, done: StreamEvent, d: State)
    requires AfterDone(frames).Some?
    ensures CutAtDone(Drain(START, frames, e), before, done, d, AfterDone(frames).value, e)
  {
    var n := FirstIdle(NO_BACKLOG, frames);
    assert BacklogOf(START) == NO_BACKLOG;
    var d1;
    before, d1 := DrainToIdle(START, frames, e);
    Uncons(frames[n..]);
    assert frames[n..][1..] == frames[n + 1..];
    SentinelIdles(d1, frames[n + 1..], e);
    var (d2, ev) := Finish(d1.(sawTerminal := true));
    done, d := ev.value, d2;
  }

  lemma CutOutcome(o: Outcome, before: seq<StreamEvent>, done: StreamEvent, d: State,
                   post: seq<Frame>, e: Option<StreamError>)
    requires CutAtDone(o, before, done, d, post, e)
    ensures EndsInDone(o) <==> Drain(d, post, e).events == []
    ensures DoneCount(o.events) == 1 && o.err == Drain(d, post, e).err
  {
    var tail := Drain(d, post, e).events;
    DrainSafety(d, post, e);
    NoDones(before);
    NoDones(tail);
    DoneCountAppend(before, [done] + tail);
    assert ([done] + tail)[1..] == tail;
  }

  lemma {:induction false} NoDones(events: seq<StreamEvent>)
    ensures DoneCount(events) == 0 <==> forall i :: 0 <= i < |events| ==> !events[i].Done?
  {
    if events != [] {
      NoDones(events[1..]);
      if DoneCount(events) == 0 {
        forall i | 0 <= i < |events| ensures !events[i].Done? {
          if i > 0 {
            assert events[1..][i - 1] == events[i];
          }
        }
      } else if !events[0].Done? {
        var i :| 0 <= i < |events[1..]| && events[1..][i].Done?;
        assert events[i + 1].Done?;
      }
    }
  }

  /** Without such a sentinel the terminal event can only come from a clean end of input, and last. */
  lemma DoneAtEnd(frames: seq<Frame>, e: Option<StreamError>)
    requires AfterDone(frames).None?
    ensures var o := Drain(START, frames, e);
            var clean := e.None? && NoFailure(frames) && HasTerminal(frames);
            && (EndsInDone(o) <==> clean)
            && DoneCount(o.events) == (if clean then 1 else 0)
            && (o.err.None? <==> clean)
  {
    var n := FirstIdle(NO_BACKLOG, frames);
    assert BacklogOf(START) == NO_BACKLOG;
    var before, d := DrainToIdle(START, frames, e);
    NoDones(before);
    AppendNil(before);
    if n == |frames| {
      assert frames[n..] == [] && frames[..n] == frames;
      if e.None? && HasTerminal(frames) {
        DrainInert(d, []);
        FlushEndsInDone(d, before);
      }
    } else {
      assert frames[n].Failure?;
      Uncons(frames[n..]);
    }
  }

  lemma FlushEndsInDone(d: State, before: seq<StreamEvent>)
    requires Ordered(d.order, d.pending) && !d.flushed
    requires forall i :: 0 <= i < |before| ==> !before[i].Done?
    ensures EndsInDone(Outcome(before + Flushed(d), None)) && DoneCount(before + Flushed(d)) == 1
  {
    var calls := Buffered(d.order, d.pending);
    BufferedNoDone(d.order, d.pending);
    NoDones(before);
    NoDones(calls);
    DoneCountAppend(calls, [DoneEvent(d)]);
    DoneCountAppend(before, calls + [DoneEvent(d)]);
  }

  lemma {:induction false} BufferedNoDone(order: seq<int>, pending: map<int, PendingCall>)
    requires forall i :: 0 <= i < |order| ==> order[i] in pending
    ensures forall i :: 0 <= i < |Buffered(order, pending)| ==> !Buffered(order, pending)[i].Done?
  {
    if order != [] {
      BufferedNoDone(order[1..], pending);
    }
  }

  /**
   On any frames and any end of input: the terminal event is the last event exactly when an idle
   sentinel emits it and nothing comes out of the frames that follow, or no sentinel idles and the
   input ends cleanly after a terminal signal.
   */
  lemma DoneIsLastIff(frames: seq<Frame>, e: Option<StreamError>)
    ensures EndsInDone(Drain(START, frames, e)) <==>
            match AfterDone(frames)
            case Some(post) => Quiet(post, e, false)
            case None => e.None? && NoFailure(frames) && HasTerminal(frames)
  {
    if AfterDone(frames).Some? {
      var post := AfterDone(frames).value;
      var before, done, d := DoneAtSentinel(frames, e);
      CutOutcome(Drain(START, frames, e), before, done, d, post, e);
      SilentIff(d, post, e);
      NamelessBuffer(d);
    } else {
      DoneAtEnd(frames, e);
    }
  }

  /**
   An error follows the terminal event exactly when an idle sentinel emits that event and the frames
   after it run into a failure, or into the read error, before a second idle sentinel.
   */
  lemma ErrorAfterDoneIff(frames: seq<Frame>, e: Option<StreamError>)
    ensures var o := Drain(START, frames, e);
            DoneCount(o.events) == 1 && o.err.Some? <==>
            AfterDone(frames).Some? && EndsInError(AfterDone(frames).value, e)
  {
    if AfterDone(frames).Some? {
      var post := AfterDone(frames).value;
      var before, done, d := DoneAtSentinel(frames, e);
      CutOutcome(Drain(START, frames, e), before, done, d, post, e);
      TailError(d, post, e);
    } else {
      DoneAtEnd(frames, e);
    }
  }

  // One sentinel.

  lemma {:induction false} NoteAllAppend(b: Backlog, fs: seq<WireCall>, gs: seq<WireCall>)
    ensures NoteAll(b, fs + gs) == NoteAll(NoteAll(b, fs), gs)
    decreases |gs|
  {
    if gs == [] {
      AppendNil(fs);
    } else {
      assert (fs + gs)[..|fs + gs| - 1] == fs + gs[..|gs| - 1];
      NoteAllAppend(b, fs, gs[..|gs| - 1]);
    }
  }

  lemma {:induction false} IdleAfterPlain(pre: seq<Frame>, rest: seq<Frame>)
    requires OaiLaws.Plain(pre)
    ensures FirstIdle(NO_BACKLOG, pre + rest) == |pre| + FirstIdle(NoteAll(NO_BACKLOG, Fragments(pre)), rest)
    decreases |pre|
  {
    if pre == [] {
      AppendNil(rest);
    } else {
      var front, f := pre[..|pre| - 1], pre[|pre| - 1];
      FrontLast(pre);
      Assoc(front, [f], rest);
      IdleAfterPlain(front, [f] + rest);
      assert ([f] + rest)[1..] == rest;
      if f.Chunk? {
        NoteAllAppend(NO_BACKLOG, Fragments(front), OaiStream.CallsIn(f.w));
      }
      AppendNil(Fragments(front));
    }
  }

  lemma TakesIffNamed(fs: seq<WireCall>)
    ensures Take(NoteAll(NO_BACKLOG, fs)).1 <==> AnyNamed(fs)
  {
    var d := AccumulateAll(START, fs);
    assert BacklogOf(START) == NO_BACKLOG;
    NoteAllIsAccumulateAll(START, fs);
    AccumulateNames(START, fs);
    TakeIsFinish(d);
    FinishTakesFirst(d);
    NamelessBuffer(d);
  }

  lemma AfterOneSentinel(pre: seq<Frame>, post: seq<Frame>)
    requires OaiLaws.Plain(pre) && OaiLaws.Plain(post)
    ensures AfterDone(pre + ([Sentinel] + post)) == if AnyNamed(Fragments(pre)) then None else Some(post)
  {
    IdleAfterPlain(pre, [Sentinel] + post);
    TakesIffNamed(Fragments(pre));
    IdleAtSentinel(NoteAll(NO_BACKLOG, Fragments(pre)), post);
    Seam(pre, Sentinel, post);
  }

  lemma IdleAtSentinel(b: Backlog, post: seq<Frame>)
    requires OaiLaws.Plain(post)
    ensures FirstIdle(b, [Sentinel] + post) == if Take(b).1 then 1 + |post| else 0
  {
    ConsSlices(Sentinel, post, 0);
    PlainNeverIdles(Take(b).0, post);
  }

  lemma SentinelIsTerminal(pre: seq<Frame>, post: seq<Frame>)
    requires OaiLaws.Plain(pre) && OaiLaws.Plain(post)
    ensures NoFailure(pre + ([Sentinel] + post)) && HasTerminal(pre + ([Sentinel] + post))
  {
    assert (pre + ([Sentinel] + post))[|pre|].Sentinel?;
  }

  /**
   With one sentinel the terminal event stays last exactly when a call named before the sentinel keeps
   it back to the end of the input, or nothing comes out afterwards.
   */
  lemma OneSentinelIff(pre: seq<Frame>, post: seq<Frame>)
    requires OaiLaws.Plain(pre) && OaiLaws.Plain(post)
    ensures EndsInDone(Drain(START, pre + ([Sentinel] + post), None)) <==>
            AnyNamed(Fragments(pre)) || Quiet(post, None, false)
  {
    AfterOneSentinel(pre, post);
    SentinelIsTerminal(pre, post);
    DoneIsLastIff(pre + ([Sentinel] + post), None);
  }

  /** With one sentinel a read error follows the terminal event exactly when no call was named before. */
  lemma OneSentinelErrorIff(pre: seq<Frame>, post: seq<Frame>, e: StreamError)
    requires OaiLaws.Plain(pre) && OaiLaws.Plain(post)
    ensures var o := Drain(START, pre + ([Sentinel] + post), Some(e));
            DoneCount(o.events) == 1 && o.err == Some(e) <==> !AnyNamed(Fragments(pre))
  {
    var frames := pre + ([Sentinel] + post);
    AfterOneSentinel(pre, post);
    SentinelIsTerminal(pre, post);
    PlainNeverIdles(NO_BACKLOG, post);
    ErrorAfterDoneIff(frames, Some(e));
    OnlyTheReadError(START, frames, e);
  }

  lemma {:induction false} PlainNeverIdles(b: Backlog, frames: seq<Frame>)
    requires OaiLaws.Plain(frames)
    ensures FirstIdle(b, frames) == |frames|
    decreases |frames|
  {
    if frames != [] {
      var f := frames[0];
      PlainNeverIdles(if f.Chunk? then NoteAll(b, OaiStream.CallsIn(f.w)) else b, frames[1..]);
    }
  }

  lemma {:induction false} OnlyTheReadError(d: State, frames: seq<Frame>, e: StreamError)
    requires Live(d) && NoFailure(frames)
    ensures var o := Drain(d, frames, Some(e)); o.err == None || o.err == Some(e)
    decreases |frames|
  {
    if frames != [] {
      var f, rest := frames[0], frames[1..];
      assert !frames[0].Failure?;
      match f
      case Ignored => OnlyTheReadError(d, rest, e);
      case Chunk(w) =>
        AbsorbKeeps(d, w);
        OnlyTheReadError(Absorb(d, w), rest, e);
      case Sentinel =>
        FinishSafety(d.(sawTerminal := true));
        var (d1, ev) := Finish(d.(sawTerminal := true));
        if ev.Some? {
          OnlyTheReadError(d1, rest, e);
        }
    }
  }

  // Concrete streams.

  function LateText(): WireResponse {
    WireResponse("", "", [Choice(NO_MESSAGE, NO_MESSAGE.(content := OaiWire.Plain("late")), "")], NO_WIRE_USAGE, None)
  }

  /** Text after the sentinel is delivered after the terminal event. */
  lemma TextAfterDone()
    ensures Drain(START, [Sentinel, Chunk(LateText())], None) ==
            Outcome([Done(Some(NO_USAGE), Unknown), TextDelta("late")], None)
  {
    var late := LateText();
    var d := START.(sawTerminal := true, flushed := true);
    assert Finish(START.(sawTerminal := true)) == (d, Some(Done(Some(NO_USAGE), Unknown)));
    assert [Sentinel, Chunk(late)][1..] == [Chunk(late)];
    assert [Chunk(late)][1..] == [];
    assert TextIn(late) == "late";
    assert Absorb(d, late) == d;
    assert Drain(d, [], None) == Outcome([], None);
    assert Drain(d, [Chunk(late)], None) == Outcome([TextDelta("late")], None);
  }

  /** A read error can still follow the terminal event. */
  lemma ErrorAfterDone(e: StreamError)
    ensures Drain(START, [Sentinel], Some(e)) == Outcome([Done(Some(NO_USAGE), Unknown)], Some(e))
  {
    var d := START.(sawTerminal := true, flushed := true);
    assert Finish(START.(sawTerminal := true)) == (d, Some(Done(Some(NO_USAGE), Unknown)));
    assert [Sentinel][1..] == [];
    assert Drain(d, [], Some(e)) == Outcome([], Some(e));
  }
}
