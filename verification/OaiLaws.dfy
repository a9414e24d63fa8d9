/**
 What draining the OpenAI stream decoder yields: exactly, for a well-formed frame list; and safely,
 for any frame list at all.
 */
module OaiLaws {
  import opened Bytes
  import opened OaiStream
  import opened OaiWire
  import opened Seqs
  import opened Skyl
  import opened Wrappers
  import Sse

  // ------------------------------------------------------------------
  // What a frame list says, read without the decoder
  // ------------------------------------------------------------------

  function TextsOf(f: Frame): seq<StreamEvent> {
    if f.Chunk? && TextIn(f.w) != "" then [TextDelta(TextIn(f.w))] else []
  }

  /** The non-empty text deltas, in frame order. */
  function Texts(frames: seq<Frame>): seq<StreamEvent> {
    if frames == [] then [] else Texts(frames[..|frames| - 1]) + TextsOf(frames[|frames| - 1])
  }

  /** Every tool-call fragment, in frame order. */
  function Fragments(frames: seq<Frame>): seq<WireCall> {
    if frames == [] then []
    else
      var f := frames[|frames| - 1];
      Fragments(frames[..|frames| - 1]) + (if f.Chunk? then OaiStream.CallsIn(f.w) else [])
  }

  /** The last usage any frame reports. */
  function LastUsage(frames: seq<Frame>): Usage {
    if frames == [] then NO_USAGE
    else
      var f := frames[|frames| - 1];
      if f.Chunk? && ReportsUsage(f.w) then UsageFromWire(f.w.usage) else LastUsage(frames[..|frames| - 1])
  }

  predicate Finishes(f: Frame) {
    f.Chunk? && FinishIn(f.w) != ""
  }

  /** The last finish reason any frame gives. */
  function LastReason(frames: seq<Frame>): StopReason {
    if frames == [] then NoReason
    else
      var f := frames[|frames| - 1];
      if Finishes(f) then MapFinishReason(FinishIn(f.w)) else LastReason(frames[..|frames| - 1])
  }

  predicate HasFinish(frames: seq<Frame>) {
    exists i :: 0 <= i < |frames| && Finishes(frames[i])
  }

  predicate HasTerminal(frames: seq<Frame>) {
    exists i :: 0 <= i < |frames| && (frames[i].Sentinel? || Finishes(frames[i]))
  }

  predicate NoFailure(frames: seq<Frame>) {
    forall i :: 0 <= i < |frames| ==> !frames[i].Failure?
  }

  /** Neither a failure nor the sentinel. */
  predicate Plain(frames: seq<Frame>) {
    forall i :: 0 <= i < |frames| ==> frames[i].Ignored? || frames[i].Chunk?
  }

  predicate InertFrame(f: Frame) {
    || f.Ignored?
    || f.Sentinel?
    || (f.Chunk? && !ReportsUsage(f.w) && FinishIn(f.w) == "" && TextIn(f.w) == "" && OaiStream.CallsIn(f.w) == [])
  }

  /** Bears no content: no text, call fragment, usage, finish reason or failure. */
  predicate Inert(frames: seq<Frame>) {
    forall i :: 0 <= i < |frames| ==> InertFrame(frames[i])
  }

  // ------------------------------------------------------------------
  // What a list of fragments assembles to, read index by index
  // ------------------------------------------------------------------

  /** The fragments of one call, in arrival order. */
  function Only(fs: seq<WireCall>, i: int): seq<WireCall> {
    if fs == [] then []
    else Only(fs[..|fs| - 1], i) + (if IndexOf(fs[|fs| - 1]) == i then [fs[|fs| - 1]] else [])
  }

  function LastId(fs: seq<WireCall>): string {
    if fs == [] then "" else if fs[|fs| - 1].id != "" then fs[|fs| - 1].id else LastId(fs[..|fs| - 1])
  }

  function LastName(fs: seq<WireCall>): string {
    if fs == [] then "" else if fs[|fs| - 1].name != "" then fs[|fs| - 1].name else LastName(fs[..|fs| - 1])
  }

  function JoinedArguments(fs: seq<WireCall>): string {
    if fs == [] then "" else JoinedArguments(fs[..|fs| - 1]) + fs[|fs| - 1].arguments
  }

  /** One call: last non-empty id and name, arguments concatenated. */
  function Assembled(fs: seq<WireCall>): PendingCall {
    PendingCall(LastId(fs), LastName(fs), JoinedArguments(fs))
  }

  /** The indices in order of first appearance. */
  function FirstSeen(fs: seq<WireCall>): seq<int> {
    if fs == [] then []
    else
      var seen, i := FirstSeen(fs[..|fs| - 1]), IndexOf(fs[|fs| - 1]);
      if i in seen then seen else seen + [i]
  }

  /** The events of the calls at the given indices; a call that never got a name has none. */
  function CallEvents(order: seq<int>, fs: seq<WireCall>): seq<StreamEvent> {
    if order == [] then []
    else
      var ev := CallEventOf(Assembled(Only(fs, order[0])));
      (if ev.Some? then [ev.value] else []) + CallEvents(order[1..], fs)
  }

  // ------------------------------------------------------------------
  // The accumulator computes the assembly
  // ------------------------------------------------------------------

  /** The buffer holds the assembly of the fragments so far. */
  ghost predicate Holds(order: seq<int>, pending: map<int, PendingCall>, fs: seq<WireCall>) {
    && order == FirstSeen(fs)
    && Ordered(order, pending)
    && HoldsEach(pending, fs)
  }

  ghost predicate HoldsEach(pending: map<int, PendingCall>, fs: seq<WireCall>) {
    forall i :: if i in pending then pending[i] == Assembled(Only(fs, i)) else Only(fs, i) == []
  }

  lemma EachStep(pending: map<int, PendingCall>, front: seq<WireCall>, tc: WireCall)
    requires HoldsEach(pending, front)
    ensures var i := IndexOf(tc);
            HoldsEach(pending[i := Extend(if i in pending then pending[i] else NO_CALL, tc)], front + [tc])
  {
    var i := IndexOf(tc);
    AssembledSnoc(Only(front, i), tc);
    forall k ensures Only(front + [tc], k) == if k == i then Only(front, k) + [tc] else Only(front, k) {
      OnlySnoc(front, tc, k);
    }
  }

  lemma AccumulateStep(order: seq<int>, pending: map<int, PendingCall>, front: seq<WireCall>, tc: WireCall)
    requires Holds(order, pending, front)
    ensures var i := IndexOf(tc);
            Holds(if i in pending then order else order + [i],
                  pending[i := Extend(if i in pending then pending[i] else NO_CALL, tc)], front + [tc])
  {
    var i := IndexOf(tc);
    Snoc(front, tc);
    PushOrdered(order, pending, i, Extend(if i in pending then pending[i] else NO_CALL, tc));
    EachStep(pending, front, tc);
    SeenIff(order, pending, front, i);
  }

  lemma SeenIff(order: seq<int>, pending: map<int, PendingCall>, fs: seq<WireCall>, i: int)
    requires Holds(order, pending, fs)
    ensures i in FirstSeen(fs) <==> i in pending
  {
  }

  lemma OnlySnoc(front: seq<WireCall>, tc: WireCall, k: int)
    ensures Only(front + [tc], k) == if k == IndexOf(tc) then Only(front, k) + [tc] else Only(front, k)
  {
    Snoc(front, tc);
    AppendNil(Only(front, k));
  }

  lemma {:induction false} AccumulateIsAssembly(fs: seq<WireCall>)
    ensures Holds(AccumulateAll(START, fs).order, AccumulateAll(START, fs).pending, fs)
  {
    if fs != [] {
      var front, tc := fs[..|fs| - 1], fs[|fs| - 1];
      var d := AccumulateAll(START, front);
      AccumulateIsAssembly(front);
      AccumulateStep(d.order, d.pending, front, tc);
      FrontLast(fs);
    }
  }

  lemma AssembledSnoc(fs: seq<WireCall>, tc: WireCall)
    ensures Assembled(fs + [tc]) == Extend(Assembled(fs), tc)
  {
    Snoc(fs, tc);
  }

  /** Accumulating touches only the buffer, and depends only on it. */
  lemma {:induction false} AccumulateFrom(d: State, e: State, fs: seq<WireCall>)
    requires d.pending == e.pending && d.order == e.order
    ensures AccumulateAll(d, fs).pending == AccumulateAll(e, fs).pending
    ensures AccumulateAll(d, fs).order == AccumulateAll(e, fs).order
  {
    if fs != [] {
      AccumulateFrom(d, e, fs[..|fs| - 1]);
    }
  }

  lemma {:induction false} AccumulateAppend(d: State, a: seq<WireCall>, b: seq<WireCall>)
    ensures AccumulateAll(d, a + b) == AccumulateAll(AccumulateAll(d, a), b)
    decreases |b|
  {
    if b == [] {
      AppendNil(a);
    } else {
      assert (a + b)[..|a + b| - 1] == a + b[..|b| - 1];
      AccumulateAppend(d, a, b[..|b| - 1]);
    }
  }

  function AbsorbAll(d: State, frames: seq<Frame>): State {
    if frames == [] then d
    else
      var before, f := AbsorbAll(d, frames[..|frames| - 1]), frames[|frames| - 1];
      if f.Chunk? then Absorb(before, f.w) else before
  }

  /** The decoder's state after plain frames, field by field. */
  lemma {:induction false} AbsorbAllIs(frames: seq<Frame>)
    ensures var d, a := AbsorbAll(START, frames), AccumulateAll(START, Fragments(frames));
            d == State(a.pending, a.order, LastUsage(frames), LastReason(frames), false, false, HasFinish(frames), None)
  {
    if frames != [] {
      var front, f := frames[..|frames| - 1], frames[|frames| - 1];
      AbsorbAllIs(front);
      HasFinishSnoc(front, f);
      FrontLast(frames);
      if f.Chunk? {
        var before, a := AbsorbAll(START, front), AccumulateAll(START, Fragments(front));
        AccumulateAppend(START, Fragments(front), OaiStream.CallsIn(f.w));
        var d1 := if ReportsUsage(f.w) then before.(usage := UsageFromWire(f.w.usage)) else before;
        var d2 :=
          if FinishIn(f.w) != "" then d1.(reason := MapFinishReason(FinishIn(f.w)), sawTerminal := true) else d1;
        AccumulateFrom(d2, a, OaiStream.CallsIn(f.w));
      } else {
        AppendNil(Fragments(front));
      }
    }
  }

  lemma HasFinishSnoc(front: seq<Frame>, f: Frame)
    ensures HasFinish(front + [f]) == (HasFinish(front) || Finishes(f))
  {
    var frames := front + [f];
    if HasFinish(front) {
      var i :| 0 <= i < |front| && Finishes(front[i]);
      assert Finishes(frames[i]);
    }
    if Finishes(f) {
      assert Finishes(frames[|front|]);
    }
  }

  // ------------------------------------------------------------------
  // Draining well-formed frame lists
  // ------------------------------------------------------------------

  lemma AbsorbKeeps(d: State, w: WireResponse)
    ensures Absorb(d, w).flushed == d.flushed && Absorb(d, w).done == d.done && Absorb(d, w).err == d.err
    ensures Absorb(d, w).sawTerminal == (d.sawTerminal || FinishIn(w) != "")
  {
  }

  lemma {:induction false} DrainPlain(d: State, pre: seq<Frame>, post: seq<Frame>, e: Option<StreamError>)
    requires !d.done && d.err == None
    requires Plain(pre)
    ensures !AbsorbAll(d, pre).done && AbsorbAll(d, pre).err == None
    ensures Drain(d, pre + post, e) == After(Texts(pre), Drain(AbsorbAll(d, pre), post, e))
    decreases |pre|
  {
    if pre == [] {
      AppendNil(post);
      AppendNil(Drain(d, post, e).events);
    } else {
      var front, f := pre[..|pre| - 1], pre[|pre| - 1];
      FrontLast(pre);
      Assoc(front, [f], post);
      DrainPlain(d, front, [f] + post, e);
      DrainOne(AbsorbAll(d, front), f, post, e);
      Assoc(Texts(front), TextsOf(f), Drain(AbsorbAll(d, pre), post, e).events);
    }
  }

  lemma DrainOne(d: State, f: Frame, post: seq<Frame>, e: Option<StreamError>)
    requires !d.done && d.err == None
    requires f.Ignored? || f.Chunk?
    ensures var d1 := if f.Chunk? then Absorb(d, f.w) else d;
            && !d1.done && d1.err == None
            && Drain(d, [f] + post, e) == After(TextsOf(f), Drain(d1, post, e))
  {
    var frames := [f] + post;
    assert frames[0] == f && frames[1..] == post;
    if f.Chunk? {
      AbsorbKeeps(d, f.w);
    }
    AppendNil(Drain(d, post, e).events);
  }

  /** The events of a buffer, in its own terms. */
  function Buffered(order: seq<int>, pending: map<int, PendingCall>): seq<StreamEvent>
    requires forall i :: 0 <= i < |order| ==> order[i] in pending
  {
    if order == [] then []
    else
      var ev := CallEventOf(pending[order[0]]);
      (if ev.Some? then [ev.value] else []) + Buffered(order[1..], pending)
  }

  lemma {:induction false} BufferedFrom(order: seq<int>, p: map<int, PendingCall>, q: map<int, PendingCall>)
    requires forall i :: 0 <= i < |order| ==> order[i] in p && order[i] in q && p[order[i]] == q[order[i]]
    ensures Buffered(order, p) == Buffered(order, q)
  {
    if order != [] {
      BufferedFrom(order[1..], p, q);
    }
  }

  lemma {:induction false} BufferedIsCallEvents(order: seq<int>, pending: map<int, PendingCall>, fs: seq<WireCall>)
    requires forall i :: 0 <= i < |order| ==> order[i] in pending && pending[order[i]] == Assembled(Only(fs, order[i]))
    ensures Buffered(order, pending) == CallEvents(order, fs)
  {
    if order != [] {
      BufferedIsCallEvents(order[1..], pending, fs);
    }
  }

  function Flushed(d: State): seq<StreamEvent>
    requires Ordered(d.order, d.pending)
  {
    Buffered(d.order, d.pending) + if d.flushed then [] else [DoneEvent(d)]
  }

  /** One flush emits the first event still buffered and leaves the others. */
  lemma {:induction false} FinishTakesFirst(d: State)
    requires Ordered(d.order, d.pending)
    ensures var (d1, ev) := Finish(d);
            && Ordered(d1.order, d1.pending)
            && d1.sawTerminal == d.sawTerminal && d1.err == d.err
            && (ev.Some? ==> d1.done == d.done && Flushed(d) == [ev.value] + Flushed(d1))
            && (ev.None? ==> Flushed(d) == [])
    decreases |d.order|
  {
    if d.order != [] {
      var i := d.order[0];
      var d1 := d.(order := d.order[1..], pending := d.pending - {i});
      PopOrdered(d.order, d.pending);
      BufferedFrom(d1.order, d.pending, d1.pending);
      var tail := if d.flushed then [] else [DoneEvent(d)];
      assert DoneEvent(d1) == DoneEvent(d);
      var ev := CallEventOf(d.pending[i]);
      if ev.Some? {
        Assoc([ev.value], Buffered(d1.order, d1.pending), tail);
      } else {
        AppendNil(Buffered(d1.order, d1.pending));
        FinishTakesFirst(d1);
      }
    } else if !d.flushed {
      AppendNil([DoneEvent(d)]);
    }
  }

  /** Once the end was signalled, a tail that bears no content only flushes. */
  lemma {:induction false} DrainInert(d: State, post: seq<Frame>)
    requires Ordered(d.order, d.pending) && !d.done && d.err == None && d.sawTerminal
    requires Inert(post)
    ensures Drain(d, post, None) == Outcome(Flushed(d), None)
    decreases |post|, ToFlush(d)
  {
    if post == [] || post[0].Sentinel? {
      var rest := if post == [] then [] else post[1..];
      assert d.(sawTerminal := true) == d;
      FinishTakesFirst(d);
      var (d1, ev) := Finish(d);
      if ev.Some? {
        DrainInert(d1, rest);
      }
    } else {
      assert InertFrame(post[0]);
      DrainInert(d, post[1..]);
    }
  }

  lemma SentinelSignals(d: State, rest: seq<Frame>, e: Option<StreamError>)
    requires !d.done && d.err == None
    ensures Drain(d, [Sentinel] + rest, e) == Drain(d.(sawTerminal := true), [Sentinel] + rest, e)
  {
  }

  /**
   Draining a well-formed frame list: the text deltas in frame order, then one call per named index
   in order of first appearance, then one terminal event with the last usage and the last reason.
   */
  lemma DrainWellFormed(pre: seq<Frame>, post: seq<Frame>)
    requires Plain(pre) && Inert(post)
    requires post != [] ==> post[0].Sentinel?
    requires HasFinish(pre) || post != []
    ensures var fs := Fragments(pre);
            var reason := if LastReason(pre) == NoReason then Unknown else LastReason(pre);
            Drain(START, pre + post, None) ==
            Outcome(Texts(pre) + (CallEvents(FirstSeen(fs), fs) + [Done(Some(LastUsage(pre)), reason)]), None)
  {
    DrainPlain(START, pre, post, None);
    AbsorbAllIs(pre);
    var fs := Fragments(pre);
    AccumulateIsAssembly(fs);
    var d := AbsorbAll(START, pre);
    BufferedIsCallEvents(d.order, d.pending, fs);
    if post != [] {
      Uncons(post);
      SentinelSignals(d, post[1..], None);
    }
    DrainInert(d.(sawTerminal := true), post);
    assert d.sawTerminal ==> d.(sawTerminal := true) == d;
  }

  /**
   A stream that is cut short delivers the text that came before and then says how it ended: with the
   host's own message, with the read error, or as truncated when nothing had signalled the end.
   */
  lemma DrainAborted(pre: seq<Frame>, message: string, post: seq<Frame>, e: Option<StreamError>)
    requires Plain(pre)
    ensures Drain(START, pre + ([Failure(message)] + post), e) == Outcome(Texts(pre), Some(Server(message)))
    ensures e.Some? ==> Drain(START, pre, e) == Outcome(Texts(pre), e)
    ensures !HasFinish(pre) ==> Drain(START, pre, None) == Outcome(Texts(pre), Some(Truncated))
  {
    DrainPlain(START, pre, [Failure(message)] + post, e);
    DrainPlain(START, pre, [], e);
    DrainPlain(START, pre, [], None);
    AbsorbAllIs(pre);
    AppendNil(pre);
    AppendNil(Texts(pre));
  }

  /** A body that breaks off before any sentinel or failure delivers its text and then the read error as it is. */
  lemma BrokenBody(codec: Codec, body: Bytes, readError: Sse.ReadError)
    requires Plain(Frames(codec, Sse.Decode(body, true)))
    ensures DrainBody(codec, body, Some(readError)) ==
            Outcome(Texts(Frames(codec, Sse.Decode(body, true))), Some(Transport(readError.message)))
  {
    DrainAborted(Frames(codec, Sse.Decode(body, true)), "", [], Some(Transport(readError.message)));
  }

  // ------------------------------------------------------------------
  // Draining any frame list
  // ------------------------------------------------------------------

  predicate AllText(events: seq<StreamEvent>) {
    forall i :: 0 <= i < |events| ==> events[i].TextDelta?
  }

  /**
   On any input at most one terminal event comes out, none before a terminal signal, and a drain
   ends without an error only when exactly one did; without a signal only text comes out, and then
   an error.
   */
  lemma {:induction false} DrainSafety(d: State, frames: seq<Frame>, e: Option<StreamError>)
    requires !d.done && d.err == None
    ensures var o := Drain(d, frames, e);
            && DoneCount(o.events) <= (if d.flushed then 0 else 1)
            && (o.err == None ==> DoneCount(o.events) == if d.flushed then 0 else 1)
            && (!HasTerminal(frames) && !d.sawTerminal && !d.flushed ==> o.err.Some? && AllText(o.events))
    decreases |frames|, ToFlush(d)
  {
    if frames == [] {
      if e.None? && (d.sawTerminal || d.flushed) {
        FinishSafety(d);
        var (d1, ev) := Finish(d);
        if ev.Some? {
          DrainSafety(d1, [], e);
        }
      }
    } else {
      var f, rest := frames[0], frames[1..];
      if HasTerminal(rest) {
        var i :| 0 <= i < |rest| && (rest[i].Sentinel? || Finishes(rest[i]));
        assert frames[i + 1] == rest[i];
      }
      match f
      case Ignored => DrainSafety(d, rest, e);
      case Failure(_) =>
      case Sentinel =>
        assert frames[0].Sentinel?;
        var d0 := d.(sawTerminal := true);
        FinishSafety(d0);
        var (d1, ev) := Finish(d0);
        if ev.Some? {
          DrainSafety(d1, rest, e);
        }
      case Chunk(w) =>
        AbsorbKeeps(d, w);
        if Finishes(f) {
          assert Finishes(frames[0]);
        }
        DrainSafety(Absorb(d, w), rest, e);
    }
  }

  lemma {:induction false} FinishSafety(d: State)
    ensures var (d1, ev) := Finish(d);
            && d1.err == d.err && d1.sawTerminal == d.sawTerminal
            && (ev.Some? ==> d1.done == d.done && !ev.value.TextDelta?)
            && (ev.Some? && ev.value.Done? ==> !d.flushed && d1.flushed && d1.order == [])
            && (ev.Some? && !ev.value.Done? ==> d1.flushed == d.flushed)
            && (ev.None? ==> d.flushed)
    decreases |d.order|
  {
    if d.order != [] {
      FinishSafety(d.(order := d.order[1..], pending := d.pending - {d.order[0]}));
    }
  }

  /** Without failures and read errors a drain succeeds exactly when a terminal signal arrived. */
  lemma {:induction false} DrainSucceedsIff(d: State, frames: seq<Frame>)
    requires !d.done && d.err == None
    requires NoFailure(frames)
    ensures Drain(d, frames, None).err == None <==> d.sawTerminal || d.flushed || HasTerminal(frames)
    decreases |frames|, ToFlush(d)
  {
    if d.sawTerminal || d.flushed || HasTerminal(frames) {
      DrainSucceeds(d, frames);
    } else {
      DrainSafety(d, frames, None);
    }
  }

  lemma {:induction false} DrainSucceeds(d: State, frames: seq<Frame>)
    requires !d.done && d.err == None
    requires NoFailure(frames)
    requires d.sawTerminal || d.flushed || HasTerminal(frames)
    ensures Drain(d, frames, None).err == None
    decreases |frames|, ToFlush(d)
  {
    if frames == [] || frames[0].Sentinel? {
      var d0 := if frames == [] then d else d.(sawTerminal := true);
      FinishSafety(d0);
      var (d1, ev) := Finish(d0);
      if ev.Some? {
        DrainSucceeds(d1, if frames == [] then [] else frames[1..]);
      }
    } else {
      var f, rest := frames[0], frames[1..];
      assert !frames[0].Failure?;
      if HasTerminal(frames) && !Finishes(f) {
        var i :| 0 <= i < |frames| && (frames[i].Sentinel? || Finishes(frames[i]));
        assert rest[i - 1] == frames[i];
      }
      if f.Chunk? {
        AbsorbKeeps(d, f.w);
        DrainSucceeds(Absorb(d, f.w), rest);
      } else {
        DrainSucceeds(d, rest);
      }
    }
  }

  /** A frame that the decoder cannot use changes nothing, wherever it stands. */
  lemma {:induction false} IgnoredAnywhere(d: State, a: seq<Frame>, b: seq<Frame>, e: Option<StreamError>)
    ensures Drain(d, a + ([Ignored] + b), e) == Drain(d, a + b, e)
    decreases |a|
  {
    var with, without := a + ([Ignored] + b), a + b;
    if a == [] {
      AppendNil(b);
      AppendNil([Ignored] + b);
      assert ([Ignored] + b)[1..] == b;
      IgnoredFirst(d, b, e);
    } else {
      assert with[1..] == a[1..] + ([Ignored] + b) && without[1..] == a[1..] + b;
      match a[0]
      case Ignored => IgnoredAnywhere(d, a[1..], b, e);
      case Failure(_) =>
      case Sentinel => IgnoredAnywhere(Finish(d.(sawTerminal := true)).0, a[1..], b, e);
      case Chunk(w) => IgnoredAnywhere(Absorb(d, w), a[1..], b, e);
    }
  }

  lemma IgnoredFirst(d: State, b: seq<Frame>, e: Option<StreamError>)
    ensures Drain(d, [Ignored] + b, e) == Drain(d, b, e)
  {
    assert ([Ignored] + b)[1..] == b;
  }

  /**
   So a record without data, or whose data does not parse, can be dropped from a stream or slipped into it
   anywhere: draining yields the same.
   */
  lemma UnparsedIsSkipped(codec: Codec, d: State, a: seq<Sse.Event>, r: Sse.Event, b: seq<Sse.Event>,
                          e: Option<StreamError>)
    requires r.data == [] || (r.data != DONE && codec.decode(r.data) == None)
    ensures Drain(d, Frames(codec, a + ([r] + b)), e) == Drain(d, Frames(codec, a + b), e)
  {
    assert Frames(codec, a + ([r] + b)) == Frames(codec, a) + ([Ignored] + Frames(codec, b));
    assert Frames(codec, a + b) == Frames(codec, a) + Frames(codec, b);
    IgnoredAnywhere(d, Frames(codec, a), Frames(codec, b), e);
  }

  // ------------------------------------------------------------------
  // Interleaving of tool-call fragments
  // ------------------------------------------------------------------

  lemma {:induction false} FirstSeenDistinct(fs: seq<WireCall>)
    ensures Distinct(FirstSeen(fs))
  {
    if fs != [] {
      FirstSeenDistinct(fs[..|fs| - 1]);
    }
  }

  lemma {:induction false} FirstSeenHas(fs: seq<WireCall>, i: int)
    ensures i in FirstSeen(fs) <==> Only(fs, i) != []
  {
    if fs != [] {
      FirstSeenHas(fs[..|fs| - 1], i);
    }
  }

  lemma BufferAt(fs: seq<WireCall>, i: int)
    ensures var p := AccumulateAll(START, fs).pending;
            && (i in p <==> Only(fs, i) != [])
            && (i in p ==> p[i] == Assembled(Only(fs, i)))
  {
    AccumulateIsAssembly(fs);
    FirstSeenHas(fs, i);
  }

  lemma {:induction false} CallEventsSplit(a: seq<int>, b: seq<int>, fs: seq<WireCall>)
    ensures CallEvents(a + b, fs) == CallEvents(a, fs) + CallEvents(b, fs)
  {
    if a == [] {
      AppendNil(b);
      AppendNil(CallEvents(b, fs));
    } else {
      assert (a + b)[1..] == a[1..] + b;
      CallEventsSplit(a[1..], b, fs);
      var ev := CallEventOf(Assembled(Only(fs, a[0])));
      Assoc(if ev.Some? then [ev.value] else [], CallEvents(a[1..], fs), CallEvents(b, fs));
    }
  }

  predicate Distinct(a: seq<int>) {
    forall j, k :: 0 <= j < k < |a| ==> a[j] != a[k]
  }

  function Without(b: seq<int>, n: nat): seq<int>
    requires n < |b|
  {
    b[..n] + b[n + 1..]
  }

  /** Taking one index out of a list takes its event out of the bag of events. */
  lemma CallEventsWithout(b: seq<int>, n: nat, fs: seq<WireCall>)
    requires n < |b|
    ensures multiset(b) == multiset{b[n]} + multiset(Without(b, n))
    ensures multiset(CallEvents(b, fs)) ==
            multiset(CallEvents([b[n]], fs)) + multiset(CallEvents(Without(b, n), fs))
  {
    Around(b, n);
    CallEventsSplit(b[..n], [b[n]] + b[n + 1..], fs);
    CallEventsSplit([b[n]], b[n + 1..], fs);
    CallEventsSplit(b[..n], b[n + 1..], fs);
  }

  lemma DistinctWithout(b: seq<int>, n: nat)
    requires n < |b| && Distinct(b)
    ensures Distinct(Without(b, n))
  {
  }

  lemma InWithout(b: seq<int>, n: nat, i: int)
    requires n < |b| && Distinct(b)
    ensures i in Without(b, n) <==> i in b && i != b[n]
  {
    if i in b && i != b[n] {
      var j :| 0 <= j < |b| && b[j] == i;
      if j < n {
        assert b[..n][j] == i;
      } else {
        assert b[n + 1..][j - n - 1] == i;
      }
    }
  }

  ghost predicate SameMembers(a: seq<int>, b: seq<int>) {
    forall i :: i in a <==> i in b
  }

  lemma MembersWithout(a: seq<int>, b: seq<int>, n: nat)
    requires SameMembers(a, b) && Distinct(a) && Distinct(b)
    requires a != [] && n < |b| && b[n] == a[0]
    ensures SameMembers(Without(a, 0), Without(b, n))
  {
    forall i ensures i in Without(a, 0) <==> i in Without(b, n) {
      InWithout(a, 0, i);
      InWithout(b, n, i);
      assert i in a <==> i in b;
    }
  }

  lemma HasMember(b: seq<int>)
    ensures b == [] || exists i :: i in b
  {
    if b != [] {
      var x := b[0];
      assert x in b;
    }
  }

  /** Two duplicate-free index lists with the same members emit the same calls, in some order. */
  lemma {:induction false} SameMembersSameCalls(a: seq<int>, b: seq<int>, fs: seq<WireCall>)
    requires SameMembers(a, b) && Distinct(a) && Distinct(b)
    ensures multiset(a) == multiset(b)
    ensures multiset(CallEvents(a, fs)) == multiset(CallEvents(b, fs))
    decreases |a|
  {
    if a == [] {
      HasMember(b);
    } else {
      assert a[0] in a;
      var n :| 0 <= n < |b| && b[n] == a[0];
      MembersWithout(a, b, n);
      DistinctWithout(a, 0);
      DistinctWithout(b, n);
      SameMembersSameCalls(Without(a, 0), Without(b, n), fs);
      CallEventsWithout(a, 0, fs);
      CallEventsWithout(b, n, fs);
    }
  }

  lemma {:induction false} SameCallEvents(order: seq<int>, fs: seq<WireCall>, gs: seq<WireCall>)
    requires forall k :: 0 <= k < |order| ==> Only(fs, order[k]) == Only(gs, order[k])
    ensures CallEvents(order, fs) == CallEvents(order, gs)
  {
    if order != [] {
      SameCallEvents(order[1..], fs, gs);
    }
  }

  /** The fragments of every call arrive in the same order in both lists. */
  ghost predicate SamePerCall(fs: seq<WireCall>, gs: seq<WireCall>) {
    forall i :: Only(fs, i) == Only(gs, i)
  }

  /**
   Assembly does not depend on how the fragments of different calls interleave: only the order in
   which the calls come out may change.
   */
  lemma InterleavingIrrelevant(fs: seq<WireCall>, gs: seq<WireCall>)
    requires SamePerCall(fs, gs)
    ensures AccumulateAll(START, fs).pending == AccumulateAll(START, gs).pending
    ensures multiset(FirstSeen(fs)) == multiset(FirstSeen(gs))
    ensures multiset(CallEvents(FirstSeen(fs), fs)) == multiset(CallEvents(FirstSeen(gs), gs))
  {
    SameBuffer(fs, gs);
    var a, b := FirstSeen(fs), FirstSeen(gs);
    FirstSeenDistinct(fs);
    FirstSeenDistinct(gs);
    forall i ensures i in a <==> i in b {
      FirstSeenHas(fs, i);
      FirstSeenHas(gs, i);
    }
    assert SameMembers(a, b);
    SameMembersSameCalls(a, b, gs);
    SameCallEvents(a, fs, gs);
  }

  lemma SameBuffer(fs: seq<WireCall>, gs: seq<WireCall>)
    requires SamePerCall(fs, gs)
    ensures AccumulateAll(START, fs).pending == AccumulateAll(START, gs).pending
  {
    var p, q := AccumulateAll(START, fs).pending, AccumulateAll(START, gs).pending;
    forall i ensures (i in p <==> i in q) && (i in p ==> p[i] == q[i]) {
      BufferAt(fs, i);
      BufferAt(gs, i);
    }
  }

  /** The same text, usage and finish reason, and the same fragments of every call. */
  ghost predicate SameButInterleaved(pre: seq<Frame>, other: seq<Frame>) {
    && SamePerCall(Fragments(pre), Fragments(other)) && Texts(pre) == Texts(other)
    && LastUsage(pre) == LastUsage(other) && LastReason(pre) == LastReason(other)
    && (HasFinish(pre) <==> HasFinish(other))
  }

  /**
   Two well-formed streams that interleave their calls differently yield the same events, of which only
   the calls may change places.
   */
  lemma InterleavedStreams(pre: seq<Frame>, other: seq<Frame>, post: seq<Frame>)
    requires Plain(pre) && Plain(other) && Inert(post) && SameButInterleaved(pre, other)
    requires post != [] ==> post[0].Sentinel?
    requires HasFinish(pre) || post != []
    ensures var a, b := Drain(START, pre + post, None), Drain(START, other + post, None);
            && a.err == b.err == None
            && multiset(a.events) == multiset(b.events)
            && |a.events| == |b.events| > |Texts(pre)|
            && a.events[..|Texts(pre)|] == b.events[..|Texts(pre)|] == Texts(pre)
            && a.events[|a.events| - 1] == b.events[|b.events| - 1]
  {
    DrainWellFormed(pre, post);
    DrainWellFormed(other, post);
    var fs, gs := Fragments(pre), Fragments(other);
    var reason := if LastReason(pre) == NoReason then Unknown else LastReason(pre);
    InterleavingIrrelevant(fs, gs);
    Permuted(Texts(pre), CallEvents(FirstSeen(fs), fs), CallEvents(FirstSeen(gs), gs),
             Done(Some(LastUsage(pre)), reason));
  }

  lemma Permuted<T>(a: seq<T>, b: seq<T>, c: seq<T>, x: T)
    requires multiset(b) == multiset(c)
    ensures var p, q := a + (b + [x]), a + (c + [x]);
            && multiset(p) == multiset(q)
            && |p| == |q| > |a| && p[..|a|] == q[..|a|] == a && p[|p| - 1] == q[|q| - 1]
  {
    assert |b| == |multiset(b)| == |c|;
  }
}
