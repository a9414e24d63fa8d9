/**
 The Gemini stream decoder: its queue-driven iterator, exactly what draining it yields on any input,
 and how a reply split into chunks compares with the same reply in one piece.
 */
module GeminiStream {
  import opened Bytes
  import opened GeminiWire
  import opened Seqs
  import opened Skyl
  import opened Wrappers
  import Sse

  datatype Frame = Ignored | Failure(message: string) | Chunk(w: WireResponse)

  function FrameOf(codec: Codec, data: Bytes): Frame {
    if data == [] then Ignored
    else
      match codec.decode(data)
      case None => Ignored
      case Some(w) => if w.error.Some? then Failure(w.error.value) else Chunk(w)
  }

  function Frames(codec: Codec, records: seq<Sse.Event>): (frames: seq<Frame>)
    ensures |frames| == |records|
    ensures forall i :: 0 <= i < |frames| ==> frames[i] == FrameOf(codec, records[i].data)
  {
    seq(|records|, i requires 0 <= i < |records| => FrameOf(codec, records[i].data))
  }

  lemma FramesUncons(codec: Codec, records: seq<Sse.Event>)
    requires records != []
    ensures Frames(codec, records) == [FrameOf(codec, records[0].data)] + Frames(codec, records[1..])
  {
  }

  // ------------------------------------------------------------------
  // State
  // ------------------------------------------------------------------

  datatype State = State(
    queued: seq<StreamEvent>,
    usage: Usage,
    reason: StopReason,
    flushed: bool,
    done: bool,
    sawTerminal: bool,
    err: Option<StreamError>)

  const START := State([], NO_USAGE, NoReason, false, false, false, None)

  predicate ReportsUsage(w: WireResponse) {
    w.usage.prompt > 0 || w.usage.candidates > 0
  }

  function UsageFrom(w: WireResponse): Usage {
    Usage(w.usage.prompt, w.usage.candidates, w.usage.cached, 0)
  }

  function WirePartsIn(w: WireResponse): seq<WirePart> {
    if w.candidates == [] then [] else w.candidates[0].content.parts
  }

  function FinishIn(w: WireResponse): string {
    if w.candidates == [] then "" else w.candidates[0].finishReason
  }

  function EventOf(p: Part): StreamEvent {
    if p.Call? then CallEvent(Some(p.call)) else TextDelta(TextOfPart(p))
  }

  function EventsOf(parts: seq<Part>): (events: seq<StreamEvent>)
    ensures |events| == |parts|
    ensures forall i :: 0 <= i < |parts| ==> events[i] == EventOf(parts[i])
  {
    seq(|parts|, i requires 0 <= i < |parts| => EventOf(parts[i]))
  }

  function Absorb(d: State, w: WireResponse): State {
    var d1 := if ReportsUsage(w) then d.(usage := UsageFrom(w)) else d;
    var d2 :=
      if FinishIn(w) != ""
      then d1.(reason := MapFinishReason(FinishIn(w), HasCalls(WirePartsIn(w))), sawTerminal := true) else d1;
    d2.(queued := d2.queued + EventsOf(PartsFromWire(WirePartsIn(w))))
  }

  function DoneEvent(d: State): StreamEvent {
    Done(Some(d.usage), if d.reason == NoReason then Unknown else d.reason)
  }

  /** Everything calling Next until it is false yields, from a state and the frames still to come. */
  function Drain(d: State, frames: seq<Frame>, readError: Option<StreamError>): Outcome
    decreases |frames|, |d.queued|, if d.flushed then 0 else 1
  {
    if d.done || d.err.Some? then Outcome([], d.err)
    else if d.queued != [] then
      Emit(d.queued[0], Drain(d.(queued := d.queued[1..]), frames, readError))
    else if frames == [] then
      if readError.Some? then Outcome([], readError)
      else if !d.sawTerminal && !d.flushed then Outcome([], Some(Truncated))
      else if !d.flushed then Emit(DoneEvent(d), Drain(d.(flushed := true), [], readError))
      else Outcome([], None)
    else
      match frames[0]
      case Ignored => Drain(d, frames[1..], readError)
      case Failure(m) => Outcome([], Some(Server(m)))
      case Chunk(w) => Drain(Absorb(d, w), frames[1..], readError)
  }

  function DrainBody(codec: Codec, body: Bytes, readError: Option<Sse.ReadError>): Outcome {
    Drain(START, Frames(codec, Sse.Decode(body, readError.Some?)), TransportError(readError))
  }

  // ------------------------------------------------------------------
  // The iterator
  // ------------------------------------------------------------------

  class Stream {
    const codec: Codec
    const reader: Sse.Reader

    var ev: StreamEvent
    var err: Option<StreamError>
    var queued: seq<StreamEvent>
    var usage: Usage
    var stopReason: StopReason
    var flushed: bool
    var done: bool
    var sawTerminal: bool

    constructor (codec: Codec, body: Bytes, readError: Option<Sse.ReadError>)
      ensures reader.Valid() && fresh(reader) && fresh(reader.sc)
      ensures Rest() == DrainBody(codec, body, readError)
      ensures Current() == START
    {
      this.codec := codec;
      reader := new Sse.Reader(body, readError);
      ev := TextDelta("");
      err := None;
      queued := [];
      usage := NO_USAGE;
      stopReason := NoReason;
      flushed, done, sawTerminal := false, false, false;
    }

    ghost function Current(): State
      reads this
    {
      State(queued, usage, stopReason, flushed, done, sawTerminal, err)
    }

    ghost function FramesLeft(): seq<Frame>
      reads this, reader, reader.sc
    {
      Frames(codec, reader.Remaining())
    }

    /** What the calls of Next still to come will yield. */
    ghost function Rest(): Outcome
      reads this, reader, reader.sc
    {
      Drain(Current(), FramesLeft(), TransportError(reader.sc.readError))
    }

    method Next() returns (ok: bool)
      requires reader.Valid()
      modifies this, reader, reader.sc
      ensures reader.Valid()
      ensures ok ==> old(Rest()) == Emit(ev, Rest())
      ensures !ok ==> old(Rest()) == Outcome([], err) == Rest()
      ensures !ok ==> done || err.Some?
      ensures old(done || err.Some?) ==> !ok && Current() == old(Current()) && ev == old(ev)
    {
      if done || err.Some? {
        return false;
      }
      if |queued| > 0 {
        Dequeue();
        return true;
      }

      while true
        invariant reader.Valid() && !done && err == None && queued == []
        invariant old(Rest()) == Rest()
        decreases |FramesLeft()|
      {
        var more, returning;
        more, returning, ok := TakeRecord();
        if !more {
          break;
        }
        if returning {
          return;
        }
      }

      ok := Conclude(reader.err);
    }

    /** Reads one record, if there is one, and handles it; tells whether Next returns, and with what. */
    method TakeRecord() returns (more: bool, returning: bool, ok: bool)
      requires reader.Valid() && !done && err == None && queued == []
      modifies this, reader, reader.sc
      ensures reader.Valid()
      ensures !more ==> !returning && FramesLeft() == [] && reader.err == reader.sc.readError
      ensures more ==> |FramesLeft()| < |old(FramesLeft())|
      ensures !returning ==> !done && err == None && queued == [] && old(Rest()) == Rest()
      ensures returning && ok ==> old(Rest()) == Emit(ev, Rest())
      ensures returning && !ok ==> old(Rest()) == Outcome([], err) && err.Some?
    {
      ghost var records, e := reader.Remaining(), TransportError(reader.sc.readError);
      more := reader.Next();
      if !more {
        return false, false, false;
      }
      var data := reader.ev.data;
      ghost var left := FramesLeft();
      FramesUncons(codec, records);
      returning, ok := HandleRecord(data, left, e);
    }

    /** The end of the body: an error, or the terminal event once, or nothing more. */
    method Conclude(readError: Option<Sse.ReadError>) returns (ok: bool)
      requires !done && err == None && queued == []
      modifies this
      ensures ok ==>
        Drain(old(Current()), [], TransportError(readError)) ==
        Emit(ev, Drain(Current(), [], TransportError(readError)))
      ensures !ok ==>
        Drain(old(Current()), [], TransportError(readError)) == Outcome([], err) && (done || err.Some?)
    {
      if readError.Some? {
        err := Some(Transport(readError.value.message));
        return false;
      }
      if !sawTerminal && !flushed {
        err := Some(Truncated);
        return false;
      }
      if !flushed {
        flushed := true;
        ev := Done(Some(usage), if stopReason == NoReason then Unknown else stopReason);
        return true;
      }
      done := true;
      return false;
    }

    method Dequeue()
      requires queued != []
      modifies this`ev, this`queued
      ensures ev == old(queued)[0] && queued == old(queued)[1..]
    {
      ev := queued[0];
      queued := queued[1..];
    }

    /** Handles one record; tells whether Next returns now, and with what. */
    method HandleRecord(data: Bytes, ghost left: seq<Frame>, ghost e: Option<StreamError>)
      returns (returning: bool, ok: bool)
      requires !done && err == None && queued == []
      modifies this
      ensures !returning ==> !done && err == None && queued == []
      ensures !returning ==> Drain(old(Current()), [FrameOf(codec, data)] + left, e) == Drain(Current(), left, e)
      ensures returning && ok ==>
        Drain(old(Current()), [FrameOf(codec, data)] + left, e) == Emit(ev, Drain(Current(), left, e))
      ensures returning && !ok ==>
        Drain(old(Current()), [FrameOf(codec, data)] + left, e) == Outcome([], err) && err.Some?
    {
      ghost var frames := [FrameOf(codec, data)] + left;
      assert frames[1..] == left;
      if |data| == 0 {
        return false, false;
      }
      var parsed := codec.decode(data);
      if parsed.None? {
        return false, false;
      }
      var chunk := parsed.value;
      if chunk.error.Some? {
        err := Some(Server(chunk.error.value));
        return true, false;
      }
      AbsorbChunk(chunk);
      if |queued| > 0 {
        Dequeue();
        return true, true;
      }
      return false, false;
    }

    method AbsorbChunk(chunk: WireResponse)
      modifies this
      ensures Current() == Absorb(old(Current()), chunk) && ev == old(ev)
    {
      if chunk.usage.prompt > 0 || chunk.usage.candidates > 0 {
        usage := UsageFrom(chunk);
      }
      if |chunk.candidates| == 0 {
        AppendNil(queued);
        return;
      }
      var cand := chunk.candidates[0];
      var parts, hasCalls := PartsFromCandidate(cand.content);
      if cand.finishReason != "" {
        stopReason := MapFinishReason(cand.finishReason, hasCalls);
        sawTerminal := true;
      }
      Enqueue(parts);
    }

    method Enqueue(parts: seq<Part>)
      modifies this`queued
      ensures queued == old(queued) + EventsOf(parts)
    {
      AppendNil(queued);
      for i := 0 to |parts|
        invariant queued == old(queued) + EventsOf(parts[..i])
      {
        assert EventsOf(parts[..i + 1]) == EventsOf(parts[..i]) + [EventOf(parts[i])];
        Assoc(old(queued), EventsOf(parts[..i]), [EventOf(parts[i])]);
        queued := queued + [EventOf(parts[i])];
      }
      assert parts[..|parts|] == parts;
    }
  }

  /** Iterating a stream to its end delivers everything it owes, and leaves the error it ends with. */
  method Iterate(s: Stream) returns (events: seq<StreamEvent>)
    requires s.reader.Valid()
    modifies s, s.reader, s.reader.sc
    ensures Outcome(events, s.err) == old(s.Rest())
  {
    events := [];
    ghost var owed := s.Rest();
    AppendNil(owed.events);
    while true
      invariant s.reader.Valid()
      invariant owed == After(events, s.Rest())
      decreases |s.Rest().events|
    {
      ghost var before := s.Rest();
      var ok := s.Next();
      if !ok {
        AppendNil(events);
        return;
      }
      Assoc(events, [s.ev], s.Rest().events);
      events := events + [s.ev];
    }
  }

  // ------------------------------------------------------------------
  // What draining yields, on any input
  // ------------------------------------------------------------------

  /** All the wire parts of the chunks before the first failure, in order. */
  function AllWireParts(frames: seq<Frame>): seq<WirePart> {
    if frames == [] || frames[0].Failure? then []
    else (if frames[0].Chunk? then WirePartsIn(frames[0].w) else []) + AllWireParts(frames[1..])
  }

  predicate Finishes(f: Frame) {
    f.Chunk? && FinishIn(f.w) != ""
  }

  predicate HasFinish(frames: seq<Frame>) {
    exists i :: 0 <= i < |frames| && Finishes(frames[i])
  }

  predicate NoFailure(frames: seq<Frame>) {
    forall i :: 0 <= i < |frames| ==> !frames[i].Failure?
  }

  function FirstFailure(frames: seq<Frame>): (n: nat)
    ensures n <= |frames|
    ensures n < |frames| ==> frames[n].Failure?
    ensures forall i :: 0 <= i < n ==> !frames[i].Failure?
  {
    if frames == [] || frames[0].Failure? then 0 else 1 + FirstFailure(frames[1..])
  }

  /** The usage the last reporting chunk gives. */
  function LastUsage(usage: Usage, frames: seq<Frame>): Usage
    decreases |frames|
  {
    if frames == [] then usage
    else LastUsage(if frames[0].Chunk? && ReportsUsage(frames[0].w) then UsageFrom(frames[0].w) else usage, frames[1..])
  }

  /** The reason the last finishing chunk gives, judged by the calls of that chunk alone. */
  function LastReason(reason: StopReason, frames: seq<Frame>): StopReason
    decreases |frames|
  {
    if frames == [] then reason
    else LastReason(if Finishes(frames[0]) then ReasonOf(frames[0].w) else reason, frames[1..])
  }

  function ReasonOf(w: WireResponse): StopReason {
    MapFinishReason(FinishIn(w), HasCalls(WirePartsIn(w)))
  }

  function Ending(d: State, frames: seq<Frame>, e: Option<StreamError>): Outcome {
    var n := FirstFailure(frames);
    if n < |frames| then Outcome([], Some(Server(frames[n].message)))
    else if e.Some? then Outcome([], e)
    else if !d.sawTerminal && !HasFinish(frames) then Outcome([], Some(Truncated))
    else
      var reason := LastReason(d.reason, frames);
      Outcome([Done(Some(LastUsage(d.usage, frames)), if reason == NoReason then Unknown else reason)], None)
  }

  lemma {:induction false} DrainQueue(d: State, frames: seq<Frame>, e: Option<StreamError>)
    requires !d.done && d.err == None
    ensures Drain(d, frames, e) == After(d.queued, Drain(d.(queued := []), frames, e))
    decreases |d.queued|
  {
    var d0 := d.(queued := []);
    if d.queued == [] {
      assert d0 == d;
      AppendNil(Drain(d, frames, e).events);
    } else {
      DrainQueue(d.(queued := d.queued[1..]), frames, e);
      assert d.(queued := d.queued[1..]).(queued := []) == d0;
      Uncons(d.queued);
      Assoc([d.queued[0]], d.queued[1..], Drain(d0, frames, e).events);
    }
  }

  lemma EventsOfAppend(a: seq<Part>, b: seq<Part>)
    ensures EventsOf(a + b) == EventsOf(a) + EventsOf(b)
  {
  }

  lemma HasFinishCons(f: Frame, rest: seq<Frame>)
    ensures HasFinish([f] + rest) == (Finishes(f) || HasFinish(rest))
  {
    var frames := [f] + rest;
    if HasFinish(rest) {
      var i :| 0 <= i < |rest| && Finishes(rest[i]);
      assert frames[i + 1] == rest[i];
    }
    if Finishes(f) {
      assert Finishes(frames[0]);
    }
  }

  lemma EndingCons(d: State, f: Frame, rest: seq<Frame>, e: Option<StreamError>)
    requires !f.Failure?
    ensures Ending(d, [f] + rest, e) == Ending(if f.Chunk? then Absorb(d, f.w) else d, rest, e)
  {
    var frames := [f] + rest;
    assert frames[1..] == rest;
    HasFinishCons(f, rest);
  }

  lemma EndingIgnoresQueue(d: State, frames: seq<Frame>, e: Option<StreamError>)
    ensures Ending(d.(queued := []), frames, e) == Ending(d, frames, e)
  {
  }

  lemma DrainChunk(d: State, w: WireResponse, rest: seq<Frame>, e: Option<StreamError>)
    requires !d.done && d.err == None && !d.flushed && d.queued == []
    requires var d1 := Absorb(d, w).(queued := []);
             Drain(d1, rest, e) == After(EventsOf(PartsFromWire(AllWireParts(rest))), Ending(d1, rest, e))
    ensures Drain(d, [Chunk(w)] + rest, e) ==
            After(EventsOf(PartsFromWire(WirePartsIn(w) + AllWireParts(rest))), Ending(d, [Chunk(w)] + rest, e))
  {
    var frames := [Chunk(w)] + rest;
    assert frames[1..] == rest;
    DrainQueue(Absorb(d, w), rest, e);
    AppendNil(EventsOf(PartsFromWire(WirePartsIn(w))));
    EndingIgnoresQueue(Absorb(d, w), rest, e);
    EndingCons(d, Chunk(w), rest, e);
    FlattenStep(WirePartsIn(w), AllWireParts(rest), Ending(Absorb(d, w), rest, e));
  }

  /**
   Draining any frame list: every part before the first failure, flattened in order, and then one
   ending: the failure, the read error, a truncation error, or one terminal event.
   */
  lemma {:induction false} DrainIs(d: State, frames: seq<Frame>, e: Option<StreamError>)
    requires !d.done && d.err == None && !d.flushed && d.queued == []
    ensures Drain(d, frames, e) == After(EventsOf(PartsFromWire(AllWireParts(frames))), Ending(d, frames, e))
    decreases |frames|
  {
    if frames == [] {
      DrainNothing(d, e);
    } else {
      var f, rest := frames[0], frames[1..];
      Uncons(frames);
      match f
      case Ignored =>
        DrainIs(d, rest, e);
        EndingCons(d, f, rest, e);
        AppendNil(AllWireParts(rest));
      case Failure(_) =>
        assert AllWireParts(frames) == [];
      case Chunk(w) =>
        DrainIs(Absorb(d, w).(queued := []), rest, e);
        DrainChunk(d, w, rest, e);
    }
  }

  lemma DrainNothing(d: State, e: Option<StreamError>)
    requires !d.done && d.err == None && !d.flushed && d.queued == []
    ensures Drain(d, [], e) == Ending(d, [], e) == After([], Ending(d, [], e))
  {
    var d1 := d.(flushed := true);
    if e.None? && d.sawTerminal {
      assert Drain(d1, [], e) == Outcome([], None);
      AppendNil([DoneEvent(d)]);
    }
    AppendNil(Ending(d, [], e).events);
  }

  lemma FlattenStep(a: seq<WirePart>, b: seq<WirePart>, o: Outcome)
    ensures After(EventsOf(PartsFromWire(a)), After(EventsOf(PartsFromWire(b)), o)) ==
            After(EventsOf(PartsFromWire(a + b)), o)
  {
    PartsFromWireAppend(a, b);
    EventsOfAppend(PartsFromWire(a), PartsFromWire(b));
    Assoc(EventsOf(PartsFromWire(a)), EventsOf(PartsFromWire(b)), o.events);
  }

  lemma {:induction false} PartsBeforeFailure(a: seq<Frame>, message: string, b: seq<Frame>)
    requires NoFailure(a)
    ensures AllWireParts(a + ([Failure(message)] + b)) == AllWireParts(a)
    ensures FirstFailure(a + ([Failure(message)] + b)) == |a|
  {
    var frames := a + ([Failure(message)] + b);
    if a != [] {
      assert frames[1..] == a[1..] + ([Failure(message)] + b) && !a[0].Failure?;
      PartsBeforeFailure(a[1..], message, b);
    }
  }

  /** The host's own error ends the stream with its message, after all that came before it and whatever follows. */
  lemma HostErrorEnds(codec: Codec, a: seq<Sse.Event>, r: Sse.Event, b: seq<Sse.Event>, w: WireResponse,
                      message: string, e: Option<StreamError>)
    requires r.data != [] && codec.decode(r.data) == Some(w) && w.error == Some(message)
    requires NoFailure(Frames(codec, a))
    ensures Drain(START, Frames(codec, a + ([r] + b)), e) ==
            Outcome(EventsOf(PartsFromWire(AllWireParts(Frames(codec, a)))), Some(Server(message)))
  {
    var before, after := Frames(codec, a), Frames(codec, b);
    assert Frames(codec, a + ([r] + b)) == before + ([Failure(message)] + after);
    DrainIs(START, before + ([Failure(message)] + after), e);
    PartsBeforeFailure(before, message, after);
    AppendNil(EventsOf(PartsFromWire(AllWireParts(before))));
  }

  /** A body that breaks off before any failure delivers all its parts and then the read error as it is. */
  lemma BrokenBody(codec: Codec, body: Bytes, readError: Sse.ReadError)
    requires NoFailure(Frames(codec, Sse.Decode(body, true)))
    ensures DrainBody(codec, body, Some(readError)) ==
            Outcome(EventsOf(PartsFromWire(AllWireParts(Frames(codec, Sse.Decode(body, true))))),
                    Some(Transport(readError.message)))
  {
    var frames := Frames(codec, Sse.Decode(body, true));
    DrainIs(START, frames, Some(Transport(readError.message)));
    AppendNil(EventsOf(PartsFromWire(AllWireParts(frames))));
  }

  /** A record without data, or whose data does not parse, makes no difference wherever it stands. */
  lemma UnparsedIsSkipped(codec: Codec, a: seq<Sse.Event>, r: Sse.Event, b: seq<Sse.Event>, e: Option<StreamError>)
    requires r.data == [] || codec.decode(r.data) == None
    ensures Drain(START, Frames(codec, a + ([r] + b)), e) == Drain(START, Frames(codec, a + b), e)
  {
    var before, after := Frames(codec, a), Frames(codec, b);
    assert Frames(codec, a + ([r] + b)) == before + ([Ignored] + after);
    assert Frames(codec, a + b) == before + after;
    IgnoredAnywhere(START, before, after, e);
  }

  lemma {:induction false} IgnoredAnywhere(d: State, a: seq<Frame>, b: seq<Frame>, e: Option<StreamError>)
    requires !d.done && d.err == None && !d.flushed && d.queued == []
    ensures Drain(d, a + ([Ignored] + b), e) == Drain(d, a + b, e)
    decreases |a|
  {
    if a == [] {
      assert ([Ignored] + b)[1..] == b;
      AppendNil(b);
      AppendNil([Ignored] + b);
    } else {
      var tail, short := a[1..] + ([Ignored] + b), a[1..] + b;
      assert (a + ([Ignored] + b))[1..] == tail && (a + b)[1..] == short;
      match a[0]
      case Ignored => IgnoredAnywhere(d, a[1..], b, e);
      case Failure(_) =>
      case Chunk(w) =>
        IgnoredAnywhere(Absorb(d, w).(queued := []), a[1..], b, e);
        DrainQueue(Absorb(d, w), tail, e);
        DrainQueue(Absorb(d, w), short, e);
    }
  }

  /** An ending is one terminal event and no error, or no event and an error. */
  lemma EndingShape(frames: seq<Frame>, e: Option<StreamError>)
    ensures var o := Ending(START, frames, e);
            && (o.err == None <==> NoFailure(frames) && e.None? && HasFinish(frames))
            && (o.err == None <==> |o.events| == 1 && o.events[0].Done?)
            && (o.err.Some? <==> o.events == [])
  {
  }

  /** A terminal event at the end of events that are none. */
  lemma LastOf(parts: seq<StreamEvent>, ending: seq<StreamEvent>)
    requires forall i :: 0 <= i < |parts| ==> !parts[i].Done?
    requires ending == [] || (|ending| == 1 && ending[0].Done?)
    ensures forall i :: 0 <= i < |parts + ending| && (parts + ending)[i].Done? ==>
              i == |parts + ending| - 1 && ending != []
    ensures ending != [] <==> parts + ending != [] && (parts + ending)[|parts + ending| - 1].Done?
  {
  }

  /** On any input the terminal event comes at most once and last, and exactly when there is no error. */
  lemma DoneIsLast(frames: seq<Frame>, e: Option<StreamError>)
    ensures var o := Drain(START, frames, e);
            && (forall i :: 0 <= i < |o.events| && o.events[i].Done? ==> i == |o.events| - 1 && o.err == None)
            && (o.err == None <==> o.events != [] && o.events[|o.events| - 1].Done?)
            && (o.err == None <==> NoFailure(frames) && e.None? && HasFinish(frames))
  {
    DrainIs(START, frames, e);
    EndingShape(frames, e);
    LastOf(EventsOf(PartsFromWire(AllWireParts(frames))), Ending(START, frames, e).events);
  }

  // ------------------------------------------------------------------
  // A reply in chunks and in one piece
  // ------------------------------------------------------------------

  /** The reply to a request that is not streamed, as far as it maps from the first candidate. */
  function Whole(c: Candidate): (seq<Part>, StopReason) {
    (PartsFromWire(c.content.parts), MapFinishReason(c.finishReason, HasCalls(c.content.parts)))
  }

  lemma {:induction false} FoldsOfEvents(parts: seq<Part>)
    requires forall i :: 0 <= i < |parts| ==> parts[i].Text? || parts[i].Call?
    ensures Deltas(EventsOf(parts)) == TextOf(parts)
    ensures CallsIn(EventsOf(parts)) == CallsOf(parts)
  {
    if parts != [] {
      var front := parts[..|parts| - 1];
      FoldsOfEvents(front);
      assert EventsOf(parts)[..|parts| - 1] == EventsOf(front);
    }
  }

  lemma {:induction false} WireMakesTextAndCalls(ps: seq<WirePart>)
    ensures forall i :: 0 <= i < |PartsFromWire(ps)| ==> PartsFromWire(ps)[i].Text? || PartsFromWire(ps)[i].Call?
  {
    if ps != [] {
      WireMakesTextAndCalls(ps[..|ps| - 1]);
    }
  }

  /** The last chunk that finishes the reply. */
  ghost predicate FinishesLast(frames: seq<Frame>, last: nat) {
    && last < |frames| && Finishes(frames[last])
    && forall i :: last < i < |frames| ==> !Finishes(frames[i])
  }

  lemma {:induction false} LastReasonIs(reason: StopReason, frames: seq<Frame>, last: nat)
    requires FinishesLast(frames, last)
    ensures LastReason(reason, frames) == ReasonOf(frames[last].w)
    decreases |frames|
  {
    var rest := frames[1..];
    if last > 0 {
      assert FinishesLast(rest, last - 1);
      LastReasonIs(if Finishes(frames[0]) then ReasonOf(frames[0].w) else reason, rest, last - 1);
    } else {
      NoMoreReasons(ReasonOf(frames[0].w), rest);
    }
  }

  lemma {:induction false} NoMoreReasons(reason: StopReason, frames: seq<Frame>)
    requires forall i :: 0 <= i < |frames| ==> !Finishes(frames[i])
    ensures LastReason(reason, frames) == reason
  {
    if frames != [] {
      NoMoreReasons(reason, frames[1..]);
    }
  }

  /**
   However a finished reply is split into chunks, collecting the stream gives the text and the calls
   of the reply in one piece. The stop reason also agrees exactly when the reply has no calls, or the
   last finishing chunk has one, or its finish reason is one the mapping does not know: a chunk's
   reason is judged by its own calls.
   */
  lemma SplitReply(frames: seq<Frame>, last: nat, provider: string, model: string)
    requires NoFailure(frames) && FinishesLast(frames, last)
    ensures var s := Collected(Drain(START, frames, None), provider, model);
            var finish := FinishIn(frames[last].w);
            var (parts, reason) := Whole(Candidate(WireContent("model", AllWireParts(frames)), finish));
            && s.Ok?
            && TextOf(s.value.message.parts) == TextOf(parts)
            && CallsOf(s.value.message.parts) == CallsOf(parts)
            && (s.value.stopReason == reason <==>
                  || CallsOf(parts) == []
                  || HasCalls(WirePartsIn(frames[last].w))
                  || MapFinishReason(finish, false) == Unknown)
  {
    DrainIs(START, frames, None);
    assert HasFinish(frames);
    LastReasonIs(NoReason, frames, last);
    var ps := AllWireParts(frames);
    var parts := PartsFromWire(ps);
    WireMakesTextAndCalls(ps);
    FoldsOfEvents(parts);
    HasCallsIff(ps);
    LastHasCalls(frames, last);
    var usage := LastUsage(NO_USAGE, frames);
    DoneFolds(EventsOf(parts), usage, ReasonOf(frames[last].w));
    CollectedParts(Drain(START, frames, None), provider, model);
  }

  predicate CountsTokens(f: Frame) {
    f.Chunk? && (f.w.usage.prompt > 0 || f.w.usage.candidates > 0)
  }

  /** The last chunk that reports any tokens. */
  ghost predicate CountsLast(frames: seq<Frame>, k: nat) {
    k < |frames| && CountsTokens(frames[k]) && forall i :: k < i < |frames| ==> !CountsTokens(frames[i])
  }

  lemma {:induction false} LastUsageIs(usage: Usage, frames: seq<Frame>, k: nat)
    requires CountsLast(frames, k)
    ensures var u := frames[k].w.usage;
            LastUsage(usage, frames) == Usage(u.prompt, u.candidates, u.cached, 0)
    decreases |frames|
  {
    var rest := frames[1..];
    if k > 0 {
      assert CountsLast(rest, k - 1);
      LastUsageIs(if CountsTokens(frames[0]) then UsageFrom(frames[0].w) else usage, rest, k - 1);
    } else {
      NoMoreUsage(UsageFrom(frames[0].w), rest);
    }
  }

  lemma {:induction false} NoMoreUsage(usage: Usage, frames: seq<Frame>)
    requires forall i :: 0 <= i < |frames| ==> !CountsTokens(frames[i])
    ensures LastUsage(usage, frames) == usage
    decreases |frames|
  {
    if frames != [] {
      assert !CountsTokens(frames[0]);
      NoMoreUsage(usage, frames[1..]);
    }
  }

  lemma FinishedTells(frames: seq<Frame>, provider: string, model: string)
    requires NoFailure(frames) && HasFinish(frames)
    ensures TellsUsage(Drain(START, frames, None), provider, model, LastUsage(NO_USAGE, frames))
  {
    DrainIs(START, frames, None);
    var usage, reason := LastUsage(NO_USAGE, frames), LastReason(NoReason, frames);
    DoneTells(EventsOf(PartsFromWire(AllWireParts(frames))), usage,
              if reason == NoReason then Unknown else reason, provider, model);
  }

  /**
   In wire numbers: the tokens a caller reads off a finished stream are the prompt, candidates and cached
   counts of the last chunk that reports any, and zero when none does.
   */
  lemma StreamUsageIs(frames: seq<Frame>, provider: string, model: string)
    requires NoFailure(frames) && HasFinish(frames)
    ensures var o := Drain(START, frames, None);
            && (forall k: nat :: CountsLast(frames, k) ==>
                  var u := frames[k].w.usage;
                  TellsUsage(o, provider, model, Usage(u.prompt, u.candidates, u.cached, 0)))
            && ((forall i :: 0 <= i < |frames| ==> !CountsTokens(frames[i])) ==>
                  TellsUsage(o, provider, model, Usage(0, 0, 0, 0)))
  {
    FinishedTells(frames, provider, model);
    forall k: nat | CountsLast(frames, k)
      ensures var u := frames[k].w.usage;
              LastUsage(NO_USAGE, frames) == Usage(u.prompt, u.candidates, u.cached, 0)
    {
      LastUsageIs(NO_USAGE, frames, k);
    }
    if forall i :: 0 <= i < |frames| ==> !CountsTokens(frames[i]) {
      NoMoreUsage(NO_USAGE, frames);
    }
  }

  /** The finish reasons that Gemini spells each stop reason with, when the chunk has no call. */
  predicate Means(spelled: string, reason: StopReason) {
    match reason
    case EndTurn => spelled == "STOP"
    case MaxTokens => spelled == "MAX_TOKENS"
    case Refusal => spelled in {"SAFETY", "RECITATION", "BLOCKLIST", "PROHIBITED_CONTENT", "SPII"}
    case Unknown =>
      spelled !in {"STOP", "MAX_TOKENS", "SAFETY", "RECITATION", "BLOCKLIST", "PROHIBITED_CONTENT", "SPII"}
    case _ => false
  }

  lemma FinishReasons(s: string)
    ensures Means(s, MapFinishReason(s, false)) && MapFinishReason(s, true) == ToolUse
  {
  }

  /** A finished stream ends with tool use if its last finishing chunk has a call, else as that chunk says. */
  lemma StreamReasonIs(frames: seq<Frame>, last: nat)
    requires NoFailure(frames) && FinishesLast(frames, last)
    ensures var o := Drain(START, frames, None);
            && o.events != [] && o.events[|o.events| - 1].Done?
            && var reason := o.events[|o.events| - 1].reason;
               if HasCalls(WirePartsIn(frames[last].w)) then reason == ToolUse
               else Means(frames[last].w.candidates[0].finishReason, reason)
  {
    DrainIs(START, frames, None);
    assert HasFinish(frames);
    LastReasonIs(NoReason, frames, last);
    FinishReasons(frames[last].w.candidates[0].finishReason);
  }

  lemma {:induction false} LastHasCalls(frames: seq<Frame>, last: nat)
    requires NoFailure(frames) && last < |frames| && frames[last].Chunk?
    ensures HasCalls(WirePartsIn(frames[last].w)) ==> HasCalls(AllWireParts(frames))
  {
    var f, rest := frames[0], frames[1..];
    assert !frames[0].Failure?;
    HasCallsAppend(if f.Chunk? then WirePartsIn(f.w) else [], AllWireParts(rest));
    if last > 0 {
      LastHasCalls(rest, last - 1);
    }
  }

  /** A concrete disagreement: the call in one chunk, the finish in the next. */
  lemma LateFinishDisagrees()
    ensures var part := EMPTY_WIRE_PART.(call := Some(FunctionCall("f", "{}")));
            var frames := [Chunk(ChunkOf([part], "")), Chunk(ChunkOf([], "STOP"))];
            var s := Collected(Drain(START, frames, None), "gemini", "m");
            s.Ok? && s.value.stopReason != Whole(Candidate(WireContent("model", AllWireParts(frames)), "STOP")).1
  {
    var part := EMPTY_WIRE_PART.(call := Some(FunctionCall("f", "{}")));
    var frames := [Chunk(ChunkOf([part], "")), Chunk(ChunkOf([], "STOP"))];
    AllPartsOfTwo(part);
    HasCallsIff([part]);
    SplitReply(frames, 1, "gemini", "m");
  }

  function ChunkOf(parts: seq<WirePart>, finish: string): WireResponse {
    WireResponse([Candidate(WireContent("model", parts), finish)], WireUsage(0, 0, 0), None)
  }

  lemma AllPartsOfTwo(part: WirePart)
    ensures AllWireParts([Chunk(ChunkOf([part], "")), Chunk(ChunkOf([], "STOP"))]) == [part]
  {
    var frames := [Chunk(ChunkOf([part], "")), Chunk(ChunkOf([], "STOP"))];
    assert frames[1..] == [Chunk(ChunkOf([], "STOP"))];
    assert frames[1..][1..] == [];
    assert AllWireParts(frames[1..]) == [];
  }
}
