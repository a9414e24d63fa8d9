/**
 The OpenAI stream decoder: what each frame does to its state, what draining it yields, and the
 pull iterator that refines both.
 */
module OaiStream {
  import opened Bytes
  import opened OaiWire
  import opened Seqs
  import opened Skyl
  import opened Wrappers
  import Sse

  // ------------------------------------------------------------------
  // Frames
  // ------------------------------------------------------------------

  /** What one record's data is to the decoder. */
  datatype Frame = Ignored | Sentinel | Failure(message: string) | Chunk(w: WireResponse)

  function FrameOf(codec: Codec, data: Bytes): Frame {
    if data == [] then Ignored
    else if data == DONE then Sentinel
    else
      match codec.decode(data)
      case None => Ignored
      case Some(w) => if w.error.Some? then Failure(w.error.value) else Chunk(w)
  }

  function Frames(codec: Codec, records: seq<Sse.Event>): (frames: seq<Frame>)
    ensures |frames| == |records|
    ensures forall i :: 0 <= i < |frames| ==> frames[i] == FrameOf(codec, records[i].data)
  {
    seq(|records|, i requires 0 <= i < |records| => FrameOf(codec, records[i].data))
  }

  lemma FramesUncons(codec: Codec, records: seq<Sse.Event>)
    requires records != []
    ensures Frames(codec, records) == [FrameOf(codec, records[0].data)] + Frames(codec, records[1..])
  {
  }

  // ------------------------------------------------------------------
  // State
  // ------------------------------------------------------------------

  datatype PendingCall = PendingCall(id: string, name: string, arguments: string)

  const NO_CALL := PendingCall("", "", "")

  datatype State = State(
    pending: map<int, PendingCall>,
    order: seq<int>,
    usage: Usage,
    reason: StopReason,
    flushed: bool,
    done: bool,
    sawTerminal: bool,
    err: Option<StreamError>)

  const START := State(map[], [], NO_USAGE, NoReason, false, false, false, None)

  function IndexOf(tc: WireCall): int {
    if tc.index.Some? then tc.index.value else 0
  }

  function Extend(call: PendingCall, tc: WireCall): PendingCall {
    PendingCall(
      if tc.id != "" then tc.id else call.id,
      if tc.name != "" then tc.name else call.name,
      call.arguments + tc.arguments)
  }

  function Accumulate(d: State, tc: WireCall): State {
    var i := IndexOf(tc);
    if i in d.pending then d.(pending := d.pending[i := Extend(d.pending[i], tc)])
    else d.(pending := d.pending[i := Extend(NO_CALL, tc)], order := d.order + [i])
  }

  function AccumulateAll(d: State, calls: seq<WireCall>): (r: State)
    ensures r == d.(pending := r.pending, order := r.order)
  {
    if calls == [] then d else Accumulate(AccumulateAll(d, calls[..|calls| - 1]), calls[|calls| - 1])
  }

  function CallsIn(w: WireResponse): seq<WireCall> {
    if w.choices == [] then [] else w.choices[0].delta.calls
  }

  function TextIn(w: WireResponse): string {
    if w.choices == [] then "" else TextFromContent(w.choices[0].delta.content)
  }

  function FinishIn(w: WireResponse): string {
    if w.choices == [] then "" else w.choices[0].finishReason
  }

  predicate ReportsUsage(w: WireResponse) {
    w.usage.prompt > 0 || w.usage.completion > 0
  }

  /** The state after a parsed chunk. */
  function Absorb(d: State, w: WireResponse): State {
    var d1 := if ReportsUsage(w) then d.(usage := UsageFromWire(w.usage)) else d;
    var d2 := if FinishIn(w) != "" then d1.(reason := MapFinishReason(FinishIn(w)), sawTerminal := true) else d1;
    AccumulateAll(d2, CallsIn(w))
  }

  /** The event for an assembled call, unless it never got a name. */
  function CallEventOf(call: PendingCall): Option<StreamEvent> {
    if call.name == "" then None
    else Some(CallEvent(Some(ToolCall(call.id, call.name, ArgumentsOrEmptyObject(call.arguments)))))
  }

  function DoneEvent(d: State): StreamEvent {
    Done(Some(d.usage), if d.reason == NoReason then Unknown else d.reason)
  }

  /** Events left to flush: the calls still in order, and the terminal event. */
  function ToFlush(d: State): nat {
    |d.order| + if d.flushed then 0 else 1
  }

  /** Drains the next buffered call, or else emits the terminal event, or else stops. */
  function Finish(d: State): (r: (State, Option<StreamEvent>))
    ensures r.1.Some? ==> ToFlush(r.0) < ToFlush(d)
    ensures r.1.None? ==> r.0.done
    decreases |d.order|
  {
    if d.order != [] then
      var i := d.order[0];
      var d1 := d.(order := d.order[1..], pending := d.pending - {i});
      var ev := if i in d.pending then CallEventOf(d.pending[i]) else None;
      if ev.Some? then (d1, ev) else Finish(d1)
    else if !d.flushed then (d.(flushed := true), Some(DoneEvent(d)))
    else (d.(done := true), None)
  }

  /** Everything calling Next until it is false yields, from a state and the frames still to come. */
  function Drain(d: State, frames: seq<Frame>, readError: Option<StreamError>): Outcome
    decreases |frames|, ToFlush(d)
  {
    if d.done || d.err.Some? then Outcome([], d.err)
    else if frames == [] then
      if readError.Some? then Outcome([], readError)
      else if !d.sawTerminal && !d.flushed then Outcome([], Some(Truncated))
      else
        var (d1, ev) := Finish(d);
        if ev.Some? then Emit(ev.value, Drain(d1, [], readError)) else Outcome([], None)
    else
      match frames[0]
      case Ignored => Drain(d, frames[1..], readError)
      case Failure(m) => Outcome([], Some(Server(m)))
      case Sentinel =>
        var (d1, ev) := Finish(d.(sawTerminal := true));
        if ev.Some? then Emit(ev.value, Drain(d1, frames[1..], readError)) else Outcome([], None)
      case Chunk(w) =>
        var rest := Drain(Absorb(d, w), frames[1..], readError);
        if TextIn(w) != "" then Emit(TextDelta(TextIn(w)), rest) else rest
  }

  /** Draining the stream over a response body. */
  function DrainBody(codec: Codec, body: Bytes, readError: Option<Sse.ReadError>): Outcome {
    Drain(START, Frames(codec, Sse.Decode(body, readError.Some?)), TransportError(readError))
  }

  // ------------------------------------------------------------------
  // The iterator
  // ------------------------------------------------------------------

  class Stream {
    const codec: Codec
    const reader: Sse.Reader

    var ev: StreamEvent
    var err: Option<StreamError>
    var pending: map<int, PendingCall>
    var order: seq<int>
    var usage: Usage
    var stopReason: StopReason
    var flushed: bool
    var done: bool
    var sawTerminal: bool

    constructor (codec: Codec, body: Bytes, readError: Option<Sse.ReadError>)
      ensures Valid() && fresh(reader) && fresh(reader.sc)
      ensures Rest() == DrainBody(codec, body, readError)
      ensures Current() == START
    {
      this.codec := codec;
      reader := new Sse.Reader(body, readError);
      ev := TextDelta("");
      err := None;
      pending := map[];
      order := [];
      usage := NO_USAGE;
      stopReason := NoReason;
      flushed, done, sawTerminal := false, false, false;
    }

    ghost predicate Valid()
      reads this, reader, reader.sc
    {
      && reader.Valid()
      && Ordered(order, pending)
    }

    ghost function Current(): State
      reads this
    {
      State(pending, order, usage, stopReason, flushed, done, sawTerminal, err)
    }

    ghost function FramesLeft(): seq<Frame>
      reads this, reader, reader.sc
    {
      Frames(codec, reader.Remaining())
    }

    /** What the calls of Next still to come will yield. */
    ghost function Rest(): Outcome
      reads this, reader, reader.sc
    {
      Drain(Current(), FramesLeft(), TransportError(reader.sc.readError))
    }

    method Next() returns (ok: bool)
      requires Valid()
      modifies this, reader, reader.sc
      ensures Valid()
      ensures ok ==> old(Rest()) == Emit(ev, Rest())
      ensures ok && ev.Done? ==> sawTerminal && flushed && !old(flushed)
      ensures !ok ==> old(Rest()) == Outcome([], err) == Rest()
      ensures !ok ==> done || err.Some?
      ensures old(done || err.Some?) ==> !ok && Current() == old(Current()) && ev == old(ev)
    {
      if done || err.Some? {
        return false;
      }

      while true
        invariant Valid() && !done && err == None
        invariant flushed == old(flushed)
        invariant old(Rest()) == Rest()
        decreases |FramesLeft()|
      {
        var more, returning;
        more, returning, ok := TakeRecord();
        if !more {
          break;
        }
        if returning {
          return;
        }
      }

      ok := Conclude(reader.err);
    }

    /** The end of the body: an error, or what is still to be flushed. */
    method Conclude(readError: Option<Sse.ReadError>) returns (ok: bool)
      requires Ordered(order, pending) && !done && err == None
      modifies this
      ensures Ordered(order, pending)
      ensures ok ==>
        Drain(old(Current()), [], TransportError(readError)) ==
        Emit(ev, Drain(Current(), [], TransportError(readError)))
      ensures ok && ev.Done? ==> sawTerminal && flushed && !old(flushed)
      ensures !ok ==>
        Drain(old(Current()), [], TransportError(readError)) == Outcome([], err) && (done || err.Some?)
    {
      if readError.Some? {
        err := Some(Transport(readError.value.message));
        return false;
      }
      if !sawTerminal && !flushed {
        err := Some(Truncated);
        return false;
      }
      ok := FinishNext();
    }

    /** Reads one record, if there is one, and handles it; tells whether Next returns, and with what. */
    method TakeRecord() returns (more: bool, returning: bool, ok: bool)
      requires Valid() && !done && err == None
      modifies this, reader, reader.sc
      ensures Valid()
      ensures !more ==> !returning && FramesLeft() == [] && reader.err == reader.sc.readError
      ensures more ==> |FramesLeft()| < |old(FramesLeft())|
      ensures !returning ==> !done && err == None && flushed == old(flushed) && old(Rest()) == Rest()
      ensures returning && ok ==> old(Rest()) == Emit(ev, Rest())
      ensures returning && ok && ev.Done? ==> sawTerminal && flushed && !old(flushed)
      ensures returning && !ok ==> old(Rest()) == Outcome([], err) && (done || err.Some?)
    {
      ghost var records, e := reader.Remaining(), TransportError(reader.sc.readError);
      more := reader.Next();
      if !more {
        return false, false, false;
      }
      var data := reader.ev.data;
      ghost var left := FramesLeft();
      FramesUncons(codec, records);
      returning, ok := HandleRecord(data, left, e);
    }

    /** Handles one record; tells whether Next returns now, and with what. */
    method HandleRecord(data: Bytes, ghost left: seq<Frame>, ghost e: Option<StreamError>)
      returns (returning: bool, ok: bool)
      requires Ordered(order, pending) && !done && err == None
      modifies this
      ensures Ordered(order, pending)
      ensures !returning ==> !done && err == None && flushed == old(flushed)
      ensures !returning ==> Drain(old(Current()), [FrameOf(codec, data)] + left, e) == Drain(Current(), left, e)
      ensures returning && ok ==>
        Drain(old(Current()), [FrameOf(codec, data)] + left, e) == Emit(ev, Drain(Current(), left, e))
      ensures returning && ok && ev.Done? ==> sawTerminal && flushed && !old(flushed)
      ensures returning && !ok ==>
        Drain(old(Current()), [FrameOf(codec, data)] + left, e) == Outcome([], err) && (done || err.Some?)
    {
      ghost var frames := [FrameOf(codec, data)] + left;
      assert frames[1..] == left;
      if |data| == 0 {
        return false, false;
      }
      if data == DONE {
        sawTerminal := true;
        ok := FinishNext();
        return true, ok;
      }
      var parsed := codec.decode(data);
      if parsed.None? {
        return false, false;
      }
      var chunk := parsed.value;
      if chunk.error.Some? {
        err := Some(Server(chunk.error.value));
        return true, false;
      }
      ok := AbsorbChunk(chunk);
      return ok, ok;
    }

    /** Folds a parsed chunk into the state; true when it carries text to deliver now. */
    method AbsorbChunk(chunk: WireResponse) returns (emitted: bool)
      requires Ordered(order, pending)
      modifies this
      ensures Ordered(order, pending)
      ensures Current() == Absorb(old(Current()), chunk)
      ensures emitted == (TextIn(chunk) != "")
      ensures ev == if emitted then TextDelta(TextIn(chunk)) else old(ev)
    {
      if chunk.usage.prompt > 0 || chunk.usage.completion > 0 {
        usage := UsageFromWire(chunk.usage);
      }
      if |chunk.choices| == 0 {
        return false;
      }
      var choice := chunk.choices[0];
      if choice.finishReason != "" {
        stopReason := MapFinishReason(choice.finishReason);
        sawTerminal := true;
      }
      AccumulateCalls(choice.delta.calls);
      var text := TextFromContent(choice.delta.content);
      if text != "" {
        ev := TextDelta(text);
        return true;
      }
      return false;
    }

    method AccumulateCalls(calls: seq<WireCall>)
      requires Ordered(order, pending)
      modifies this`pending, this`order
      ensures Ordered(order, pending)
      ensures Current() == AccumulateAll(old(Current()), calls)
    {
      ghost var d := Current();
      for i := 0 to |calls|
        invariant Current() == AccumulateAll(d, calls[..i])
        invariant Ordered(order, pending)
      {
        Snoc(calls[..i], calls[i]);
        TakeSnoc(calls, i);
        AccumulateNext(calls[i]);
      }
      TakeAll(calls);
    }

    method AccumulateNext(tc: WireCall)
      requires Ordered(order, pending)
      modifies this`pending, this`order
      ensures Ordered(order, pending)
      ensures Current() == Accumulate(old(Current()), tc)
    {
      var idx := 0;
      if tc.index.Some? {
        idx := tc.index.value;
      }
      PushOrdered(order, pending, idx, Extend(if idx in pending then pending[idx] else NO_CALL, tc));
      var cur := NO_CALL;
      if idx in pending {
        cur := pending[idx];
      } else {
        order := order + [idx];
      }
      if tc.id != "" {
        cur := cur.(id := tc.id);
      }
      if tc.name != "" {
        cur := cur.(name := tc.name);
      }
      cur := cur.(arguments := cur.arguments + tc.arguments);
      pending := pending[idx := cur];
    }

    /** Drains buffered calls, then emits the terminal event, then stops. */
    method FinishNext() returns (ok: bool)
      requires Ordered(order, pending) && !done && err == None
      modifies this
      ensures Ordered(order, pending)
      ensures Finish(old(Current())) == (Current(), if ok then Some(ev) else None)
      ensures ok && ev.Done? ==> flushed && !old(flushed) && sawTerminal == old(sawTerminal)
      ensures !ok ==> done && err == None && ev == old(ev)
    {
      ok := PopCall();
      if ok {
        return;
      }
      if !flushed {
        flushed := true;
        ev := Done(Some(usage), if stopReason == NoReason then Unknown else stopReason);
        return true;
      }
      done := true;
      return false;
    }

    /** Takes the first call out of the buffer. */
    method PopFirst() returns (call: PendingCall)
      requires order != [] && Ordered(order, pending)
      modifies this`order, this`pending
      ensures Ordered(order, pending) && |order| < |old(order)|
      ensures Finish(old(Current())) ==
              if CallEventOf(call).Some? then (Current(), CallEventOf(call)) else Finish(Current())
    {
      var idx := order[0];
      PopOrdered(order, pending);
      order := order[1..];
      call := pending[idx];
      pending := pending - {idx};
    }

    /** Drains calls from the buffer until one has a name. */
    method PopCall() returns (found: bool)
      requires Ordered(order, pending)
      modifies this
      ensures Ordered(order, pending)
      ensures flushed == old(flushed) && sawTerminal == old(sawTerminal) && done == old(done) && err == old(err)
      ensures found ==> Finish(old(Current())) == (Current(), Some(ev)) && ev.CallEvent?
      ensures !found ==> Finish(old(Current())) == Finish(Current()) && order == [] && ev == old(ev)
    {
      while |order| > 0
        invariant Ordered(order, pending)
        invariant Finish(old(Current())) == Finish(Current())
        invariant flushed == old(flushed) && sawTerminal == old(sawTerminal) && done == old(done)
        invariant err == old(err) && ev == old(ev)
        decreases |order|
      {
        var call := PopFirst();
        if call.name == "" {
          continue;
        }
        ev := CallEvent(Some(ToolCall(call.id, call.name, ArgumentsOrEmptyObject(call.arguments))));
        return true;
      }
      return false;
    }
  }

  /** Iterating a stream to its end delivers everything it owes, and leaves the error it ends with. */
  method Iterate(s: Stream) returns (events: seq<StreamEvent>)
    requires s.Valid()
    modifies s, s.reader, s.reader.sc
    ensures Outcome(events, s.err) == old(s.Rest())
  {
    events := [];
    ghost var owed := s.Rest();
    AppendNil(owed.events);
    while true
      invariant s.Valid()
      invariant owed == After(events, s.Rest())
      decreases |s.Rest().events|
    {
      ghost var before := s.Rest();
      var ok := s.Next();
      if !ok {
        AppendNil(events);
        return;
      }
      Assoc(events, [s.ev], s.Rest().events);
      events := events + [s.ev];
    }
  }

  /** The order list is the keys of the pending map, each once. */
  ghost predicate Ordered(order: seq<int>, pending: map<int, PendingCall>) {
    && (forall i :: 0 <= i < |order| ==> order[i] in pending)
    && (forall k :: k in pending ==> k in order)
    && (forall i, j :: 0 <= i < j < |order| ==> order[i] != order[j])
  }

  lemma PopOrdered(order: seq<int>, pending: map<int, PendingCall>)
    requires order != [] && Ordered(order, pending)
    ensures order[0] in pending
    ensures Ordered(order[1..], pending - {order[0]})
  {
    forall k | k in pending - {order[0]} ensures k in order[1..] {
      assert k in order;
    }
  }

  lemma PushOrdered(order: seq<int>, pending: map<int, PendingCall>, i: int, call: PendingCall)
    requires Ordered(order, pending)
    ensures Ordered(if i in pending then order else order + [i], pending[i := call])
  {
  }
}
