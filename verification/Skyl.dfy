/** The provider-neutral vocabulary: messages, stream events and responses. */
module Skyl {
  import opened Bytes
  import opened Seqs
  import opened Wrappers
  import Sse

  datatype Role = User | Assistant | Tool | OtherRole(name: string)

  datatype ToolCall = ToolCall(id: string, name: string, arguments: string)

  datatype Part =
    | Text(text: string)
    | Image(mediaType: string, data: Bytes, url: string)
    | Call(call: ToolCall)
    | ToolResult(callId: string, content: string, isError: bool)
    | NilPart

  datatype Message = Message(role: Role, parts: seq<Part>)

  /** NoReason is the empty string, which only an event can carry. */
  datatype StopReason = NoReason | EndTurn | MaxTokens | ToolUse | StopSequence | Refusal | Unknown

  datatype Usage = Usage(input: int, output: int, cacheRead: int, cacheWrite: int)

  const NO_USAGE := Usage(0, 0, 0, 0)

  datatype StreamEvent =
    | TextDelta(text: string)
    | ThinkingDelta(text: string)
    | CallEvent(call: Option<ToolCall>)
    | Done(usage: Option<Usage>, reason: StopReason)

  /** How a stream can fail: an in-band error, a read error, or an end without a terminal signal. */
  datatype StreamError = Server(message: string) | Transport(message: string) | Truncated

  datatype Response = Response(
    id: string,
    provider: string,
    model: string,
    message: Message,
    stopReason: StopReason,
    usage: Usage)

  /** Every adapter reads absent arguments as an empty object. */
  function ArgumentsOrEmptyObject(arguments: string): string {
    if arguments == "" then "{}" else arguments
  }

  // ------------------------------------------------------------------
  // Messages
  // ------------------------------------------------------------------

  function TextOfPart(p: Part): string {
    if p.Text? then p.text else ""
  }

  /** Every text part concatenated. */
  function TextOf(parts: seq<Part>): string {
    if parts == [] then "" else TextOf(parts[..|parts| - 1]) + TextOfPart(parts[|parts| - 1])
  }

  /** Every tool call, in order. */
  function CallsOf(parts: seq<Part>): seq<ToolCall> {
    if parts == [] then []
    else
      CallsOf(parts[..|parts| - 1]) + (if parts[|parts| - 1].Call? then [parts[|parts| - 1].call] else [])
  }

  lemma {:induction false} TextOfAppend(a: seq<Part>, b: seq<Part>)
    ensures TextOf(a + b) == TextOf(a) + TextOf(b)
    decreases |b|
  {
    if b == [] {
      AppendNil(a);
    } else {
      assert (a + b)[..|a + b| - 1] == a + b[..|b| - 1];
      TextOfAppend(a, b[..|b| - 1]);
    }
  }

  lemma {:induction false} CallsOfAppend(a: seq<Part>, b: seq<Part>)
    ensures CallsOf(a + b) == CallsOf(a) + CallsOf(b)
    decreases |b|
  {
    if b == [] {
      AppendNil(a);
    } else {
      assert (a + b)[..|a + b| - 1] == a + b[..|b| - 1];
      CallsOfAppend(a, b[..|b| - 1]);
    }
  }

  lemma {:induction false} CallsOfCalls(calls: seq<ToolCall>)
    ensures CallsOf(CallParts(calls)) == calls
    ensures TextOf(CallParts(calls)) == ""
  {
    if calls != [] {
      var parts := CallParts(calls);
      assert parts[..|parts| - 1] == CallParts(calls[..|calls| - 1]);
      CallsOfCalls(calls[..|calls| - 1]);
    }
  }

  function CallParts(calls: seq<ToolCall>): (parts: seq<Part>)
    ensures |parts| == |calls|
    ensures forall i :: 0 <= i < |parts| ==> parts[i] == Call(calls[i])
  {
    seq(|calls|, i requires 0 <= i < |calls| => Call(calls[i]))
  }

  /** The text of a message: counts first, then fills a buffer of exactly that size. */
  method MessageText(m: Message) returns (text: string)
    ensures text == TextOf(m.parts)
  {
    var parts := m.parts;
    if |parts| == 0 {
      return "";
    }
    if |parts| == 1 {
      assert parts[..0] == [];
      return TextOfPart(parts[0]);
    }

    var n := 0;
    for i := 0 to |parts|
      invariant n == |TextOf(parts[..i])|
    {
      TakeSnoc(parts, i);
      Snoc(parts[..i], parts[i]);
      n := n + |TextOfPart(parts[i])|;
    }
    assert parts[..|parts|] == parts;
    if n == 0 {
      return "";
    }

    var buf := new char[n];
    var used := 0;
    for i := 0 to |parts|
      invariant used == |TextOf(parts[..i])| <= n
      invariant buf[..used] == TextOf(parts[..i])
    {
      TakeSnoc(parts, i);
      Snoc(parts[..i], parts[i]);
      TextOfPrefix(parts, i + 1);
      used := CopyInto(buf, used, TextOfPart(parts[i]));
    }
    assert buf[..used] == buf[..];
    return buf[..];
  }

  /** Appends t to the used part of the buffer. */
  method CopyInto(buf: array<char>, used: nat, t: string) returns (end: nat)
    requires used + |t| <= buf.Length
    modifies buf
    ensures end == used + |t|
    ensures buf[..end] == old(buf[..used]) + t
  {
    forall k | 0 <= k < |t| {
      buf[used + k] := t[k];
    }
    end := used + |t|;
  }

  lemma TextOfPrefix(parts: seq<Part>, i: nat)
    requires i <= |parts|
    ensures |TextOf(parts[..i])| <= |TextOf(parts)|
  {
    assert parts == parts[..i] + parts[i..];
    TextOfAppend(parts[..i], parts[i..]);
  }

  method MessageCalls(m: Message) returns (calls: seq<ToolCall>)
    ensures calls == CallsOf(m.parts)
  {
    calls := [];
    for i := 0 to |m.parts|
      invariant calls == CallsOf(m.parts[..i])
    {
      assert m.parts[..i + 1][..i] == m.parts[..i];
      if m.parts[i].Call? {
        calls := calls + [m.parts[i].call];
      }
    }
    assert m.parts[..|m.parts|] == m.parts;
  }

  // ------------------------------------------------------------------
  // Streams
  // ------------------------------------------------------------------

  /** What draining a stream yields: its events, and the error that stopped it, if any. */
  datatype Outcome = Outcome(events: seq<StreamEvent>, err: Option<StreamError>)

  function Emit(ev: StreamEvent, rest: Outcome): Outcome {
    rest.(events := [ev] + rest.events)
  }

  function After(events: seq<StreamEvent>, rest: Outcome): Outcome {
    rest.(events := events + rest.events)
  }

  /** A read error as a stream reports it. */
  function TransportError(e: Option<Sse.ReadError>): Option<StreamError> {
    if e.Some? then Some(Transport(e.value.message)) else None
  }

  /**
   A stream as its single consumer sees it: events until Next is false, then an error or none.
   */
  class EventStream {
    const script: Outcome
    var pos: nat
    var closed: bool

    constructor (script: Outcome)
      ensures Valid() && this.script == script && pos == 0 && !closed
    {
      this.script := script;
      pos := 0;
      closed := false;
    }

    ghost predicate Valid()
      reads this
    {
      pos <= |script.events|
    }

    method Next() returns (ok: bool)
      requires Valid()
      modifies this`pos
      ensures Valid()
      ensures ok == (old(pos) < |script.events|)
      ensures pos == if ok then old(pos) + 1 else old(pos)
    {
      ok := pos < |script.events|;
      if ok {
        pos := pos + 1;
      }
    }

    function Event(): StreamEvent
      requires Valid() && 0 < pos
      reads this
    {
      script.events[pos - 1]
    }

    function Error(): Option<StreamError>
      reads this
    {
      if pos == |script.events| then script.err else None
    }

    method Close()
      modifies this`closed
      ensures closed
    {
      closed := true;
    }
  }

  function DeltaOf(e: StreamEvent): string {
    if e.TextDelta? then e.text else ""
  }

  /** The text of every text delta, concatenated. */
  function Deltas(events: seq<StreamEvent>): string {
    if events == [] then "" else Deltas(events[..|events| - 1]) + DeltaOf(events[|events| - 1])
  }

  function CallOf(e: StreamEvent): seq<ToolCall> {
    if e.CallEvent? && e.call.Some? then [e.call.value] else []
  }

  function CallsIn(events: seq<StreamEvent>): seq<ToolCall> {
    if events == [] then [] else CallsIn(events[..|events| - 1]) + CallOf(events[|events| - 1])
  }

  /** The usage of the last terminal event that reports any. */
  function UsageIn(events: seq<StreamEvent>): Usage {
    if events == [] then NO_USAGE
    else
      var e := events[|events| - 1];
      if e.Done? && e.usage.Some? then e.usage.value else UsageIn(events[..|events| - 1])
  }

  /** The reason of the last terminal event that reports any. */
  function ReasonIn(events: seq<StreamEvent>): StopReason {
    if events == [] then Unknown
    else
      var e := events[|events| - 1];
      if e.Done? && e.reason != NoReason then e.reason else ReasonIn(events[..|events| - 1])
  }

  /** What a drained stream folds into; a missing reason becomes ToolUse when there are calls. */
  function Collected(o: Outcome, provider: string, model: string): Result<Response, StreamError> {
    if o.err.Some? then Err(o.err.value)
    else
      var text, calls, reason := Deltas(o.events), CallsIn(o.events), ReasonIn(o.events);
      Ok(Response("", provider, model,
                  Message(Assistant, (if text == "" then [] else [Text(text)]) + CallParts(calls)),
                  if reason == Unknown && calls != [] then ToolUse else reason,
                  UsageIn(o.events)))
  }

  /** What the events seen so far fold into. */
  datatype Tally = Tally(text: string, calls: seq<ToolCall>, reason: StopReason, usage: Usage)

  function TallyOf(events: seq<StreamEvent>): Tally {
    Tally(Deltas(events), CallsIn(events), ReasonIn(events), UsageIn(events))
  }

  method AddEvent(t: Tally, e: StreamEvent) returns (r: Tally)
    ensures forall events :: t == TallyOf(events) ==> r == TallyOf(events + [e])
  {
    r := t;
    match e {
      case TextDelta(text) => r := r.(text := r.text + text);
      case CallEvent(c) =>
        if c.Some? {
          r := r.(calls := r.calls + [c.value]);
        }
      case Done(u, why) =>
        if u.Some? {
          r := r.(usage := u.value);
        }
        if why != NoReason {
          r := r.(reason := why);
        }
      case ThinkingDelta(_) =>
    }
    forall events | t == TallyOf(events) ensures r == TallyOf(events + [e]) {
      FoldSnoc(events, e);
      AppendNil(t.text);
      AppendNil(t.calls);
    }
  }

  method DrainStream(s: EventStream) returns (t: Tally)
    requires s.Valid()
    modifies s`pos
    ensures s.Valid() && s.pos == |s.script.events|
    ensures t == TallyOf(s.script.events[old(s.pos)..])
  {
    t := Tally("", [], Unknown, NO_USAGE);
    ghost var read: seq<StreamEvent>, all := [], s.script.events;
    AppendNil(all[s.pos..]);
    while true
      invariant s.Valid()
      invariant read + all[s.pos..] == all[old(s.pos)..]
      invariant t == TallyOf(read)
      decreases |all| - s.pos
    {
      var more := s.Next();
      if !more {
        AppendNil(read);
        return;
      }
      t := AddEvent(t, s.Event());
      ReadOne(read, all, s.pos - 1);
      read := read + [s.Event()];
    }
  }

  method CollectStream(s: EventStream, provider: string, model: string)
    returns (r: Result<Response, StreamError>)
    requires s.Valid()
    modifies s
    ensures s.closed && s.pos == |s.script.events|
    ensures r == Collected(s.script.(events := s.script.events[old(s.pos)..]), provider, model)
  {
    var t := DrainStream(s);
    s.Close();
    var err := s.Error();
    if err.Some? {
      return Err(err.value);
    }
    var parts: seq<Part> := [];
    if |t.text| > 0 {
      parts := [Text(t.text)];
    }
    parts := parts + CallParts(t.calls);
    var reason := t.reason;
    if reason == Unknown && |t.calls| > 0 {
      reason := ToolUse;
    }
    return Ok(Response("", provider, model, Message(Assistant, parts), reason, t.usage));
  }

  // ------------------------------------------------------------------
  // How the folds distribute
  // ------------------------------------------------------------------

  lemma ReadOne<T>(read: seq<T>, all: seq<T>, n: nat)
    requires n < |all|
    ensures read + [all[n]] + all[n + 1..] == read + all[n..]
  {
    Uncons(all[n..]);
    Assoc(read, [all[n]], all[n + 1..]);
  }

  lemma FoldSnoc(events: seq<StreamEvent>, e: StreamEvent)
    ensures var more := events + [e];
            && Deltas(more) == Deltas(events) + DeltaOf(e) && CallsIn(more) == CallsIn(events) + CallOf(e)
            && UsageIn(more) == (if e.Done? && e.usage.Some? then e.usage.value else UsageIn(events))
            && ReasonIn(more) == (if e.Done? && e.reason != NoReason then e.reason else ReasonIn(events))
  {
    Snoc(events, e);
  }

  lemma {:induction false} FoldsAppend(a: seq<StreamEvent>, b: seq<StreamEvent>)
    ensures Deltas(a + b) == Deltas(a) + Deltas(b)
    ensures CallsIn(a + b) == CallsIn(a) + CallsIn(b)
    decreases |b|
  {
    if b == [] {
      AppendNil(a);
    } else {
      var front, e := b[..|b| - 1], b[|b| - 1];
      FoldsAppend(a, front);
      FrontLast(b);
      Assoc(a, front, [e]);
      FoldSnoc(a + front, e);
      Assoc(Deltas(a), Deltas(front), DeltaOf(e));
      Assoc(CallsIn(a), CallsIn(front), CallOf(e));
    }
  }

  /** A terminal event at the end decides the reason and the usage and adds nothing else. */
  lemma DoneFolds(events: seq<StreamEvent>, usage: Usage, reason: StopReason)
    requires reason != NoReason
    ensures var all := events + [Done(Some(usage), reason)];
            && Deltas(all) == Deltas(events) && CallsIn(all) == CallsIn(events)
            && UsageIn(all) == usage && ReasonIn(all) == reason
  {
    Snoc(events, Done(Some(usage), reason));
    AppendNil(Deltas(events));
    AppendNil(CallsIn(events));
  }

  /** What a caller reads of the tokens: the terminal event's usage, and the collected response's. */
  ghost predicate TellsUsage(o: Outcome, provider: string, model: string, usage: Usage) {
    && o.err == None && o.events != []
    && (var last := o.events[|o.events| - 1]; last.Done? && last.usage == Some(usage))
    && (var r := Collected(o, provider, model); r.Ok? && r.value.usage == usage)
  }

  lemma DoneTells(events: seq<StreamEvent>, usage: Usage, reason: StopReason, provider: string, model: string)
    requires reason != NoReason
    ensures TellsUsage(Outcome(events + [Done(Some(usage), reason)], None), provider, model, usage)
  {
    DoneFolds(events, usage, reason);
  }

  function DoneCount(events: seq<StreamEvent>): nat {
    if events == [] then 0 else (if events[0].Done? then 1 else 0) + DoneCount(events[1..])
  }

  lemma {:induction false} DoneCountAppend(a: seq<StreamEvent>, b: seq<StreamEvent>)
    ensures DoneCount(a + b) == DoneCount(a) + DoneCount(b)
  {
    if a == [] {
      AppendNil(b);
    } else {
      assert (a + b)[1..] == a[1..] + b;
      DoneCountAppend(a[1..], b);
    }
  }

  /** The collected message's text and calls are the stream's. */
  lemma CollectedParts(o: Outcome, provider: string, model: string)
    requires o.err == None
    ensures var r := Collected(o, provider, model);
            && r.Ok?
            && TextOf(r.value.message.parts) == Deltas(o.events)
            && CallsOf(r.value.message.parts) == CallsIn(o.events)
  {
    var text, calls := Deltas(o.events), CallsIn(o.events);
    var head := if text == "" then [] else [Text(text)];
    CallsOfCalls(calls);
    TextOfAppend(head, CallParts(calls));
    CallsOfAppend(head, CallParts(calls));
    HeadFolds(text);
    AppendNil(text);
    AppendNil(calls);
  }

  lemma HeadFolds(text: string)
    ensures var head := if text == "" then [] else [Text(text)];
            TextOf(head) == text && CallsOf(head) == []
  {
    if text != "" {
      assert [Text(text)][..0] == [];
    }
  }

  predicate GivesReason(e: StreamEvent) {
    e.Done? && e.reason != NoReason
  }

  /** The last terminal event that gives a reason. */
  ghost predicate ReasonLast(events: seq<StreamEvent>, k: nat) {
    k < |events| && GivesReason(events[k]) && forall i :: k < i < |events| ==> !GivesReason(events[i])
  }

  predicate GivesUsage(e: StreamEvent) {
    e.Done? && e.usage.Some?
  }

  ghost predicate UsageLast(events: seq<StreamEvent>, k: nat) {
    k < |events| && GivesUsage(events[k]) && forall i :: k < i < |events| ==> !GivesUsage(events[i])
  }

  lemma {:induction false} ReasonInIs(events: seq<StreamEvent>)
    ensures forall k: nat :: ReasonLast(events, k) ==> ReasonIn(events) == events[k].reason
    ensures (forall i :: 0 <= i < |events| ==> !GivesReason(events[i])) ==> ReasonIn(events) == Unknown
    decreases |events|
  {
    if events != [] && !GivesReason(events[|events| - 1]) {
      var front := events[..|events| - 1];
      ReasonInIs(front);
      assert forall k: nat :: ReasonLast(events, k) ==> ReasonLast(front, k);
    }
  }

  lemma {:induction false} UsageInIs(events: seq<StreamEvent>)
    ensures forall k: nat :: UsageLast(events, k) ==> UsageIn(events) == events[k].usage.value
    ensures (forall i :: 0 <= i < |events| ==> !GivesUsage(events[i])) ==> UsageIn(events) == NO_USAGE
    decreases |events|
  {
    if events != [] && !GivesUsage(events[|events| - 1]) {
      var front := events[..|events| - 1];
      UsageInIs(front);
      assert forall k: nat :: UsageLast(events, k) ==> UsageLast(front, k);
    }
  }

  predicate IsCall(e: StreamEvent) {
    e.CallEvent? && e.call.Some?
  }

  ghost predicate HasCall(events: seq<StreamEvent>) {
    exists i :: 0 <= i < |events| && IsCall(events[i])
  }

  lemma HasCallSnoc(front: seq<StreamEvent>, e: StreamEvent)
    ensures HasCall(front + [e]) <==> HasCall(front) || IsCall(e)
  {
    var events := front + [e];
    if HasCall(front) {
      var i :| 0 <= i < |front| && IsCall(front[i]);
      assert IsCall(events[i]);
    }
    if IsCall(e) {
      assert IsCall(events[|front|]);
    }
  }

  lemma {:induction false} CallsInIff(events: seq<StreamEvent>)
    ensures CallsIn(events) != [] <==> HasCall(events)
    decreases |events|
  {
    if events != [] {
      FrontLast(events);
      CallsInIff(events[..|events| - 1]);
      HasCallSnoc(events[..|events| - 1], events[|events| - 1]);
    }
  }

  /**
   How a collected response ends: for the reason of the last terminal event that gives one, except that an
   unknown reason becomes tool use exactly when the stream has a call; and with the usage of the last
   terminal event that reports any.
   */
  lemma CollectedEnding(o: Outcome, provider: string, model: string)
    requires o.err == None
    ensures var r := Collected(o, provider, model);
            && r.Ok?
            && r.value.id == "" && r.value.provider == provider && r.value.model == model
            && r.value.message.role == Assistant
            && (forall k: nat :: ReasonLast(o.events, k) && o.events[k].reason != Unknown ==>
                  r.value.stopReason == o.events[k].reason)
            && ((forall i :: 0 <= i < |o.events| && GivesReason(o.events[i]) ==> o.events[i].reason == Unknown) ==>
                  r.value.stopReason == if HasCall(o.events) then ToolUse else Unknown)
            && (forall k: nat :: UsageLast(o.events, k) ==> r.value.usage == o.events[k].usage.value)
            && ((forall i :: 0 <= i < |o.events| ==> !GivesUsage(o.events[i])) ==> r.value.usage == NO_USAGE)
  {
    ReasonInIs(o.events);
    UsageInIs(o.events);
    CallsInIff(o.events);
    OnlyUnknown(o.events);
  }

  lemma {:induction false} OnlyUnknown(events: seq<StreamEvent>)
    ensures (forall i :: 0 <= i < |events| && GivesReason(events[i]) ==> events[i].reason == Unknown) ==>
              ReasonIn(events) == Unknown
    decreases |events|
  {
    if events != [] {
      OnlyUnknown(events[..|events| - 1]);
    }
  }
}
