/**
 The OpenAI message mapping in both directions: a reply to parts, and parts back to a request
 message.
 */
module OaiReplay {
  import opened Bytes
  import opened OaiWire
  import opened Seqs
  import opened Skyl
  import opened Wrappers
  import Base64
  import OaiStream

  // ------------------------------------------------------------------
  // Reply to parts
  // ------------------------------------------------------------------

  datatype CompleteError = Malformed | Upstream(message: string) | NoChoices | Declined(finishReason: string)

  function MappedCalls(calls: seq<WireCall>): (mapped: seq<ToolCall>)
    ensures |mapped| == |calls|
    ensures forall i :: 0 <= i < |calls| ==> mapped[i] == ToolCallFromWire(calls[i])
  {
    seq(|calls|, i requires 0 <= i < |calls| => ToolCallFromWire(calls[i]))
  }

  function TextPart(text: string): seq<Part> {
    if text == "" then [] else [Text(text)]
  }

  function PartsOf(m: WireMessage): seq<Part> {
    TextPart(TextFromContent(m.content)) + CallParts(MappedCalls(m.calls))
  }

  /** The response a body maps to. */
  function ResponseFrom(codec: Codec, raw: Bytes, provider: string, model: string): Result<Response, CompleteError> {
    match codec.decode(raw)
    case None => Err(Malformed)
    case Some(w) =>
      if w.error.Some? then Err(Upstream(w.error.value))
      else if w.choices == [] then Err(NoChoices)
      else
        var choice := w.choices[0];
        var parts, reason := PartsOf(choice.message), MapFinishReason(choice.finishReason);
        if reason == Refusal && parts == [] then Err(Declined(choice.finishReason))
        else Ok(Response(w.id, provider, if w.model == "" then model else w.model,
                         Message(Assistant, parts), reason, UsageFromWire(w.usage)))
  }

  method Complete(codec: Codec, raw: Bytes, provider: string, model: string)
    returns (r: Result<Response, CompleteError>)
    ensures r == ResponseFrom(codec, raw, provider, model)
  {
    var parsed := codec.decode(raw);
    if parsed.None? {
      return Err(Malformed);
    }
    var wire := parsed.value;
    if wire.error.Some? {
      return Err(Upstream(wire.error.value));
    }
    if |wire.choices| == 0 {
      return Err(NoChoices);
    }

    var choice := wire.choices[0];
    var calls := choice.message.calls;
    var parts := TextPart(TextFromContent(choice.message.content));
    ghost var text := parts;
    for i := 0 to |calls|
      invariant parts == text + CallParts(MappedCalls(calls[..i]))
    {
      MappedSnoc(calls[..i], calls[i]);
      assert calls[..i + 1] == calls[..i] + [calls[i]];
      Assoc(text, CallParts(MappedCalls(calls[..i])), [Call(ToolCallFromWire(calls[i]))]);
      parts := parts + [Call(ToolCallFromWire(calls[i]))];
    }
    assert calls[..|calls|] == calls;

    var reason := MapFinishReason(choice.finishReason);
    if reason == Refusal && |parts| == 0 {
      return Err(Declined(choice.finishReason));
    }
    var served := wire.model;
    if served == "" {
      served := model;
    }
    return Ok(Response(wire.id, provider, served, Message(Assistant, parts), reason, UsageFromWire(wire.usage)));
  }

  lemma MappedSnoc(calls: seq<WireCall>, c: WireCall)
    ensures CallParts(MappedCalls(calls + [c])) == CallParts(MappedCalls(calls)) + [Call(ToolCallFromWire(c))]
  {
  }

  // ------------------------------------------------------------------
  // Parts to a request message
  // ------------------------------------------------------------------

  /** A part this host cannot express, by its position; or a role it does not know. */
  datatype Unsupported = UnsupportedPart(part: nat) | UnsupportedRole

  predicate Expressible(role: Role, p: Part) {
    match role
    case Tool => p.ToolResult?
    case User => p.Text? || p.Image?
    case Assistant => p.Text? || p.Call?
    case OtherRole(_) => false
  }

  function WireCallOf(c: ToolCall): WireCall {
    WireCall(c.id, None, c.name, ArgumentsOrEmptyObject(c.arguments))
  }

  function WireCalls(parts: seq<Part>): seq<WireCall> {
    if parts == [] then []
    else
      var p := parts[|parts| - 1];
      WireCalls(parts[..|parts| - 1]) + (if p.Call? then [WireCallOf(p.call)] else [])
  }

  function ImageUrl(p: Part): string
    requires p.Image?
  {
    if p.url != "" then p.url else "data:" + p.mediaType + ";base64," + Base64.Encode(p.data)
  }

  function BlockOf(p: Part): seq<Block> {
    if p.Text? then [Block(Some("text"), Some(p.text), None)]
    else if p.Image? then [Block(Some("image_url"), None, Some(ImageUrl(p)))]
    else []
  }

  function BlocksOf(parts: seq<Part>): seq<Block> {
    if parts == [] then [] else BlocksOf(parts[..|parts| - 1]) + BlockOf(parts[|parts| - 1])
  }

  predicate HasImage(parts: seq<Part>) {
    exists i :: 0 <= i < |parts| && parts[i].Image?
  }

  function ResultMessage(p: Part): WireMessage
    requires p.ToolResult?
  {
    var content := if p.isError && p.content != "" then "error: " + p.content else p.content;
    WireMessage("tool", Plain(content), [], p.callId)
  }

  function ResultMessages(parts: seq<Part>): (ms: seq<WireMessage>)
    requires forall i :: 0 <= i < |parts| ==> parts[i].ToolResult?
    ensures |ms| == |parts|
    ensures forall i :: 0 <= i < |parts| ==> ms[i] == ResultMessage(parts[i])
  {
    seq(|parts|, i requires 0 <= i < |parts| => ResultMessage(parts[i]))
  }

  function FirstInexpressible(role: Role, parts: seq<Part>): (n: nat)
    ensures n <= |parts|
    ensures forall i :: 0 <= i < n ==> Expressible(role, parts[i])
    ensures n < |parts| ==> !Expressible(role, parts[n])
  {
    if parts == [] || !Expressible(role, parts[0]) then 0 else 1 + FirstInexpressible(role, parts[1..])
  }

  /** What the parts of a turn add up to. */
  datatype Draft = Draft(text: string, blocks: seq<Block>, calls: seq<WireCall>, multipart: bool)

  function DraftOf(parts: seq<Part>): Draft {
    Draft(TextOf(parts), BlocksOf(parts), WireCalls(parts), HasImage(parts))
  }

  /** Blocks for a turn with images; else its text; else nothing when it has calls. */
  function ContentOf(d: Draft): Content {
    if d.multipart then OaiWire.Blocks(d.blocks)
    else if d.text != "" then Plain(d.text)
    else if d.calls != [] then NoContent
    else Plain("")
  }

  /** One wire message per tool result; otherwise one for the whole turn. */
  function Converted(m: Message): Result<seq<WireMessage>, Unsupported> {
    if m.role.OtherRole? then Err(UnsupportedRole)
    else
      var n := FirstInexpressible(m.role, m.parts);
      if n < |m.parts| then Err(UnsupportedPart(n))
      else if m.role.Tool? then
        Ok(ResultMessages(m.parts))
      else
        var d := DraftOf(m.parts);
        Ok([WireMessage(if m.role.User? then "user" else "assistant", ContentOf(d), d.calls, "")])
  }

  lemma FirstInexpressibleIs(role: Role, parts: seq<Part>, n: nat)
    requires n <= |parts|
    requires forall i :: 0 <= i < n ==> Expressible(role, parts[i])
    requires n < |parts| ==> !Expressible(role, parts[n])
    ensures FirstInexpressible(role, parts) == n
  {
  }

  method ConvertMessage(m: Message) returns (r: Result<seq<WireMessage>, Unsupported>)
    ensures r == Converted(m)
  {
    match m.role
    case Tool =>
      r := ConvertResults(m);
    case OtherRole(_) =>
      r := Err(UnsupportedRole);
    case _ =>
      r := ConvertTurn(m);
  }

  method ConvertResults(m: Message) returns (r: Result<seq<WireMessage>, Unsupported>)
    requires m.role == Tool
    ensures r == Converted(m)
  {
    var out: seq<WireMessage> := [];
    for i := 0 to |m.parts|
      invariant |out| == i
      invariant forall k :: 0 <= k < i ==> m.parts[k].ToolResult? && out[k] == ResultMessage(m.parts[k])
    {
      var p := m.parts[i];
      if !p.ToolResult? {
        FirstInexpressibleIs(m.role, m.parts, i);
        return Err(UnsupportedPart(i));
      }
      var content := p.content;
      if p.isError && content != "" {
        content := "error: " + content;
      }
      out := out + [WireMessage("tool", Plain(content), [], p.callId)];
    }
    FirstInexpressibleIs(m.role, m.parts, |m.parts|);
    assert out == ResultMessages(m.parts);
    return Ok(out);
  }

  /** What one part of a turn adds to its text, its blocks and its calls. */
  method ConvertPart(role: Role, p: Part) returns (text: string, blocks: seq<Block>, calls: seq<WireCall>)
    requires role == User || role == Assistant
    requires Expressible(role, p)
    ensures text == TextOfPart(p) && blocks == BlockOf(p)
    ensures calls == if p.Call? then [WireCallOf(p.call)] else []
  {
    text, blocks, calls := "", [], [];
    match p
    case Text(t) =>
      text := t;
      blocks := [Block(Some("text"), Some(t), None)];
    case Image(mediaType, data, url) =>
      var link := url;
      if link == "" {
        link := "data:" + mediaType + ";base64," + Base64.Encode(data);
      }
      blocks := [Block(Some("image_url"), None, Some(link))];
    case Call(c) =>
      var arguments := c.arguments;
      if arguments == "" {
        arguments := "{}";
      }
      calls := [WireCall(c.id, None, c.name, arguments)];
  }

  method ConvertParts(role: Role, parts: seq<Part>) returns (r: Result<Draft, Unsupported>)
    requires role == User || role == Assistant
    ensures var n := FirstInexpressible(role, parts);
            r == if n < |parts| then Err(UnsupportedPart(n)) else Ok(DraftOf(parts))
  {
    var blocks: seq<Block> := [];
    var text := "";
    var calls: seq<WireCall> := [];
    var multipart := false;
    for i := 0 to |parts|
      invariant forall k :: 0 <= k < i ==> Expressible(role, parts[k])
      invariant Draft(text, blocks, calls, multipart) == DraftOf(parts[..i])
    {
      var p := parts[i];
      if !Expressible(role, p) {
        FirstInexpressibleIs(role, parts, i);
        return Err(UnsupportedPart(i));
      }
      var moreText, moreBlocks, moreCalls := ConvertPart(role, p);
      DraftSnoc(parts, i);
      text, blocks, calls := text + moreText, blocks + moreBlocks, calls + moreCalls;
      if p.Image? {
        multipart := true;
      }
    }
    FirstInexpressibleIs(role, parts, |parts|);
    TakeAll(parts);
    return Ok(Draft(text, blocks, calls, multipart));
  }

  lemma DraftSnoc(parts: seq<Part>, i: nat)
    requires i < |parts|
    ensures var p, d := parts[i], DraftOf(parts[..i]);
            DraftOf(parts[..i + 1]) ==
            Draft(d.text + TextOfPart(p), d.blocks + BlockOf(p),
                  d.calls + (if p.Call? then [WireCallOf(p.call)] else []), d.multipart || p.Image?)
  {
    var front, p := parts[..i], parts[i];
    TakeSnoc(parts, i);
    Snoc(front, p);
    HasImageSnoc(front, p);
  }

  lemma HasImageSnoc(front: seq<Part>, p: Part)
    ensures HasImage(front + [p]) == (HasImage(front) || p.Image?)
  {
    var all := front + [p];
    if HasImage(front) {
      var i :| 0 <= i < |front| && front[i].Image?;
      assert all[i].Image?;
    }
    if p.Image? {
      assert all[|front|].Image?;
    }
  }

  method ConvertTurn(m: Message) returns (r: Result<seq<WireMessage>, Unsupported>)
    requires m.role == User || m.role == Assistant
    ensures r == Converted(m)
  {
    var parts := ConvertParts(m.role, m.parts);
    if parts.Err? {
      return Err(parts.error);
    }
    var d := parts.value;
    var content: Content;
    if d.multipart {
      content := OaiWire.Blocks(d.blocks);
    } else if d.text != "" {
      content := Plain(d.text);
    } else if |d.calls| > 0 {
      content := NoContent;
    } else {
      content := Plain("");
    }
    return Ok([WireMessage(if m.role.User? then "user" else "assistant", content, d.calls, "")]);
  }

  // ------------------------------------------------------------------
  // Replaying an assistant turn
  // ------------------------------------------------------------------

  predicate TextAndCalls(parts: seq<Part>) {
    forall i :: 0 <= i < |parts| ==> parts[i].Text? || parts[i].Call?
  }

  function Defaulted(calls: seq<ToolCall>): (r: seq<ToolCall>)
    ensures |r| == |calls|
    ensures forall i :: 0 <= i < |calls| ==> r[i] == calls[i].(arguments := ArgumentsOrEmptyObject(calls[i].arguments))
  {
    seq(|calls|, i requires 0 <= i < |calls| => calls[i].(arguments := ArgumentsOrEmptyObject(calls[i].arguments)))
  }

  /** All the text first, then the calls in order, each with some arguments. */
  function NormalForm(parts: seq<Part>): seq<Part> {
    TextPart(TextOf(parts)) + CallParts(Defaulted(CallsOf(parts)))
  }

  /** At most one text, first and not empty; every other part a call with arguments. */
  predicate IsNormal(parts: seq<Part>) {
    forall i :: 0 <= i < |parts| ==>
      || (i == 0 && parts[i].Text? && parts[i].text != "")
      || (parts[i].Call? && parts[i].call.arguments != "")
  }

  lemma {:induction false} WireCallsAre(parts: seq<Part>)
    ensures MappedCalls(WireCalls(parts)) == Defaulted(CallsOf(parts))
  {
    if parts != [] {
      WireCallsAre(parts[..|parts| - 1]);
    }
  }

  /** Reading back what a replayed assistant turn sends gives its normal form; any other part fails. */
  lemma ReplayIsNormalForm(m: Message)
    requires m.role == Assistant
    ensures Converted(m).Ok? <==> TextAndCalls(m.parts)
    ensures TextAndCalls(m.parts) ==>
              && |Converted(m).value| == 1
              && PartsOf(Converted(m).value[0]) == NormalForm(m.parts)
  {
    var n := FirstInexpressible(m.role, m.parts);
    if TextAndCalls(m.parts) {
      assert n == |m.parts|;
      WireCallsAre(m.parts);
    }
  }

  lemma DefaultedSnoc(calls: seq<ToolCall>, c: ToolCall)
    requires c.arguments != ""
    ensures CallParts(Defaulted(calls + [c])) == CallParts(Defaulted(calls)) + [Call(c)]
  {
  }

  lemma {:induction false} CallsOfNormal(parts: seq<Part>)
    requires forall i :: 0 <= i < |parts| ==> parts[i].Call? && parts[i].call.arguments != ""
    ensures CallParts(Defaulted(CallsOf(parts))) == parts
    ensures TextOf(parts) == ""
  {
    if parts != [] {
      var front, last := parts[..|parts| - 1], parts[|parts| - 1];
      CallsOfNormal(front);
      DefaultedSnoc(CallsOf(front), last.call);
      FrontLast(parts);
    }
  }

  lemma TextThenCalls(t: Part, calls: seq<Part>)
    requires t.Text? && t.text != ""
    requires forall i :: 0 <= i < |calls| ==> calls[i].Call? && calls[i].call.arguments != ""
    ensures NormalForm([t] + calls) == [t] + calls
  {
    OneText(t);
    CallsOfNormal(calls);
    TextOfAppend([t], calls);
    CallsOfAppend([t], calls);
    AppendNil(CallsOf(calls));
    AppendNil(t.text);
  }

  /** A turn is replayed unchanged exactly when it already is in normal form. */
  lemma NormalFormFixesIff(parts: seq<Part>)
    ensures IsNormal(NormalForm(parts))
    ensures NormalForm(parts) == parts <==> IsNormal(parts)
  {
    if IsNormal(parts) {
      if parts != [] && parts[0].Text? {
        TextThenCalls(parts[0], parts[1..]);
        Uncons(parts);
      } else {
        CallsOfNormal(parts);
        AppendNil(parts);
      }
    }
  }

  lemma OneText(p: Part)
    requires p.Text?
    ensures TextOf([p]) == p.text && CallsOf([p]) == []
  {
    assert [p][..0] == [];
  }

  /** Normalising twice is normalising once. */
  lemma NormalFormIdempotent(parts: seq<Part>)
    ensures NormalForm(NormalForm(parts)) == NormalForm(parts)
  {
    NormalFormFixesIff(parts);
    NormalFormFixesIff(NormalForm(parts));
  }

  /** What the response mapping produced survives a replay unchanged. */
  lemma ResponseSurvivesReplay(m: WireMessage)
    ensures var turn := Message(Assistant, PartsOf(m));
            && Converted(turn).Ok?
            && |Converted(turn).value| == 1
            && PartsOf(Converted(turn).value[0]) == PartsOf(m)
  {
    ProducedAreNormal(m);
    NormalFormFixesIff(PartsOf(m));
    ReplayIsNormalForm(Message(Assistant, PartsOf(m)));
  }

  lemma ProducedAreNormal(m: WireMessage)
    ensures IsNormal(PartsOf(m)) && TextAndCalls(PartsOf(m))
  {
  }

  // ------------------------------------------------------------------
  // A call without a name
  // ------------------------------------------------------------------

  function NamelessChunk(id: string, arguments: string): WireResponse {
    WireResponse("", "", [Choice(NO_MESSAGE, Nameless(id, arguments), "")], NO_WIRE_USAGE, None)
  }

  function Nameless(id: string, arguments: string): WireMessage {
    NO_MESSAGE.(calls := [WireCall(id, None, "", arguments)])
  }

  /** A provider's call without a name is dropped from a stream, and kept in a reply in one piece. */
  lemma NamelessCall(id: string, arguments: string)
    ensures var frames := [OaiStream.Chunk(NamelessChunk(id, arguments)), OaiStream.Sentinel];
            OaiStream.Drain(OaiStream.START, frames, None) == Outcome([Done(Some(NO_USAGE), Unknown)], None)
    ensures PartsOf(Nameless(id, arguments)) == [Call(ToolCall(id, "", ArgumentsOrEmptyObject(arguments)))]
  {
    var w := NamelessChunk(id, arguments);
    var frames := [OaiStream.Chunk(w), OaiStream.Sentinel];
    var call := OaiStream.PendingCall(id, "", arguments);
    var d := OaiStream.START.(order := [0], pending := map[0 := call]);
    assert frames[1..] == [OaiStream.Sentinel] && frames[1..][1..] == [];
    NamelessAbsorbed(id, arguments);
    NamelessFlushed(d);
    assert CallParts(MappedCalls(Nameless(id, arguments).calls)) ==
           [Call(ToolCall(id, "", ArgumentsOrEmptyObject(arguments)))];
  }

  lemma NamelessAbsorbed(id: string, arguments: string)
    ensures OaiStream.Absorb(OaiStream.START, NamelessChunk(id, arguments)) ==
            OaiStream.START.(order := [0], pending := map[0 := OaiStream.PendingCall(id, "", arguments)])
  {
    var tc := WireCall(id, None, "", arguments);
    assert OaiStream.CallsIn(NamelessChunk(id, arguments)) == [tc];
    assert [tc][..0] == [];
    assert OaiStream.AccumulateAll(OaiStream.START, [tc]) == OaiStream.Accumulate(OaiStream.START, tc);
    AppendNil([0]);
    AppendNil(arguments);
    assert OaiStream.Extend(OaiStream.NO_CALL, tc) == OaiStream.PendingCall(id, "", arguments);
  }

  lemma NamelessFlushed(d: OaiStream.State)
    requires d.order == [0] && 0 in d.pending && d.pending[0].name == "" && !d.flushed && !d.done && d.err == None
    requires d.usage == NO_USAGE && d.reason == NoReason
    ensures OaiStream.Drain(d, [OaiStream.Sentinel], None) == Outcome([Done(Some(NO_USAGE), Unknown)], None)
  {
    var d0 := d.(sawTerminal := true);
    var d1 := d0.(order := [], pending := d.pending - {0});
    assert d0.order[1..] == [];
    assert OaiStream.Finish(d0) == OaiStream.Finish(d1);
    assert [OaiStream.Sentinel][1..] == [];
    assert OaiStream.Drain(d1.(flushed := true), [], None) == Outcome([], None);
  }
}
