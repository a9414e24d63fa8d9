/**
 Reading a converted request message back, as the host that receives it would: who speaks, what is said,
 and what is shown.
 */
module OaiRequest {
  import opened Bytes
  import opened OaiReplay
  import opened OaiWire
  import opened Seqs
  import opened Skyl
  import opened Wrappers
  import Base64
  import OaiContent

  // ------------------------------------------------------------------
  // The host's reading
  // ------------------------------------------------------------------

  /** Who speaks, by the role's name on the wire. */
  function SpeakerOf(w: WireMessage): Role {
    if w.role == "user" then User
    else if w.role == "assistant" then Assistant
    else if w.role == "tool" then Tool
    else OtherRole(w.role)
  }

  /** Where the last comma is. */
  function LastComma(s: string): (n: Option<nat>)
    ensures n.Some? ==> n.value < |s| && s[n.value] == ','
  {
    if s == "" then None
    else if s[|s| - 1] == ',' then Some(|s| - 1)
    else LastComma(s[..|s| - 1])
  }

  const DATA_SCHEME := "data:"
  const BASE64_MARK := ";base64"

  /** The media type and the bytes of a data URL; the base64 alphabet has no comma. */
  function ReadDataUrl(url: string): Option<(string, Bytes)> {
    match LastComma(url)
    case None => None
    case Some(n) =>
      if n < |DATA_SCHEME| + |BASE64_MARK| || !(DATA_SCHEME <= url) || url[n - |BASE64_MARK|..n] != BASE64_MARK then
        None
      else
        match Base64.Decode(url[n + 1..])
        case None => None
        case Some(data) => Some((url[|DATA_SCHEME|..n - |BASE64_MARK|], data))
  }

  /** The block shows the part: its text, the image's own URL, or a data URL of its bytes. */
  ghost predicate Shows(b: OaiWire.Block, p: Part) {
    && b.Block?
    && match p
       case Text(t) => b.kind == Some("text") && b.text == Some(t) && b.imageUrl.None?
       case Image(mediaType, data, url) =>
         && b.kind == Some("image_url") && b.text.None? && b.imageUrl.Some?
         && (if url != "" then b.imageUrl.value == url else ReadDataUrl(b.imageUrl.value) == Some((mediaType, data)))
       case _ => false
  }

  ghost predicate ShowsAll(blocks: seq<OaiWire.Block>, parts: seq<Part>) {
    |blocks| == |parts| && forall i :: 0 <= i < |parts| ==> Shows(blocks[i], parts[i])
  }

  /** One message carries one result: its call's ID, and its content behind a mark if it is an error. */
  predicate Answers(w: WireMessage, p: Part) {
    && p.ToolResult? && w.callId == p.callId && w.calls == []
    && var said := TextFromContent(w.content);
       if p.isError && p.content != "" then said == "error: " + p.content else said == p.content
  }

  ghost predicate AnswersAll(ws: seq<WireMessage>, parts: seq<Part>) {
    |ws| == |parts| && forall i :: 0 <= i < |parts| ==> Answers(ws[i], parts[i])
  }

  // ------------------------------------------------------------------
  // Data URLs
  // ------------------------------------------------------------------

  lemma {:induction false} NoCommaInBase64(data: Bytes)
    ensures ',' !in Base64.Encode(data)
    decreases |data|
  {
    if |data| >= 3 {
      NoCommaInBase64(data[3..]);
      NoCommaInQuantum(data[0], data[1], data[2]);
    }
  }

  lemma NoCommaInQuantum(a: byte, b: byte, c: byte)
    ensures ',' !in Base64.Quantum(a, b, c)
  {
  }

  lemma {:induction false} LastCommaIs(before: string, after: string)
    requires ',' !in after
    ensures LastComma(before + [','] + after) == Some(|before|)
    decreases |after|
  {
    if after == "" {
      AppendNil(before + [',']);
    } else {
      var front, c := after[..|after| - 1], after[|after| - 1];
      assert c in after;
      FrontLast(after);
      Assoc(before + [','], front, [c]);
      Snoc(before + [','] + front, c);
      LastCommaIs(before, front);
    }
  }

  lemma SlicesOfDataUrl(mediaType: string, encoded: string)
    ensures var url := "data:" + mediaType + ";base64," + encoded;
            var n := 5 + |mediaType| + 7;
            && url == "data:" + mediaType + ";base64" + [','] + encoded
            && |"data:" + mediaType + ";base64"| == n < |url|
            && DATA_SCHEME <= url && url[n - 7..n] == BASE64_MARK && url[5..n - 7] == mediaType
            && url[n + 1..] == encoded
  {
  }

  /** Whatever the media type and the bytes, the data URL gives both back. */
  lemma DataUrlReadsBack(mediaType: string, data: Bytes)
    ensures ReadDataUrl("data:" + mediaType + ";base64," + Base64.Encode(data)) == Some((mediaType, data))
  {
    SlicesOfDataUrl(mediaType, Base64.Encode(data));
    NoCommaInBase64(data);
    LastCommaIs("data:" + mediaType + ";base64", Base64.Encode(data));
    Base64.DecodeEncode(data);
  }

  // ------------------------------------------------------------------
  // What a converted message says
  // ------------------------------------------------------------------

  lemma BlockShows(p: Part)
    requires p.Text? || p.Image?
    ensures |BlockOf(p)| == 1 && Shows(BlockOf(p)[0], p)
  {
    if p.Image? {
      DataUrlReadsBack(p.mediaType, p.data);
    }
  }

  lemma ShowsAllSnoc(blocks: seq<OaiWire.Block>, parts: seq<Part>, b: seq<OaiWire.Block>, p: Part)
    requires ShowsAll(blocks, parts) && |b| == 1 && Shows(b[0], p)
    ensures ShowsAll(blocks + b, parts + [p])
  {
  }

  lemma {:induction false} BlocksShow(parts: seq<Part>)
    requires forall i :: 0 <= i < |parts| ==> parts[i].Text? || parts[i].Image?
    ensures ShowsAll(BlocksOf(parts), parts)
  {
    if parts != [] {
      var front, p := parts[..|parts| - 1], parts[|parts| - 1];
      BlocksShow(front);
      BlockShows(p);
      FrontLast(parts);
      ShowsAllSnoc(BlocksOf(front), front, BlockOf(p), p);
    }
  }

  lemma {:induction false} BlocksSay(parts: seq<Part>)
    ensures TextFromContent(OaiWire.Blocks(BlocksOf(parts))) == TextOf(parts)
  {
    if parts != [] {
      var front, p := parts[..|parts| - 1], parts[|parts| - 1];
      BlocksSay(front);
      OaiContent.ContentAppend(BlocksOf(front), BlockOf(p));
      if BlockOf(p) != [] {
        OaiContent.OneBlock(BlockOf(p)[0]);
        assert BlockOf(p) == [BlockOf(p)[0]];
      }
    }
  }

  /** The content of a turn says its text, whether or not it takes the array form. */
  lemma ContentSays(parts: seq<Part>)
    ensures TextFromContent(ContentOf(DraftOf(parts))) == TextOf(parts)
  {
    BlocksSay(parts);
  }

  /** What each role may send. */
  predicate Sendable(role: Role, p: Part) {
    match p
    case Text(_) => role == User || role == Assistant
    case Image(_, _, _) => role == User
    case Call(_) => role == Assistant
    case ToolResult(_, _, _) => role == Tool
    case NilPart => false
  }

  lemma SendableIff(role: Role, p: Part)
    requires !role.OtherRole?
    ensures Expressible(role, p) <==> Sendable(role, p)
  {
  }

  /**
   A message converts exactly when its role is known and may send every part; otherwise the first part it may
   not send is named. Every message it converts to is spoken by that role.
   */
  lemma ConvertsIff(m: Message)
    ensures Converted(m).Ok? <==> !m.role.OtherRole? && forall i :: 0 <= i < |m.parts| ==> Sendable(m.role, m.parts[i])
    ensures m.role.OtherRole? ==> Converted(m) == Err(UnsupportedRole)
    ensures !m.role.OtherRole? && Converted(m).Err? ==>
              var e := Converted(m).error;
              && e.UnsupportedPart? && e.part < |m.parts| && !Sendable(m.role, m.parts[e.part])
              && forall i :: 0 <= i < e.part ==> Sendable(m.role, m.parts[i])
    ensures Converted(m).Ok? ==>
              forall i :: 0 <= i < |Converted(m).value| ==> SpeakerOf(Converted(m).value[i]) == m.role
  {
    if !m.role.OtherRole? {
      forall i | 0 <= i < |m.parts| ensures Expressible(m.role, m.parts[i]) <==> Sendable(m.role, m.parts[i]) {
        SendableIff(m.role, m.parts[i]);
      }
    }
  }

  /** A tool turn becomes one message for each result, in order, each under its own call's ID. */
  lemma ToolTurnReadsBack(m: Message)
    requires m.role == Tool && Converted(m).Ok?
    ensures AnswersAll(Converted(m).value, m.parts)
  {
    ConvertsIff(m);
    forall i | 0 <= i < |m.parts| ensures Answers(Converted(m).value[i], m.parts[i]) {
      assert Sendable(Tool, m.parts[i]);
    }
  }

  /**
   A user turn becomes one message without calls that says the turn's texts in order; with an image in it, the
   message shows every part in its place, an image without a URL as a data URL that gives back its bytes.
   */
  lemma UserTurnReadsBack(m: Message)
    requires m.role == User && Converted(m).Ok?
    ensures |Converted(m).value| == 1
    ensures var w := Converted(m).value[0];
            && w.calls == [] && w.callId == ""
            && TextFromContent(w.content) == TextOf(m.parts)
            && ((exists i :: 0 <= i < |m.parts| && m.parts[i].Image?) ==>
                  w.content.Blocks? && ShowsAll(w.content.blocks, m.parts))
  {
    ConvertsIff(m);
    ContentSays(m.parts);
    forall i | 0 <= i < |m.parts| ensures m.parts[i].Text? || m.parts[i].Image? {
      assert Sendable(User, m.parts[i]);
    }
    BlocksShow(m.parts);
    NoCalls(m.parts);
  }

  lemma {:induction false} NoCalls(parts: seq<Part>)
    requires forall i :: 0 <= i < |parts| ==> !parts[i].Call?
    ensures WireCalls(parts) == []
  {
    if parts != [] {
      NoCalls(parts[..|parts| - 1]);
    }
  }

  /** The call on the wire, which always has some arguments. */
  predicate Carries(wire: WireCall, call: ToolCall) {
    && wire.id == call.id && wire.name == call.name
    && wire.arguments == (if call.arguments == "" then "{}" else call.arguments)
  }

  ghost predicate CarriesAll(wires: seq<WireCall>, calls: seq<ToolCall>) {
    |wires| == |calls| && forall i :: 0 <= i < |calls| ==> Carries(wires[i], calls[i])
  }

  lemma {:induction false} CallsCarried(parts: seq<Part>)
    ensures CarriesAll(WireCalls(parts), CallsOf(parts))
  {
    if parts != [] {
      CallsCarried(parts[..|parts| - 1]);
    }
  }

  /** An assistant turn becomes one message with the turn's text and its calls, in order; content only if it has any. */
  lemma AssistantTurnReadsBack(m: Message)
    requires m.role == Assistant && Converted(m).Ok?
    ensures |Converted(m).value| == 1
    ensures var w := Converted(m).value[0];
            && w.callId == "" && TextFromContent(w.content) == TextOf(m.parts)
            && (w.content == NoContent <==> TextOf(m.parts) == "" && CallsOf(m.parts) != [])
            && CarriesAll(w.calls, CallsOf(m.parts))
  {
    ConvertsIff(m);
    ContentSays(m.parts);
    CallsCarried(m.parts);
    forall i | 0 <= i < |m.parts| ensures !m.parts[i].Image? {
      assert Sendable(Assistant, m.parts[i]);
    }
  }
}
