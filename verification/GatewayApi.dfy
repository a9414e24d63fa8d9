/** The gateway's wire messages, and their conversion to and from skyl messages. */
module GatewayApi {
  import opened Base64
  import opened Seqs
  import opened Skyl
  import opened Wrappers

  /** One element of a wire message; kind tells which of the other fields matter. */
  datatype ChatPart = ChatPart(
    kind: string,
    text: string,
    mediaType: string,
    data: string,
    url: string,
    id: string,
    name: string,
    arguments: string,
    toolCallId: string,
    content: string,
    isError: bool)

  const EMPTY_PART := ChatPart("", "", "", "", "", "", "", "", "", "", false)

  datatype ChatMessage = ChatMessage(role: string, text: string, content: seq<ChatPart>)

  datatype Reason =
    | UnknownRole
    | TextAndContent
    | ImageNeedsDataOrUrl
    | ImageNeedsMediaType
    | ImageDataNotBase64
    | CallNeedsIdAndName
    | ResultNeedsCallId
    | NoType
    | UnknownType

  datatype BadRequest = BadRequest(message: nat, part: nat, reason: Reason)

  function RoleOf(name: string): Role {
    if name == "user" then User
    else if name == "assistant" then Assistant
    else if name == "tool" then Tool
    else OtherRole(name)
  }

  function RoleName(role: Role): string {
    match role
    case User => "user"
    case Assistant => "assistant"
    case Tool => "tool"
    case OtherRole(name) => name
  }

  // ------------------------------------------------------------------
  // Wire to skyl
  // ------------------------------------------------------------------

  function ToSkylPart(p: ChatPart, i: nat, j: nat): Result<Part, BadRequest> {
    if p.kind == "text" then Ok(Text(p.text))
    else if p.kind == "image" then
      if p.data == "" && p.url == "" then Err(BadRequest(i, j, ImageNeedsDataOrUrl))
      else if p.data != "" then
        if p.mediaType == "" then Err(BadRequest(i, j, ImageNeedsMediaType))
        else
          match Decode(p.data)
          case None => Err(BadRequest(i, j, ImageDataNotBase64))
          case Some(raw) => Ok(Image(p.mediaType, raw, ""))
      else Ok(Image(p.mediaType, [], p.url))
    else if p.kind == "tool_call" then
      if p.id == "" || p.name == "" then Err(BadRequest(i, j, CallNeedsIdAndName))
      else Ok(Call(ToolCall(p.id, p.name, p.arguments)))
    else if p.kind == "tool_result" then
      if p.toolCallId == "" then Err(BadRequest(i, j, ResultNeedsCallId))
      else Ok(ToolResult(p.toolCallId, p.content, p.isError))
    else if p.kind == "" then Err(BadRequest(i, j, NoType))
    else Err(BadRequest(i, j, UnknownType))
  }

  /** Every part converted, or the first rejection. */
  function SkylParts(content: seq<ChatPart>, i: nat): Result<seq<Part>, BadRequest> {
    if content == [] then Ok([])
    else
      var n := |content| - 1;
      match SkylParts(content[..n], i)
      case Err(e) => Err(e)
      case Ok(parts) =>
        (match ToSkylPart(content[n], i, n)
         case Err(e) => Err(e)
         case Ok(part) => Ok(parts + [part]))
  }

  function SkylMessage(m: ChatMessage, i: nat): Result<Message, BadRequest> {
    var role := RoleOf(m.role);
    if role.OtherRole? then Err(BadRequest(i, 0, UnknownRole))
    else if m.text != "" && m.content != [] then Err(BadRequest(i, 0, TextAndContent))
    else if m.text != "" then Ok(Message(role, [Text(m.text)]))
    else
      match SkylParts(m.content, i)
      case Err(e) => Err(e)
      case Ok(parts) => Ok(Message(role, parts))
  }

  method ToSkylMessage(m: ChatMessage, idx: nat) returns (r: Result<Message, BadRequest>)
    ensures r == SkylMessage(m, idx)
  {
    var role := RoleOf(m.role);
    if role.OtherRole? {
      return Err(BadRequest(idx, 0, UnknownRole));
    }
    if m.text != "" && |m.content| > 0 {
      return Err(BadRequest(idx, 0, TextAndContent));
    }
    if m.text != "" {
      return Ok(Message(role, [Text(m.text)]));
    }

    var parts: seq<Part> := [];
    for j := 0 to |m.content|
      invariant SkylParts(m.content[..j], idx) == Ok(parts)
    {
      var part := ToSkylPart(m.content[j], idx, j);
      assert m.content[..j + 1][..j] == m.content[..j];
      if part.Err? {
        SkylPartsStops(m.content, idx, j + 1, part.error);
        return Err(part.error);
      }
      parts := parts + [part.value];
    }
    assert m.content[..|m.content|] == m.content;
    return Ok(Message(role, parts));
  }

  lemma {:induction false} SkylPartsStops(content: seq<ChatPart>, i: nat, n: nat, e: BadRequest)
    requires n <= |content|
    requires SkylParts(content[..n], i) == Err(e)
    ensures SkylParts(content, i) == Err(e)
    decreases |content| - n
  {
    if n < |content| {
      assert content[..n + 1][..n] == content[..n];
      SkylPartsStops(content, i, n + 1, e);
    } else {
      assert content[..n] == content;
    }
  }

  /** A part the gateway takes: of a known kind and with what that kind needs. */
  predicate Acceptable(p: ChatPart) {
    || p.kind == "text"
    || (p.kind == "image" && (if p.data == "" then p.url != "" else p.mediaType != "" && Decode(p.data).Some?))
    || (p.kind == "tool_call" && p.id != "" && p.name != "")
    || (p.kind == "tool_result" && p.toolCallId != "")
  }

  /** The reason given for refusing a part names what is wrong with it. */
  predicate Blames(p: ChatPart, reason: Reason) {
    match reason
    case NoType => p.kind == ""
    case UnknownType => p.kind !in {"", "text", "image", "tool_call", "tool_result"}
    case ImageNeedsDataOrUrl => p.kind == "image" && p.data == "" && p.url == ""
    case ImageNeedsMediaType => p.kind == "image" && p.data != "" && p.mediaType == ""
    case ImageDataNotBase64 => p.kind == "image" && p.data != "" && p.mediaType != "" && Decode(p.data).None?
    case CallNeedsIdAndName => p.kind == "tool_call" && (p.id == "" || p.name == "")
    case ResultNeedsCallId => p.kind == "tool_result" && p.toolCallId == ""
    case _ => false
  }

  lemma AcceptableIff(p: ChatPart, i: nat, j: nat)
    ensures ToSkylPart(p, i, j).Ok? <==> Acceptable(p)
    ensures ToSkylPart(p, i, j).Err? ==>
              var e := ToSkylPart(p, i, j).error;
              e.message == i && e.part == j && Blames(p, e.reason)
  {
  }

  /** Some part is not acceptable, for the reason given, and it is the first. */
  predicate FirstRejected(content: seq<ChatPart>, j: nat, reason: Reason) {
    && j < |content| && !Acceptable(content[j]) && Blames(content[j], reason)
    && forall k :: 0 <= k < j ==> Acceptable(content[k])
  }

  /** The parts convert exactly when all are acceptable; else the first that is not is named. */
  ghost predicate AcceptedRight(content: seq<ChatPart>, i: nat) {
    match SkylParts(content, i)
    case Ok(parts) => |parts| == |content| && forall j :: 0 <= j < |content| ==> Acceptable(content[j])
    case Err(e) => e.message == i && FirstRejected(content, e.part, e.reason)
  }

  lemma PartsAcceptedStep(front: seq<ChatPart>, p: ChatPart, i: nat)
    requires AcceptedRight(front, i)
    ensures AcceptedRight(front + [p], i)
  {
    Snoc(front, p);
    AcceptableIff(p, i, |front|);
  }

  lemma {:induction false} PartsAcceptedIff(content: seq<ChatPart>, i: nat)
    ensures AcceptedRight(content, i)
  {
    if content != [] {
      FrontLast(content);
      PartsAcceptedIff(content[..|content| - 1], i);
      PartsAcceptedStep(content[..|content| - 1], content[|content| - 1], i);
    }
  }

  /**
   The gateway takes a message exactly when its role is known, it does not give both the shorthand and parts,
   and every part is acceptable. The message has the role named and a part for each, and the shorthand stands
   for a single text part. A rejection names the message, and the first part to blame.
   */
  lemma MessageAcceptedIff(m: ChatMessage, i: nat)
    ensures var r := SkylMessage(m, i);
            && (r.Ok? <==>
                  && m.role in {"user", "assistant", "tool"} && (m.text == "" || m.content == [])
                  && forall j :: 0 <= j < |m.content| ==> Acceptable(m.content[j]))
            && (r.Ok? ==>
                  r.value.role == if m.role == "user" then User else if m.role == "tool" then Tool else Assistant)
            && (r.Ok? && m.text == "" ==> |r.value.parts| == |m.content|)
            && (r.Ok? && m.text != "" ==> r.value.parts == [Text(m.text)])
            && (r.Err? ==>
                  && r.error.message == i
                  && match r.error.reason
                     case UnknownRole => m.role !in {"user", "assistant", "tool"}
                     case TextAndContent => m.text != "" && m.content != []
                     case reason => FirstRejected(m.content, r.error.part, reason))
  {
    PartsAcceptedIff(m.content, i);
  }

  /** The shorthand is nothing but a message with one text part. */
  lemma ShorthandIsOneTextPart(role: string, text: string, i: nat)
    requires text != ""
    ensures SkylMessage(ChatMessage(role, text, []), i) ==
            SkylMessage(ChatMessage(role, "", [EMPTY_PART.(kind := "text", text := text)]), i)
  {
    var part := EMPTY_PART.(kind := "text", text := text);
    SkylPartsSnoc([], part, i, [], Text(text));
    assert [] + [part] == [part] && [] + [Text(text)] == [Text(text)];
  }

  // ------------------------------------------------------------------
  // Skyl to wire
  // ------------------------------------------------------------------

  /** A part on the wire; the nil part has no rendering. */
  function ChatPartOf(p: Part): seq<ChatPart> {
    match p
    case Text(t) => [EMPTY_PART.(kind := "text", text := t)]
    case Image(mediaType, data, url) =>
      [EMPTY_PART.(kind := "image", mediaType := mediaType, url := url, data := Encode(data))]
    case Call(c) => [EMPTY_PART.(kind := "tool_call", id := c.id, name := c.name, arguments := c.arguments)]
    case ToolResult(callId, content, isError) =>
      [EMPTY_PART.(kind := "tool_result", toolCallId := callId, content := content, isError := isError)]
    case NilPart => []
  }

  function ChatParts(parts: seq<Part>): seq<ChatPart> {
    if parts == [] then [] else ChatParts(parts[..|parts| - 1]) + ChatPartOf(parts[|parts| - 1])
  }

  method FromSkylMessage(m: Message) returns (out: ChatMessage)
    ensures out == ChatMessage(RoleName(m.role), "", ChatParts(m.parts))
  {
    var content: seq<ChatPart> := [];
    for i := 0 to |m.parts|
      invariant content == ChatParts(m.parts[..i])
    {
      assert m.parts[..i + 1][..i] == m.parts[..i];
      match m.parts[i]
      case Text(t) =>
        content := content + [EMPTY_PART.(kind := "text", text := t)];
      case Image(mediaType, data, url) =>
        var p := EMPTY_PART.(kind := "image", mediaType := mediaType, url := url);
        if |data| > 0 {
          p := p.(data := Encode(data));
        }
        content := content + [p];
      case Call(c) =>
        content := content + [EMPTY_PART.(kind := "tool_call", id := c.id, name := c.name, arguments := c.arguments)];
      case ToolResult(callId, result, isError) =>
        content := content +
          [EMPTY_PART.(kind := "tool_result", toolCallId := callId, content := result, isError := isError)];
      case NilPart =>
    }
    assert m.parts[..|m.parts|] == m.parts;
    return ChatMessage(RoleName(m.role), "", content);
  }

  lemma {:induction false} ChatPartsAppend(a: seq<Part>, b: seq<Part>)
    ensures ChatParts(a + b) == ChatParts(a) + ChatParts(b)
    decreases |b|
  {
    if b == [] {
      AppendNil(a);
      AppendNil(ChatParts(a));
    } else {
      var front, last := b[..|b| - 1], b[|b| - 1];
      FrontLast(b);
      Assoc(a, front, [last]);
      Snoc(a + front, last);
      ChatPartsAppend(a, front);
      Assoc(ChatParts(a), ChatParts(front), ChatPartOf(last));
    }
  }

  /** A part of no known kind is skipped wherever it stands, and keeps no other from its place. */
  lemma NilPartIsSkipped(a: seq<Part>, b: seq<Part>)
    ensures ChatParts(a + ([NilPart] + b)) == ChatParts(a + b) == ChatParts(a) + ChatParts(b)
  {
    ChatPartsAppend(a, [NilPart] + b);
    ChatPartsAppend([NilPart], b);
    ChatPartsAppend(a, b);
    assert [NilPart][..0] == [];
    AppendNil(ChatParts(b));
  }

  // ------------------------------------------------------------------
  // Validation
  // ------------------------------------------------------------------

  predicate ValidPart(p: Part) {
    match p
    case Text(_) => true
    case Image(mediaType, data, url) => (data != [] || url != "") && (data != [] ==> mediaType != "")
    case Call(c) => c.id != "" && c.name != ""
    case ToolResult(callId, _, _) => callId != ""
    case NilPart => false
  }

  predicate ValidMessage(m: Message) {
    && !m.role.OtherRole?
    && m.parts != []
    && forall i :: 0 <= i < |m.parts| ==> ValidPart(m.parts[i])
  }

  // ------------------------------------------------------------------
  // Round trip
  // ------------------------------------------------------------------

  predicate HasDataAndUrl(p: Part) {
    p.Image? && p.data != [] && p.url != ""
  }

  /** What the wire keeps of a part: an image that has data loses its URL. */
  function Kept(p: Part): Part {
    if HasDataAndUrl(p) then p.(url := "") else p
  }

  function KeptParts(parts: seq<Part>): (kept: seq<Part>)
    ensures |kept| == |parts|
    ensures forall i :: 0 <= i < |parts| ==> kept[i] == Kept(parts[i])
  {
    seq(|parts|, i requires 0 <= i < |parts| => Kept(parts[i]))
  }

  lemma PartRoundTrip(p: Part, i: nat, j: nat)
    requires ValidPart(p)
    ensures |ChatPartOf(p)| == 1
    ensures ToSkylPart(ChatPartOf(p)[0], i, j) == Ok(Kept(p))
  {
    if p.Image? {
      DecodeEncode(p.data);
    }
  }

  lemma SkylPartsSnoc(content: seq<ChatPart>, chat: ChatPart, i: nat, parts: seq<Part>, part: Part)
    requires SkylParts(content, i) == Ok(parts)
    requires ToSkylPart(chat, i, |content|) == Ok(part)
    ensures SkylParts(content + [chat], i) == Ok(parts + [part])
  {
    Snoc(content, chat);
  }

  lemma {:induction false} PartsRoundTrip(parts: seq<Part>, i: nat)
    requires forall k :: 0 <= k < |parts| ==> ValidPart(parts[k])
    ensures |ChatParts(parts)| == |parts|
    ensures SkylParts(ChatParts(parts), i) == Ok(KeptParts(parts))
  {
    if parts != [] {
      var front, last := parts[..|parts| - 1], parts[|parts| - 1];
      PartsRoundTrip(front, i);
      PartsRoundTripStep(front, last, i);
      FrontLast(parts);
    }
  }

  lemma PartsRoundTripStep(front: seq<Part>, p: Part, i: nat)
    requires ValidPart(p)
    requires |ChatParts(front)| == |front| && SkylParts(ChatParts(front), i) == Ok(KeptParts(front))
    ensures |ChatParts(front + [p])| == |front| + 1
    ensures SkylParts(ChatParts(front + [p]), i) == Ok(KeptParts(front + [p]))
  {
    var chat := ChatPartOf(p);
    PartRoundTrip(p, i, |front|);
    Snoc(front, p);
    KeptSnoc(front, p);
    SkylPartsSnoc(ChatParts(front), chat[0], i, KeptParts(front), Kept(p));
    assert chat == [chat[0]];
  }

  lemma KeptSnoc(front: seq<Part>, p: Part)
    ensures KeptParts(front + [p]) == KeptParts(front) + [Kept(p)]
  {
  }

  lemma KeepsAllIff(parts: seq<Part>)
    ensures KeptParts(parts) == parts <==> forall k :: 0 <= k < |parts| ==> !HasDataAndUrl(parts[k])
  {
    if KeptParts(parts) == parts {
      forall k | 0 <= k < |parts| ensures !HasDataAndUrl(parts[k]) {
        assert KeptParts(parts)[k] == parts[k];
      }
    }
  }

  /**
   A valid message comes back from the wire as it was, except for the URLs of images that also
   carry data; so it comes back unchanged exactly when no image carries both.
   */
  lemma MessageRoundTrip(m: Message, i: nat)
    requires ValidMessage(m)
    ensures var back := SkylMessage(ChatMessage(RoleName(m.role), "", ChatParts(m.parts)), i);
            && back == Ok(Message(m.role, KeptParts(m.parts)))
            && (back == Ok(m) <==> forall k :: 0 <= k < |m.parts| ==> !HasDataAndUrl(m.parts[k]))
  {
    PartsRoundTrip(m.parts, i);
    RoleRoundTrip(m.role);
    Assembles(RoleName(m.role), m.role, ChatParts(m.parts), KeptParts(m.parts), i);
    KeepsAllIff(m.parts);
  }

  lemma RoleRoundTrip(role: Role)
    requires !role.OtherRole?
    ensures RoleOf(RoleName(role)) == role
  {
  }

  lemma Assembles(name: string, role: Role, content: seq<ChatPart>, parts: seq<Part>, i: nat)
    requires RoleOf(name) == role && !role.OtherRole? && SkylParts(content, i) == Ok(parts)
    ensures SkylMessage(ChatMessage(name, "", content), i) == Ok(Message(role, parts))
  {
  }

  /** A concrete loss: the URL of an image that also carries data does not survive. */
  lemma UrlIsLost()
    ensures var m := Message(User, [Image("image/png", [1], "https://example.com/a.png")]);
            && ValidMessage(m)
            && SkylMessage(ChatMessage(RoleName(m.role), "", ChatParts(m.parts)), 0) ==
               Ok(Message(User, [Image("image/png", [1], "")]))
  {
    var m := Message(User, [Image("image/png", [1], "https://example.com/a.png")]);
    assert m.parts[0] == Image("image/png", [1], "https://example.com/a.png");
    MessageRoundTrip(m, 0);
    assert KeptParts(m.parts) == [Image("image/png", [1], "")];
  }

  /** An accepted part is valid, unless it is an image whose data is line breaks only. */
  lemma AcceptedIsValidIff(p: ChatPart, i: nat, j: nat)
    requires ToSkylPart(p, i, j).Ok?
    ensures ValidPart(ToSkylPart(p, i, j).value) <==>
            !(p.kind == "image" && p.data != "" && OnlyNewlines(p.data))
  {
    if p.kind == "image" && p.data != "" {
      DecodesToNothingIff(p.data);
    }
  }

  /** The accepted image that validation then refuses. */
  lemma NewlineImageIsInvalid()
    ensures var p := EMPTY_PART.(kind := "image", mediaType := "image/png", data := "\n");
            ToSkylPart(p, 0, 0) == Ok(Image("image/png", [], "")) && !ValidPart(Image("image/png", [], ""))
  {
    DecodesToNothingIff("\n");
  }
}
