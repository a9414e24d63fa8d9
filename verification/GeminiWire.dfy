/** The Gemini wire types, and the message mapping in both directions. */
module GeminiWire {
  import opened Bytes
  import opened Seqs
  import opened Skyl
  import opened Wrappers
  import Base64

  datatype InlineData = InlineData(mimeType: string, data: string)

  datatype FunctionCall = FunctionCall(name: string, args: string)

  datatype FunctionResponse = FunctionResponse(name: string, content: string)

  datatype WirePart = WirePart(
    text: string,
    inline: Option<InlineData>,
    call: Option<FunctionCall>,
    response: Option<FunctionResponse>)

  const EMPTY_WIRE_PART := WirePart("", None, None, None)

  datatype WireContent = WireContent(role: string, parts: seq<WirePart>)

  datatype Candidate = Candidate(content: WireContent, finishReason: string)

  datatype WireUsage = WireUsage(prompt: int, candidates: int, cached: int)

  datatype WireResponse = WireResponse(candidates: seq<Candidate>, usage: WireUsage, error: Option<string>)

  datatype Codec = Codec(encode: WireResponse -> Bytes, decode: Bytes -> Option<WireResponse>)

  function MapFinishReason(s: string, hasCalls: bool): (r: StopReason)
    ensures r != NoReason
    ensures hasCalls ==> r == ToolUse
    ensures !hasCalls ==> r != ToolUse
  {
    if hasCalls then ToolUse
    else if s == "STOP" then EndTurn
    else if s == "MAX_TOKENS" then MaxTokens
    else if s in {"SAFETY", "RECITATION", "BLOCKLIST", "PROHIBITED_CONTENT", "SPII"} then Refusal
    else Unknown
  }

  /** A reply part: a call, or text that is not empty; anything else is dropped. */
  function PartFromWire(p: WirePart): seq<Part> {
    if p.call.Some? then
      var c := p.call.value;
      [Call(ToolCall(c.name, c.name, ArgumentsOrEmptyObject(c.args)))]
    else if p.text != "" then [Text(p.text)]
    else []
  }

  function PartsFromWire(ps: seq<WirePart>): seq<Part> {
    if ps == [] then [] else PartsFromWire(ps[..|ps| - 1]) + PartFromWire(ps[|ps| - 1])
  }

  predicate HasCalls(ps: seq<WirePart>) {
    ps != [] && (HasCalls(ps[..|ps| - 1]) || ps[|ps| - 1].call.Some?)
  }

  method PartsFromCandidate(c: WireContent) returns (parts: seq<Part>, hasCalls: bool)
    ensures parts == PartsFromWire(c.parts)
    ensures hasCalls == HasCalls(c.parts)
  {
    parts, hasCalls := [], false;
    for i := 0 to |c.parts|
      invariant parts == PartsFromWire(c.parts[..i])
      invariant hasCalls == HasCalls(c.parts[..i])
    {
      var wp := c.parts[i];
      assert c.parts[..i + 1][..i] == c.parts[..i];
      if wp.call.Some? {
        hasCalls := true;
        var args := wp.call.value.args;
        if args == "" {
          args := "{}";
        }
        parts := parts + [Call(ToolCall(wp.call.value.name, wp.call.value.name, args))];
      } else if wp.text != "" {
        parts := parts + [Text(wp.text)];
      }
    }
    assert c.parts[..|c.parts|] == c.parts;
  }

  lemma {:induction false} PartsFromWireAppend(a: seq<WirePart>, b: seq<WirePart>)
    ensures PartsFromWire(a + b) == PartsFromWire(a) + PartsFromWire(b)
    decreases |b|
  {
    if b == [] {
      AppendNil(a);
      AppendNil(PartsFromWire(a));
    } else {
      var front, p := b[..|b| - 1], b[|b| - 1];
      FrontLast(b);
      Assoc(a, front, [p]);
      Snoc(a + front, p);
      PartsFromWireAppend(a, front);
      Assoc(PartsFromWire(a), PartsFromWire(front), PartFromWire(p));
    }
  }

  lemma {:induction false} HasCallsAppend(a: seq<WirePart>, b: seq<WirePart>)
    ensures HasCalls(a + b) == (HasCalls(a) || HasCalls(b))
    decreases |b|
  {
    if b == [] {
      AppendNil(a);
    } else {
      var front, p := b[..|b| - 1], b[|b| - 1];
      FrontLast(b);
      Assoc(a, front, [p]);
      Snoc(a + front, p);
      HasCallsAppend(a, front);
    }
  }

  lemma {:induction false} HasCallsIff(ps: seq<WirePart>)
    ensures HasCalls(ps) <==> CallsOf(PartsFromWire(ps)) != []
  {
    if ps != [] {
      var front, p := ps[..|ps| - 1], ps[|ps| - 1];
      HasCallsIff(front);
      CallsOfAppend(PartsFromWire(front), PartFromWire(p));
      OnePart(p);
    }
  }

  lemma OnePart(p: WirePart)
    ensures CallsOf(PartFromWire(p)) != [] <==> p.call.Some?
  {
    if PartFromWire(p) != [] {
      assert PartFromWire(p)[..0] == [];
    }
  }

  // ------------------------------------------------------------------
  // Parts to a request
  // ------------------------------------------------------------------

  /** The part Gemini cannot take: an image that is only a URL, or an unknown part. */
  predicate Expressible(p: Part) {
    !p.NilPart? && !(p.Image? && p.url != "" && p.data == [])
  }

  function WirePartOf(p: Part): WirePart
    requires Expressible(p)
  {
    match p
    case Text(t) => EMPTY_WIRE_PART.(text := t)
    case Image(mediaType, data, _) => EMPTY_WIRE_PART.(inline := Some(InlineData(mediaType, Base64.Encode(data))))
    case Call(c) => EMPTY_WIRE_PART.(call := Some(FunctionCall(c.name, ArgumentsOrEmptyObject(c.arguments))))
    case ToolResult(callId, content, _) => EMPTY_WIRE_PART.(response := Some(FunctionResponse(callId, content)))
  }

  function WirePartsOf(parts: seq<Part>): (ps: seq<WirePart>)
    requires forall i :: 0 <= i < |parts| ==> Expressible(parts[i])
    ensures |ps| == |parts|
    ensures forall i :: 0 <= i < |parts| ==> ps[i] == WirePartOf(parts[i])
  {
    seq(|parts|, i requires 0 <= i < |parts| => WirePartOf(parts[i]))
  }

  /** Every part in place, or the position of the first that cannot be expressed. */
  method ConvertMessage(m: Message) returns (r: Result<WireContent, nat>)
    ensures r.Ok? <==> forall i :: 0 <= i < |m.parts| ==> Expressible(m.parts[i])
    ensures r.Ok? ==> r.value == WireContent(if m.role == Assistant then "model" else "user", WirePartsOf(m.parts))
    ensures r.Err? ==> r.error < |m.parts| && !Expressible(m.parts[r.error])
    ensures r.Err? ==> forall i :: 0 <= i < r.error ==> Expressible(m.parts[i])
  {
    var role := "user";
    if m.role == Assistant {
      role := "model";
    }
    var parts: seq<WirePart> := [];
    for i := 0 to |m.parts|
      invariant |parts| == i
      invariant forall k :: 0 <= k < i ==> Expressible(m.parts[k]) && parts[k] == WirePartOf(m.parts[k])
    {
      match m.parts[i]
      case Text(t) =>
        parts := parts + [EMPTY_WIRE_PART.(text := t)];
      case Image(mediaType, data, url) =>
        if url != "" && |data| == 0 {
          return Err(i);
        }
        parts := parts + [EMPTY_WIRE_PART.(inline := Some(InlineData(mediaType, Base64.Encode(data))))];
      case Call(c) =>
        var args := c.arguments;
        if args == "" {
          args := "{}";
        }
        parts := parts + [EMPTY_WIRE_PART.(call := Some(FunctionCall(c.name, args)))];
      case ToolResult(callId, content, _) =>
        parts := parts + [EMPTY_WIRE_PART.(response := Some(FunctionResponse(callId, content)))];
      case NilPart =>
        return Err(i);
    }
    assert parts == WirePartsOf(m.parts);
    return Ok(WireContent(role, parts));
  }

  /** A part that a replay keeps as it is: text, or a call named by its own ID, neither empty. */
  predicate Replayable(p: Part) {
    || (p.Text? && p.text != "")
    || (p.Call? && p.call.id == p.call.name && p.call.arguments != "")
  }

  lemma {:induction false} ProducedAreReplayable(ps: seq<WirePart>)
    ensures forall i :: 0 <= i < |PartsFromWire(ps)| ==>
              Expressible(PartsFromWire(ps)[i]) && Replayable(PartsFromWire(ps)[i])
  {
    if ps != [] {
      ProducedAreReplayable(ps[..|ps| - 1]);
    }
  }

  lemma {:induction false} ReplayReadsBack(parts: seq<Part>)
    requires forall i :: 0 <= i < |parts| ==> Expressible(parts[i]) && Replayable(parts[i])
    ensures PartsFromWire(WirePartsOf(parts)) == parts
  {
    if parts != [] {
      var front := parts[..|parts| - 1];
      var ps := WirePartsOf(parts);
      assert ps[..|ps| - 1] == WirePartsOf(front);
      ReplayReadsBack(front);
      FrontLast(parts);
      assert Replayable(parts[|parts| - 1]);
    }
  }

  /** A turn is read back unchanged exactly when every part of it is replayable. */
  lemma ReplayIsIdentityIff(parts: seq<Part>)
    requires forall i :: 0 <= i < |parts| ==> Expressible(parts[i])
    ensures PartsFromWire(WirePartsOf(parts)) == parts <==> forall i :: 0 <= i < |parts| ==> Replayable(parts[i])
  {
    ProducedAreReplayable(WirePartsOf(parts));
    if forall i :: 0 <= i < |parts| ==> Replayable(parts[i]) {
      ReplayReadsBack(parts);
    }
  }

  /** What the response mapping produced survives a replay unchanged. */
  lemma ResponseSurvivesReplay(c: WireContent)
    ensures forall i :: 0 <= i < |PartsFromWire(c.parts)| ==> Expressible(PartsFromWire(c.parts)[i])
    ensures PartsFromWire(WirePartsOf(PartsFromWire(c.parts))) == PartsFromWire(c.parts)
  {
    ProducedAreReplayable(c.parts);
    ReplayReadsBack(PartsFromWire(c.parts));
  }

  /** The wire part carries the part, and nothing else: an image's bytes read back from their base64. */
  ghost predicate Carries(w: WirePart, p: Part) {
    match p
    case Text(t) => w == WirePart(t, None, None, None)
    case Image(mediaType, data, _) =>
      && w.text == "" && w.call.None? && w.response.None? && w.inline.Some?
      && w.inline.value.mimeType == mediaType && Base64.Decode(w.inline.value.data) == Some(data)
    case Call(c) =>
      && w.text == "" && w.inline.None? && w.response.None? && w.call.Some?
      && w.call.value.name == c.name && w.call.value.args == (if c.arguments == "" then "{}" else c.arguments)
    case ToolResult(callId, content, _) =>
      && w.text == "" && w.inline.None? && w.call.None? && w.response.Some?
      && w.response.value.name == callId && w.response.value.content == content
    case NilPart => false
  }

  /** A converted turn carries every part in its place. */
  lemma TurnReadsBack(parts: seq<Part>)
    requires forall i :: 0 <= i < |parts| ==> Expressible(parts[i])
    ensures |WirePartsOf(parts)| == |parts|
    ensures forall i :: 0 <= i < |parts| ==> Carries(WirePartsOf(parts)[i], parts[i])
  {
    forall i | 0 <= i < |parts| ensures Carries(WirePartOf(parts[i]), parts[i]) {
      if parts[i].Image? {
        Base64.DecodeEncode(parts[i].data);
      }
    }
  }
}
