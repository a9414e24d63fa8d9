/** The sandbox's OpenAI writer: which tool a turn calls, and the frames that a turn goes out as. */
module SandboxStream {
  import opened Bytes
  import opened OaiWire
  import opened Sandbox
  import opened Seqs
  import opened Skyl
  import opened Wrappers
  import SseLaws

  // ------------------------------------------------------------------
  // Turns
  // ------------------------------------------------------------------

  datatype SandboxCall = SandboxCall(id: string, name: string, args: string)

  const TOOL_CALL_ID := "call_sandbox_1"
  const TOOL_CALL_ARGS := "{\"city\":\"Kampala\",\"units\":\"metric\"}"

  /** What a model ID asks to go wrong after the stream has begun. */
  datatype Fault = NoFault | CutShort | InBandError

  datatype Turn = Turn(
    model: string, prompt: string, answer: string, call: Option<SandboxCall>, fault: Fault, truncated: bool)

  // ------------------------------------------------------------------
  // Which tool a turn calls
  // ------------------------------------------------------------------

  /** The declared tool names that are not empty, in order. */
  function ToolNames(declared: seq<string>): (names: seq<string>)
    ensures "" !in names
  {
    if declared == [] then []
    else
      var front := ToolNames(declared[..|declared| - 1]);
      if declared[|declared| - 1] == "" then front else front + [declared[|declared| - 1]]
  }

  method DeclaredNames(declared: seq<string>) returns (names: seq<string>)
    ensures names == ToolNames(declared)
  {
    names := [];
    for i := 0 to |declared|
      invariant names == ToolNames(declared[..i])
    {
      Snoc(declared[..i], declared[i]);
      TakeSnoc(declared, i);
      if declared[i] != "" {
        names := names + [declared[i]];
      }
    }
    TakeAll(declared);
  }

  lemma {:induction false} ToolNamesKeepsAll(declared: seq<string>)
    requires "" !in declared
    ensures ToolNames(declared) == declared
  {
    if declared != [] {
      ToolNamesKeepsAll(declared[..|declared| - 1]);
      FrontLast(declared);
    }
  }

  /** Names that are not empty stay in place, and an empty one makes no difference wherever it stands. */
  lemma {:induction false} ToolNamesSkipsEmpty(a: seq<string>, b: seq<string>)
    ensures ToolNames(a + [""] + b) == ToolNames(a + b)
    ensures "" !in a + b ==> ToolNames(a + b) == a + b
    decreases |b|
  {
    if b == [] {
      AppendNil(a);
      AppendNil(a + [""]);
      Snoc(a, "");
    } else {
      var front, last := b[..|b| - 1], b[|b| - 1];
      FrontLast(b);
      Assoc(a + [""], front, [last]);
      Assoc(a, front, [last]);
      Snoc(a + [""] + front, last);
      Snoc(a + front, last);
      ToolNamesSkipsEmpty(a, front);
    }
    if "" !in a + b {
      ToolNamesKeepsAll(a + b);
    }
  }

  const TOOL_TRIGGER := "weather"

  function Lower(s: string): (t: string)
    ensures |t| == |s|
  {
    seq(|s|, i requires 0 <= i < |s| => if 'A' <= s[i] <= 'Z' then s[i] - 'A' + 'a' else s[i])
  }

  /** Holds the trigger word in any case. Only ASCII letters have its letters as their lower case. */
  predicate Mentions(s: string) {
    exists i :: 0 <= i <= |s| && TOOL_TRIGGER <= Lower(s)[i..]
  }

  function FirstMention(names: seq<string>): (n: nat)
    ensures n <= |names|
    ensures forall i :: 0 <= i < n ==> !Mentions(names[i])
    ensures n < |names| ==> Mentions(names[n])
  {
    if names == [] || Mentions(names[0]) then 0 else 1 + FirstMention(names[1..])
  }

  function CallTo(name: string): SandboxCall {
    SandboxCall(TOOL_CALL_ID, name, TOOL_CALL_ARGS)
  }

  /**
   The call of a turn: none without tools or when forbidden; the forced tool, if it is declared; else,
   when required or prompted, the first whose name mentions the trigger, or else the first.
   */
  function Decided(prompt: string, names: seq<string>, choice: string, forced: string): (call: Option<SandboxCall>)
    ensures call.Some? ==> call.value.name in names && call.value == CallTo(call.value.name)
  {
    if names == [] || choice == "none" then None
    else if forced != "" then if forced in names then Some(CallTo(forced)) else None
    else if choice == "required" || Mentions(prompt) then
      var n := FirstMention(names);
      Some(CallTo(names[if n < |names| then n else 0]))
    else None
  }

  /** The name a turn settles on when it may choose: the first that mentions the trigger, or the first of all. */
  ghost predicate Preferred(names: seq<string>, name: string) {
    exists n :: 0 <= n < |names| && names[n] == name && PreferredAt(names, n)
  }

  predicate PreferredAt(names: seq<string>, n: nat)
    requires n < |names|
  {
    if Mentions(names[n]) then forall i :: 0 <= i < n ==> !Mentions(names[i])
    else n == 0 && forall i :: 0 <= i < |names| ==> !Mentions(names[i])
  }

  /**
   When a turn calls a tool, and which: a tool is called exactly when one is declared and not forbidden and
   either the forced one is declared or, with none forced, one is required or the prompt asks for it. The
   call is the forced tool's, or else the preferred one's, always under the same ID and arguments.
   */
  lemma DecidedIs(prompt: string, names: seq<string>, choice: string, forced: string)
    ensures var call := Decided(prompt, names, choice, forced);
            && (call.Some? <==>
                  && names != [] && choice != "none"
                  && (if forced != "" then forced in names else choice == "required" || Mentions(prompt)))
            && (call.Some? ==>
                  && call.value.id == TOOL_CALL_ID && call.value.args == TOOL_CALL_ARGS
                  && (if forced != "" then call.value.name == forced else Preferred(names, call.value.name)))
  {
    var call := Decided(prompt, names, choice, forced);
    if call.Some? && forced == "" {
      var n := FirstMention(names);
      assert PreferredAt(names, if n < |names| then n else 0);
    }
  }

  lemma LowerSplits(a: string, w: string, b: string)
    ensures Lower(a + w + b) == Lower(a) + Lower(w) + Lower(b)
    ensures Lower(a + w + b)[|a|..] == Lower(w) + Lower(b)
  {
  }

  lemma MentionFound(s: string) returns (a: string, w: string, b: string)
    requires Mentions(s)
    ensures s == a + w + b && Lower(w) == TOOL_TRIGGER
  {
    var i :| 0 <= i <= |s| && TOOL_TRIGGER <= Lower(s)[i..];
    var n := |TOOL_TRIGGER|;
    a, w, b := s[..i], s[i..][..n], s[i..][n..];
    assert s[i..] == w + b && s == a + s[i..];
    Assoc(a, w, b);
    LowerSlices(s, i, n);
  }

  lemma LowerSlices(s: string, i: nat, n: nat)
    requires i + n <= |s|
    ensures Lower(s[i..][..n]) == Lower(s)[i..][..n]
  {
  }

  /** The trigger, each letter in either case. */
  predicate InAnyCase(w: string) {
    && |w| == |TOOL_TRIGGER|
    && forall i :: 0 <= i < |w| ==> w[i] == TOOL_TRIGGER[i] || w[i] as int + 32 == TOOL_TRIGGER[i] as int
  }

  lemma TriggerIsLower()
    ensures forall i :: 0 <= i < |TOOL_TRIGGER| ==> 'a' <= TOOL_TRIGGER[i] <= 'z'
  {
  }

  lemma InAnyCaseIff(w: string)
    ensures InAnyCase(w) <==> Lower(w) == TOOL_TRIGGER
  {
    TriggerIsLower();
    if |w| == |TOOL_TRIGGER| {
      forall i | 0 <= i < |w|
        ensures w[i] == TOOL_TRIGGER[i] || w[i] as int + 32 == TOOL_TRIGGER[i] as int <==>
                Lower(w)[i] == TOOL_TRIGGER[i]
      {
        LowerOrSame(w[i], TOOL_TRIGGER[i]);
      }
    }
  }

  lemma LowerOrSame(c: char, t: char)
    requires 'a' <= t <= 'z'
    ensures c == t || c as int + 32 == t as int <==> (if 'A' <= c <= 'Z' then c - 'A' + 'a' else c) == t
  {
  }

  /** A text mentions the trigger exactly when some stretch of it is the trigger, each letter in either case. */
  lemma MentionsIff(s: string)
    ensures Mentions(s) <==> exists a, w, b :: s == a + w + b && InAnyCase(w)
  {
    if Mentions(s) {
      var a, w, b := MentionFound(s);
      InAnyCaseIff(w);
    }
    forall a, w, b | s == a + w + b && InAnyCase(w) ensures Mentions(s) {
      InAnyCaseIff(w);
      LowerSplits(a, w, b);
      assert TOOL_TRIGGER <= Lower(s)[|a|..];
    }
  }

  method DecideToolCall(prompt: string, names: seq<string>, choice: string, forced: string)
    returns (call: Option<SandboxCall>)
    ensures call == Decided(prompt, names, choice, forced)
  {
    if |names| == 0 || choice == "none" {
      return None;
    }
    if forced != "" {
      for i := 0 to |names|
        invariant forced !in names[..i]
      {
        if names[i] == forced {
          return Some(SandboxCall(TOOL_CALL_ID, forced, TOOL_CALL_ARGS));
        }
      }
      return None;
    }

    var name := names[0];
    ghost var n := |names|;
    for i := 0 to |names|
      invariant name == names[0] && n == |names|
      invariant forall k :: 0 <= k < i ==> !Mentions(names[k])
    {
      if Mentions(names[i]) {
        name := names[i];
        n := i;
        break;
      }
    }
    FirstMentionIs(names, n);
    if choice == "required" || Mentions(prompt) {
      return Some(SandboxCall(TOOL_CALL_ID, name, TOOL_CALL_ARGS));
    }
    return None;
  }

  lemma FirstMentionIs(names: seq<string>, n: nat)
    requires n <= |names| && (n < |names| ==> Mentions(names[n]))
    requires forall i :: 0 <= i < n ==> !Mentions(names[i])
    ensures FirstMention(names) == n
  {
  }

  // ------------------------------------------------------------------
  // The writer
  // ------------------------------------------------------------------

  const REPLY_ID := "chatcmpl-sandbox-1"

  function DeltaChunk(model: string, delta: WireMessage, finish: string): WireResponse {
    WireResponse(REPLY_ID, model, [Choice(NO_MESSAGE, delta, finish)], NO_WIRE_USAGE, None)
  }

  function Opening(model: string): WireResponse {
    DeltaChunk(model, WireMessage("assistant", Plain(""), [], ""), "")
  }

  function TextChunk(model: string, piece: string): WireResponse {
    DeltaChunk(model, NO_MESSAGE.(content := Plain(piece)), "")
  }

  function FragmentOf(call: SandboxCall, fragment: string, first: bool): WireCall {
    WireCall(if first then call.id else "", Some(0), if first then call.name else "", fragment)
  }

  function CallChunk(model: string, fragment: WireCall): WireResponse {
    DeltaChunk(model, NO_MESSAGE.(calls := [fragment]), "")
  }

  function UsageChunk(model: string, input: int, output: int): WireResponse {
    WireResponse(REPLY_ID, model, [], WireUsage(input, output, 0), None)
  }

  const INJECTED_MESSAGE := "sandbox: injected mid-stream failure"
  const ERROR_CHUNK := WireResponse("", "", [], NO_WIRE_USAGE, Some(INJECTED_MESSAGE))

  function TextChunks(model: string, pieces: seq<string>): (ws: seq<WireResponse>)
    ensures |ws| == |pieces|
    ensures forall i :: 0 <= i < |ws| ==> ws[i] == TextChunk(model, pieces[i])
  {
    seq(|pieces|, i requires 0 <= i < |pieces| => TextChunk(model, pieces[i]))
  }

  /** Only the first fragment carries the call's ID and name. */
  function CallFragments(call: SandboxCall, pieces: seq<string>): (fs: seq<WireCall>)
    ensures |fs| == |pieces|
    ensures forall i :: 0 <= i < |fs| ==> fs[i] == FragmentOf(call, pieces[i], i == 0)
  {
    seq(|pieces|, i requires 0 <= i < |pieces| => FragmentOf(call, pieces[i], i == 0))
  }

  function CallChunks(model: string, fragments: seq<WireCall>): (ws: seq<WireResponse>)
    ensures |ws| == |fragments|
    ensures forall i :: 0 <= i < |ws| ==> ws[i] == CallChunk(model, fragments[i])
  {
    seq(|fragments|, i requires 0 <= i < |fragments| => CallChunk(model, fragments[i]))
  }

  /** The frames between the opening one and the finish reason. */
  function Middle(t: Turn): seq<WireResponse> {
    if t.call.Some? then
      CallChunks(t.model, CallFragments(t.call.value, ArgumentChunks(t.call.value.args)))
    else TextChunks(t.model, Chunks(t.answer))
  }

  function FinishReason(t: Turn): string {
    if t.call.Some? then "tool_calls" else if t.truncated then "length" else "stop"
  }

  /** Every JSON frame of a streamed turn, in order. */
  function Transcript(t: Turn): seq<WireResponse> {
    match t.fault
    case CutShort => [Opening(t.model), TextChunk(t.model, "par")]
    case InBandError => [Opening(t.model), TextChunk(t.model, "par"), ERROR_CHUNK]
    case NoFault =>
      [Opening(t.model)] + Middle(t) +
      [DeltaChunk(t.model, NO_MESSAGE, FinishReason(t)),
       UsageChunk(t.model, CountTokens(t.prompt), CountTokens(t.answer))]
  }

  function Encoded(codec: Codec, ws: seq<WireResponse>): (ps: seq<SseLaws.Piece>)
    ensures |ps| == |ws|
    ensures forall i :: 0 <= i < |ps| ==> ps[i] == SseLaws.Payload(codec.encode(ws[i]))
  {
    seq(|ws|, i requires 0 <= i < |ws| => SseLaws.Payload(codec.encode(ws[i])))
  }

  /** The frames on the wire: the JSON ones, then the sentinel unless a fault cut the stream. */
  function WirePieces(codec: Codec, t: Turn): seq<SseLaws.Piece> {
    Encoded(codec, Transcript(t)) + if t.fault.NoFault? then [SseLaws.Payload(DONE)] else []
  }

  class Sink {
    var out: Bytes

    method Send(codec: Codec, w: WireResponse)
      modifies this
      ensures out == old(out) + Frame(codec.encode(w))
    {
      out := out + DATA_PREFIX + codec.encode(w) + [LF, LF];
      assert out == old(out) + Frame(codec.encode(w));
    }

    method SendAll(codec: Codec, ws: seq<WireResponse>)
      modifies this
      ensures out == old(out) + SseLaws.Render(Encoded(codec, ws))
    {
      for i := 0 to |ws|
        invariant out == old(out) + SseLaws.Render(Encoded(codec, ws[..i]))
      {
        RenderEncodedSnoc(codec, ws, i);
        ghost var before := SseLaws.Render(Encoded(codec, ws[..i]));
        Assoc(old(out), before, Frame(codec.encode(ws[i])));
        Send(codec, ws[i]);
      }
      assert ws[..|ws|] == ws;
    }

    method OaiStream(codec: Codec, t: Turn)
      modifies this
      ensures out == old(out) + SseLaws.Render(WirePieces(codec, t))
    {
      match t.fault
      case CutShort =>
        SendAll(codec, [Opening(t.model), TextChunk(t.model, "par")]);
        AppendNil(Encoded(codec, Transcript(t)));
      case InBandError =>
        SendAll(codec, [Opening(t.model), TextChunk(t.model, "par"), ERROR_CHUNK]);
        AppendNil(Encoded(codec, Transcript(t)));
      case NoFault =>
        ghost var start, ps := out, Encoded(codec, Transcript(t));
        SendTurn(codec, t);
        Snoc(ps, SseLaws.Payload(DONE));
        Assoc(start, SseLaws.Render(ps), Frame(DONE));
        out := out + Frame(DONE);
    }

    method SendTurn(codec: Codec, t: Turn)
      requires t.fault.NoFault?
      modifies this
      ensures out == old(out) + SseLaws.Render(Encoded(codec, Transcript(t)))
    {
      var middle: seq<WireResponse>;
      var finish: string;
      if t.call.Some? {
        var pieces := ArgChunks(t.call.value.args);
        middle := CallChunks(t.model, CallFragments(t.call.value, pieces));
        finish := "tool_calls";
      } else {
        var pieces := Chunk(t.answer);
        middle := TextChunks(t.model, pieces);
        finish := if t.truncated then "length" else "stop";
      }
      SendAll(codec, [Opening(t.model)] + middle +
                     [DeltaChunk(t.model, NO_MESSAGE, finish),
                      UsageChunk(t.model, CountTokens(t.prompt), CountTokens(t.answer))]);
    }
  }

  lemma RenderEncodedSnoc(codec: Codec, ws: seq<WireResponse>, i: nat)
    requires i < |ws|
    ensures SseLaws.Render(Encoded(codec, ws[..i + 1])) ==
            SseLaws.Render(Encoded(codec, ws[..i])) + Frame(codec.encode(ws[i]))
  {
    var ps := Encoded(codec, ws[..i + 1]);
    assert ps[..i] == Encoded(codec, ws[..i]);
  }
}
