/**
 The whole pipeline: what the sandbox streams, read back by the event-stream reader, the decoder and the
 collector, agrees with the reply it gives in one piece.
 */
module SandboxLaws {
  import opened Bytes
  import opened OaiWire
  import opened Sandbox
  import opened SandboxStream
  import opened Seqs
  import opened Skyl
  import opened Wrappers
  import OaiLaws
  import OaiReplay
  import OaiStream
  import Sse
  import SseLaws

  // ------------------------------------------------------------------
  // Reading the stream back
  // ------------------------------------------------------------------

  function AsChunks(ws: seq<WireResponse>): (fs: seq<OaiStream.Frame>)
    ensures |fs| == |ws|
    ensures forall i :: 0 <= i < |fs| ==>
              fs[i] == if ws[i].error.Some? then OaiStream.Failure(ws[i].error.value) else OaiStream.Chunk(ws[i])
  {
    seq(|ws|, i requires 0 <= i < |ws| =>
      if ws[i].error.Some? then OaiStream.Failure(ws[i].error.value) else OaiStream.Chunk(ws[i]))
  }

  lemma {:induction false} PayloadsOfAll(ps: seq<SseLaws.Piece>)
    requires forall i :: 0 <= i < |ps| ==> ps[i].Payload?
    ensures |SseLaws.PayloadsOf(ps)| == |ps|
    ensures forall i :: 0 <= i < |ps| ==> SseLaws.PayloadsOf(ps)[i] == ps[i].payload
  {
    if ps != [] {
      PayloadsOfAll(ps[..|ps| - 1]);
    }
  }

  /** The reader and the frame classifier give back the frames the writer encoded. */
  lemma FramesReadBack(codec: Codec, t: Turn, failed: bool)
    requires Lawful(codec)
    ensures OaiStream.Frames(codec, Sse.Decode(SseLaws.Render(WirePieces(codec, t)), failed)) ==
            AsChunks(Transcript(t)) + if t.fault.NoFault? then [OaiStream.Sentinel] else []
  {
    var ps := WirePieces(codec, t);
    PayloadsOfAll(ps);
    WireIsOneLine(codec, t);
    SseLaws.RenderDecodes(ps, [], failed);
    AppendNil(SseLaws.Render(ps));
    EmptyDecodes(failed);
    var records := SseLaws.Unnamed(SseLaws.PayloadsOf(ps));
    AppendNil(records);
    FramesOfRecords(codec, t, records);
  }

  lemma WireIsOneLine(codec: Codec, t: Turn)
    requires Lawful(codec)
    ensures SseLaws.OneLinePieces(WirePieces(codec, t))
  {
    var ps, ws := WirePieces(codec, t), Transcript(t);
    forall i | 0 <= i < |ps| ensures OneLine(ps[i].payload) {
      if i < |ws| {
        assert ps[i] == SseLaws.Payload(codec.encode(ws[i]));
      }
    }
  }

  lemma EmptyDecodes(failed: bool)
    ensures Sse.Decode([], failed) == []
  {
    Sse.LastGroup([], failed, [], None, false);
  }

  lemma FramesOfRecords(codec: Codec, t: Turn, records: seq<Sse.Event>)
    requires Lawful(codec)
    requires var ps := WirePieces(codec, t);
             |records| == |ps| && forall i :: 0 <= i < |ps| ==> records[i].data == ps[i].payload
    ensures OaiStream.Frames(codec, records) ==
            AsChunks(Transcript(t)) + if t.fault.NoFault? then [OaiStream.Sentinel] else []
  {
    var ps, ws := WirePieces(codec, t), Transcript(t);
    var frames := AsChunks(ws) + if t.fault.NoFault? then [OaiStream.Sentinel] else [];
    forall i | 0 <= i < |ps| ensures OaiStream.FrameOf(codec, records[i].data) == frames[i] {
      if i < |ws| {
        assert ps[i] == SseLaws.Payload(codec.encode(ws[i]));
        assert codec.decode(codec.encode(ws[i])) == Some(ws[i]);
      } else {
        assert ps[i] == SseLaws.Payload(DONE);
      }
    }
  }

  // ------------------------------------------------------------------
  // What the frames say
  // ------------------------------------------------------------------

  lemma {:induction false} TextsOfText(model: string, pieces: seq<string>)
    ensures var fs := AsChunks(TextChunks(model, pieces));
            && Deltas(OaiLaws.Texts(fs)) == Concat(pieces)
            && CallsIn(OaiLaws.Texts(fs)) == []
            && OaiLaws.Fragments(fs) == []
  {
    if pieces != [] {
      var front, piece := pieces[..|pieces| - 1], pieces[|pieces| - 1];
      var fs := AsChunks(TextChunks(model, pieces));
      assert fs[..|fs| - 1] == AsChunks(TextChunks(model, front));
      TextsOfText(model, front);
      OneTextEvent(piece);
      FoldsAppend(OaiLaws.Texts(AsChunks(TextChunks(model, front))), OaiLaws.TextsOf(fs[|fs| - 1]));
    }
  }

  lemma OneTextEvent(piece: string)
    ensures Deltas([TextDelta(piece)]) == piece && CallsIn([TextDelta(piece)]) == []
  {
    assert [TextDelta(piece)][..0] == [];
  }

  lemma {:induction false} FragmentsOfCall(model: string, fragments: seq<WireCall>)
    ensures var fs := AsChunks(CallChunks(model, fragments));
            && OaiLaws.Texts(fs) == []
            && OaiLaws.Fragments(fs) == fragments
  {
    if fragments != [] {
      var front := fragments[..|fragments| - 1];
      var fs := AsChunks(CallChunks(model, fragments));
      assert fs[..|fs| - 1] == AsChunks(CallChunks(model, front));
      FragmentsOfCall(model, front);
      FrontLast(fragments);
    }
  }

  lemma {:induction false} TextsAppend(a: seq<OaiStream.Frame>, b: seq<OaiStream.Frame>)
    ensures OaiLaws.Texts(a + b) == OaiLaws.Texts(a) + OaiLaws.Texts(b)
    decreases |b|
  {
    if b == [] {
      AppendNil(a);
      AppendNil(OaiLaws.Texts(a));
    } else {
      var front, f := b[..|b| - 1], b[|b| - 1];
      FrontLast(b);
      Assoc(a, front, [f]);
      Snoc(a + front, f);
      TextsAppend(a, front);
      Assoc(OaiLaws.Texts(a), OaiLaws.Texts(front), OaiLaws.TextsOf(f));
    }
  }

  lemma {:induction false} FragmentsAppend(a: seq<OaiStream.Frame>, b: seq<OaiStream.Frame>)
    ensures OaiLaws.Fragments(a + b) == OaiLaws.Fragments(a) + OaiLaws.Fragments(b)
    decreases |b|
  {
    if b == [] {
      AppendNil(a);
      AppendNil(OaiLaws.Fragments(a));
    } else {
      var front, f := b[..|b| - 1], b[|b| - 1];
      FrontLast(b);
      Assoc(a, front, [f]);
      Snoc(a + front, f);
      FragmentsAppend(a, front);
      Assoc(OaiLaws.Fragments(a), OaiLaws.Fragments(front), if f.Chunk? then OaiStream.CallsIn(f.w) else []);
    }
  }

  lemma SilentFrame(f: OaiStream.Frame)
    requires f.Chunk? && OaiStream.TextIn(f.w) == "" && OaiStream.CallsIn(f.w) == []
    ensures OaiLaws.Texts([f]) == [] && OaiLaws.Fragments([f]) == []
  {
    assert [f][..0] == [];
  }

  lemma TranscriptFrames(t: Turn)
    requires t.fault.NoFault?
    ensures AsChunks(Transcript(t)) ==
            [OaiStream.Chunk(Opening(t.model))] + AsChunks(Middle(t)) +
            [OaiStream.Chunk(DeltaChunk(t.model, NO_MESSAGE, FinishReason(t)))] +
            [OaiStream.Chunk(UsageChunk(t.model, CountTokens(t.prompt), CountTokens(t.answer)))]
  {
  }

  /** The opening, finish and usage frames carry no text and no fragment. */
  lemma TranscriptFolds(t: Turn)
    requires t.fault.NoFault?
    ensures var fs, mid := AsChunks(Transcript(t)), AsChunks(Middle(t));
            && OaiLaws.Texts(fs) == OaiLaws.Texts(mid)
            && OaiLaws.Fragments(fs) == OaiLaws.Fragments(mid)
  {
    var mid := AsChunks(Middle(t));
    var a, b, c := OaiStream.Chunk(Opening(t.model)), OaiStream.Chunk(DeltaChunk(t.model, NO_MESSAGE, FinishReason(t))),
                   OaiStream.Chunk(UsageChunk(t.model, CountTokens(t.prompt), CountTokens(t.answer)));
    TranscriptFrames(t);
    SilentFrame(a);
    SilentFrame(b);
    SilentFrame(c);
    TextsAppend([a], mid);
    TextsAppend([a] + mid, [b]);
    TextsAppend([a] + mid + [b], [c]);
    FragmentsAppend([a], mid);
    FragmentsAppend([a] + mid, [b]);
    FragmentsAppend([a] + mid + [b], [c]);
    AppendNil(OaiLaws.Texts(mid));
    AppendNil(OaiLaws.Fragments(mid));
  }

  /** The finish frame and the usage frame decide the reason and the usage. */
  lemma TranscriptEnd(t: Turn)
    requires t.fault.NoFault?
    ensures var fs := AsChunks(Transcript(t));
            && OaiLaws.Plain(fs) && OaiLaws.HasFinish(fs)
            && OaiLaws.LastReason(fs) == MapFinishReason(FinishReason(t))
            && OaiLaws.LastUsage(fs) == Usage(CountTokens(t.prompt), CountTokens(t.answer), 0, 0)
  {
    var fs := AsChunks(Transcript(t));
    var n := |fs|;
    assert Transcript(t)[n - 1] == UsageChunk(t.model, CountTokens(t.prompt), CountTokens(t.answer));
    assert Transcript(t)[n - 2] == DeltaChunk(t.model, NO_MESSAGE, FinishReason(t));
    assert OaiLaws.Finishes(fs[n - 2]);
    assert fs[..n - 1][n - 2] == fs[n - 2];
    assert !OaiLaws.Finishes(fs[n - 1]);
  }

  lemma {:induction false} OneCallAssembled(call: SandboxCall, pieces: seq<string>)
    requires pieces != []
    ensures var fs := CallFragments(call, pieces);
            && OaiLaws.FirstSeen(fs) == [0]
            && OaiLaws.Assembled(OaiLaws.Only(fs, 0)) == OaiStream.PendingCall(call.id, call.name, Concat(pieces))
  {
    var n := |pieces| - 1;
    var fs := CallFragments(call, pieces);
    var front := pieces[..n];
    assert fs[..n] == CallFragments(call, front);
    if n > 0 {
      OneCallAssembled(call, front);
      OaiLaws.AssembledSnoc(OaiLaws.Only(fs[..n], 0), fs[n]);
    } else {
      assert fs[..0] == [];
      assert front == [];
      OaiLaws.AssembledSnoc([], fs[0]);
    }
  }

  /** What draining a streamed turn that is not cut short yields. */
  function DrainedEvents(t: Turn): seq<StreamEvent> {
    var mid := AsChunks(Middle(t));
    var fs := OaiLaws.Fragments(mid);
    OaiLaws.Texts(mid) + (OaiLaws.CallEvents(OaiLaws.FirstSeen(fs), fs) + [DoneOf(t)])
  }

  function TurnUsage(t: Turn): Usage {
    Usage(CountTokens(t.prompt), CountTokens(t.answer), 0, 0)
  }

  function DoneOf(t: Turn): (e: StreamEvent)
    ensures e.Done? && e.usage == Some(TurnUsage(t)) && e.reason != NoReason
    ensures t.call.Some? ==> e.reason == ToolUse
  {
    Done(Some(TurnUsage(t)), MapFinishReason(FinishReason(t)))
  }

  function DrainedBody(codec: Codec, t: Turn): Outcome {
    OaiStream.DrainBody(codec, SseLaws.Render(WirePieces(codec, t)), None)
  }

  lemma DrainedPlain(pre: seq<OaiStream.Frame>, mid: seq<OaiStream.Frame>, usage: Usage, reason: StopReason)
    requires OaiLaws.Plain(pre) && OaiLaws.HasFinish(pre)
    requires OaiLaws.Texts(pre) == OaiLaws.Texts(mid) && OaiLaws.Fragments(pre) == OaiLaws.Fragments(mid)
    requires OaiLaws.LastUsage(pre) == usage && OaiLaws.LastReason(pre) == reason != NoReason
    ensures var fs := OaiLaws.Fragments(mid);
            OaiStream.Drain(OaiStream.START, pre + [OaiStream.Sentinel], None) ==
            Outcome(OaiLaws.Texts(mid) +
                    (OaiLaws.CallEvents(OaiLaws.FirstSeen(fs), fs) + [Done(Some(usage), reason)]), None)
  {
    SentinelIsInert();
    OaiLaws.DrainWellFormed(pre, [OaiStream.Sentinel]);
  }

  lemma DrainedFrames(t: Turn)
    requires t.fault.NoFault?
    ensures OaiStream.Drain(OaiStream.START, AsChunks(Transcript(t)) + [OaiStream.Sentinel], None) ==
            Outcome(DrainedEvents(t), None)
  {
    TranscriptEnd(t);
    TranscriptFolds(t);
    DrainedPlain(AsChunks(Transcript(t)), AsChunks(Middle(t)), DoneOf(t).usage.value, DoneOf(t).reason);
  }

  lemma SentinelIsInert()
    ensures OaiLaws.Inert([OaiStream.Sentinel])
  {
  }

  lemma DrainedTurn(codec: Codec, t: Turn)
    requires Lawful(codec) && t.fault.NoFault?
    ensures DrainedBody(codec, t) == Outcome(DrainedEvents(t), None)
  {
    FramesReadBack(codec, t, false);
    DrainedFrames(t);
  }

  // ------------------------------------------------------------------
  // Streaming agrees with the reply in one piece
  // ------------------------------------------------------------------

  /** The reply to the same turn without streaming. */
  function WholeReply(t: Turn): WireResponse {
    var message :=
      match t.call
      case None => WireMessage("assistant", Plain(t.answer), [], "")
      case Some(c) => WireMessage("assistant", NoContent, [WireCall(c.id, None, c.name, c.args)], "");
    WireResponse(REPLY_ID, t.model, [Choice(message, NO_MESSAGE, FinishReason(t))],
                 WireUsage(CountTokens(t.prompt), WholeTokens(t), 0), None)
  }

  /** A turn that calls a tool counts the arguments, not the answer it would have given. */
  function WholeTokens(t: Turn): nat {
    CountTokens(if t.call.Some? then t.call.value.args else t.answer)
  }

  /** Part of a reply by name: its ID, and the turn's model. */
  predicate BearsName(w: WireResponse, model: string) {
    w.error.None? && w.id == "chatcmpl-sandbox-1" && w.model == model && |w.choices| <= 1
  }

  lemma MiddleIsNamed(t: Turn)
    ensures forall i :: 0 <= i < |Middle(t)| ==> BearsName(Middle(t)[i], t.model)
  {
    if t.call.Some? {
      var fragments := CallFragments(t.call.value, ArgumentChunks(t.call.value.args));
      assert forall i :: 0 <= i < |fragments| ==> BearsName(CallChunks(t.model, fragments)[i], t.model);
    }
  }

  /** Every frame but an error bears the reply's ID and the turn's model, and the assistant speaks. */
  lemma EveryFrameIsNamed(t: Turn, i: nat)
    requires i < |Transcript(t)|
    ensures BearsName(Transcript(t)[i], t.model) <==> !(t.fault.InBandError? && i == 2)
    ensures Transcript(t)[0].choices[0].delta.role == "assistant"
  {
    MiddleIsNamed(t);
    if t.fault.NoFault? {
      var n := |Middle(t)|;
      if 0 < i <= n {
        assert Transcript(t)[i] == Middle(t)[i - 1];
      } else if i > n {
        assert Transcript(t)[i] == if i == n + 1 then DeltaChunk(t.model, NO_MESSAGE, FinishReason(t))
                                   else UsageChunk(t.model, CountTokens(t.prompt), CountTokens(t.answer));
      }
    }
  }

  /** So does the reply in one piece. */
  lemma WholeReplyIsNamed(t: Turn)
    ensures BearsName(WholeReply(t), t.model) && |WholeReply(t).choices| == 1
    ensures WholeReply(t).choices[0].message.role == "assistant"
  {
  }

  /** The streamed turn as a caller collects it, and the same turn as a caller completes it. */
  function Streamed(codec: Codec, t: Turn, provider: string, model: string): Result<Response, StreamError> {
    Collected(DrainedBody(codec, t), provider, model)
  }

  function Completed(codec: Codec, t: Turn, provider: string, model: string)
    : Result<Response, OaiReplay.CompleteError>
  {
    OaiReplay.ResponseFrom(codec, codec.encode(WholeReply(t)), provider, model)
  }

  lemma TextTurnEvents(t: Turn)
    requires t.call.None?
    ensures var events := DrainedEvents(t);
            && Deltas(events) == Collapsed(t.answer) && CallsIn(events) == []
            && UsageIn(events) == DoneOf(t).usage.value && ReasonIn(events) == MapFinishReason(FinishReason(t))
  {
    TextsOfText(t.model, Chunks(t.answer));
    ChunksConcat(t.answer);
    AppendNil([DoneOf(t)]);
    DoneFolds(OaiLaws.Texts(AsChunks(Middle(t))), DoneOf(t).usage.value, DoneOf(t).reason);
  }

  lemma FinishReasonRead(t: Turn)
    ensures t.call.None? ==> DoneOf(t).reason == if t.truncated then MaxTokens else EndTurn
  {
  }

  lemma TextTurnAgrees(codec: Codec, t: Turn, provider: string, model: string)
    requires Lawful(codec) && t.fault.NoFault? && t.call.None?
    ensures var s, c := Streamed(codec, t, provider, model), Completed(codec, t, provider, model);
            && s.Ok? && c.Ok?
            && TextOf(c.value.message.parts) == t.answer
            && TextOf(s.value.message.parts) == Collapsed(t.answer)
            && CallsOf(s.value.message.parts) == CallsOf(c.value.message.parts) == []
            && s.value.stopReason == c.value.stopReason == (if t.truncated then MaxTokens else EndTurn)
            && s.value.usage == c.value.usage
  {
    DrainedTurn(codec, t);
    FinishReasonRead(t);
    TextTurnEvents(t);
    CollectedParts(DrainedBody(codec, t), provider, model);
    CompletedParts(codec, t, provider, model);
  }

  /** The call as the stream delivers it; one without a name is dropped. */
  function NamedCalls(call: SandboxCall): seq<ToolCall> {
    if call.name == "" then [] else [ToolCall(call.id, call.name, ArgumentsOrEmptyObject(call.args))]
  }

  function NamedEvents(call: SandboxCall): seq<StreamEvent> {
    if call.name == "" then [] else [CallEvent(Some(ToolCall(call.id, call.name, ArgumentsOrEmptyObject(call.args))))]
  }

  lemma CallTurnDrains(t: Turn)
    requires t.call.Some?
    ensures DrainedEvents(t) == NamedEvents(t.call.value) + [Done(Some(TurnUsage(t)), ToolUse)]
  {
    var call := t.call.value;
    var fs := CallFragments(call, ArgumentChunks(call.args));
    FragmentsOfCall(t.model, fs);
    ArgumentChunksConcat(call.args);
    OneCallAssembled(call, ArgumentChunks(call.args));
    OneCallEvent(fs, call);
    AppendNil(NamedEvents(call) + [DoneOf(t)]);
  }

  lemma OneCallEvent(fs: seq<WireCall>, call: SandboxCall)
    requires OaiLaws.Assembled(OaiLaws.Only(fs, 0)) == OaiStream.PendingCall(call.id, call.name, call.args)
    ensures OaiLaws.CallEvents([0], fs) == NamedEvents(call)
  {
    assert [0][1..] == [];
  }

  lemma NamedFolds(call: SandboxCall)
    ensures Deltas(NamedEvents(call)) == "" && CallsIn(NamedEvents(call)) == NamedCalls(call)
  {
    if call.name != "" {
      assert NamedEvents(call)[..0] == [];
    }
  }

  lemma CallTurnCollected(o: Outcome, call: SandboxCall, usage: Usage, provider: string, model: string)
    requires o.err == None && o.events == NamedEvents(call) + [Done(Some(usage), ToolUse)]
    ensures var s := Collected(o, provider, model);
            && s.Ok?
            && TextOf(s.value.message.parts) == "" && CallsOf(s.value.message.parts) == NamedCalls(call)
            && s.value.stopReason == ToolUse && s.value.usage == usage
  {
    NamedFolds(call);
    DoneFolds(NamedEvents(call), usage, ToolUse);
    CollectedParts(o, provider, model);
  }

  lemma CallTurnBody(codec: Codec, t: Turn)
    requires Lawful(codec) && t.fault.NoFault? && t.call.Some?
    ensures DrainedBody(codec, t).err == None
    ensures DrainedBody(codec, t).events == NamedEvents(t.call.value) + [Done(Some(TurnUsage(t)), ToolUse)]
  {
    DrainedTurn(codec, t);
    CallTurnDrains(t);
  }

  lemma CallTurnStreamed(codec: Codec, t: Turn, provider: string, model: string)
    requires Lawful(codec) && t.fault.NoFault? && t.call.Some?
    ensures var s := Streamed(codec, t, provider, model);
            && s.Ok?
            && TextOf(s.value.message.parts) == "" && CallsOf(s.value.message.parts) == NamedCalls(t.call.value)
            && s.value.stopReason == ToolUse && s.value.usage == TurnUsage(t)
  {
    CallTurnBody(codec, t);
    CallTurnCollected(DrainedBody(codec, t), t.call.value, TurnUsage(t), provider, model);
  }

  predicate Ascii(s: string) {
    forall i :: 0 <= i < |s| ==> s[i] < '\U{80}'
  }

  /** Arguments that can be cut anywhere: one byte to a character. */
  predicate Cuttable(t: Turn) {
    t.call.Some? ==> Ascii(t.call.value.args)
  }

  lemma CallTurnAgrees(codec: Codec, t: Turn, provider: string, model: string)
    requires Lawful(codec) && t.fault.NoFault? && t.call.Some? && Cuttable(t)
    ensures var s, c := Streamed(codec, t, provider, model), Completed(codec, t, provider, model);
            && s.Ok? && c.Ok?
            && TextOf(s.value.message.parts) == TextOf(c.value.message.parts) == ""
            && (CallsOf(s.value.message.parts) == CallsOf(c.value.message.parts) <==> t.call.value.name != "")
            && s.value.stopReason == c.value.stopReason == ToolUse
            && (s.value.usage == c.value.usage <==> CountTokens(t.answer) == CountTokens(t.call.value.args))
  {
    CallTurnStreamed(codec, t, provider, model);
    CompletedParts(codec, t, provider, model);
  }

  lemma CompletedParts(codec: Codec, t: Turn, provider: string, model: string)
    requires Lawful(codec)
    ensures var c := Completed(codec, t, provider, model);
            && c.Ok?
            && TextOf(c.value.message.parts) == (if t.call.Some? then "" else t.answer)
            && CallsOf(c.value.message.parts) ==
               (match t.call
                case None => []
                case Some(k) => [ToolCall(k.id, k.name, ArgumentsOrEmptyObject(k.args))])
            && c.value.stopReason == DoneOf(t).reason
            && c.value.usage == Usage(CountTokens(t.prompt), WholeTokens(t), 0, 0)
  {
    var w := WholeReply(t);
    assert codec.decode(codec.encode(w)) == Some(w);
    var m := w.choices[0].message;
    var text, calls := TextFromContent(m.content), OaiReplay.MappedCalls(m.calls);
    TextOfAppend(OaiReplay.TextPart(text), CallParts(calls));
    CallsOfAppend(OaiReplay.TextPart(text), CallParts(calls));
    CallsOfCalls(calls);
    if text != "" {
      OaiReplay.OneText(Text(text));
    }
  }

  /**
   For every turn that is not cut short, streaming and completing give the same stop reason and the
   same text once runs of white space are collapsed; and the same calls unless the call has no name,
   which only the stream drops.
   */
  lemma StreamAgreesWithComplete(codec: Codec, t: Turn, provider: string, model: string)
    requires Lawful(codec) && t.fault.NoFault? && Cuttable(t)
    ensures var s, c := Streamed(codec, t, provider, model), Completed(codec, t, provider, model);
            && s.Ok? && c.Ok?
            && TextOf(s.value.message.parts) == Collapsed(TextOf(c.value.message.parts))
            && (CallsOf(s.value.message.parts) == CallsOf(c.value.message.parts) <==>
                t.call.None? || t.call.value.name != "")
            && s.value.stopReason == c.value.stopReason
  {
    if t.call.None? {
      TextTurnAgrees(codec, t, provider, model);
    } else {
      CallTurnAgrees(codec, t, provider, model);
    }
  }

  /**
   For every turn the sandbox itself decides, from the tools a request declares, the streamed reply and
   the reply in one piece make the same calls.
   */
  lemma DecidedTurnAgrees(codec: Codec, t: Turn, declared: seq<string>, choice: string, forced: string,
                          provider: string, model: string)
    requires Lawful(codec) && t.fault.NoFault?
    requires t.call == Decided(t.prompt, ToolNames(declared), choice, forced)
    ensures var s, c := Streamed(codec, t, provider, model), Completed(codec, t, provider, model);
            && s.Ok? && c.Ok?
            && TextOf(s.value.message.parts) == Collapsed(TextOf(c.value.message.parts))
            && CallsOf(s.value.message.parts) == CallsOf(c.value.message.parts)
            && s.value.stopReason == c.value.stopReason
            && (s.value.usage == c.value.usage <==>
                t.call.None? || CountTokens(t.answer) == CountTokens(TOOL_CALL_ARGS))
  {
    if t.call.None? {
      TextTurnAgrees(codec, t, provider, model);
    } else {
      SentArgumentsAreAscii();
      CallTurnAgrees(codec, t, provider, model);
    }
  }

  lemma SentArgumentsAreAscii()
    ensures Ascii(TOOL_CALL_ARGS)
  {
  }

  /** After an opening and a text frame the decoder has seen no terminal signal. */
  lemma FaultDrain(model: string, rest: seq<OaiStream.Frame>)
    requires rest == [] || rest == [OaiStream.Failure(INJECTED_MESSAGE)]
    ensures var pre := [OaiStream.Chunk(Opening(model)), OaiStream.Chunk(TextChunk(model, "par"))];
            OaiStream.Drain(OaiStream.START, pre + rest, None).err ==
            Some(if rest == [] then Truncated else Server(INJECTED_MESSAGE))
  {
    var pre := [OaiStream.Chunk(Opening(model)), OaiStream.Chunk(TextChunk(model, "par"))];
    OaiLaws.DrainPlain(OaiStream.START, pre, rest, None);
    OaiLaws.AbsorbAllIs(pre);
    assert !OaiLaws.Finishes(pre[0]) && !OaiLaws.Finishes(pre[1]);
  }

  lemma FaultFrames(t: Turn)
    requires !t.fault.NoFault?
    ensures AsChunks(Transcript(t)) ==
            [OaiStream.Chunk(Opening(t.model)), OaiStream.Chunk(TextChunk(t.model, "par"))] +
            if t.fault.CutShort? then [] else [OaiStream.Failure(INJECTED_MESSAGE)]
  {
  }

  /** A stream that a fault cuts is never mistaken for a reply: the error says which fault it was. */
  lemma FaultsSurface(codec: Codec, t: Turn, provider: string, model: string)
    requires Lawful(codec) && !t.fault.NoFault?
    ensures Streamed(codec, t, provider, model) ==
            Err(if t.fault.CutShort? then Truncated else Server(INJECTED_MESSAGE))
  {
    FramesReadBack(codec, t, false);
    AppendNil(AsChunks(Transcript(t)));
    FaultFrames(t);
    FaultDrain(t.model, if t.fault.CutShort? then [] else [OaiStream.Failure(INJECTED_MESSAGE)]);
  }

}
