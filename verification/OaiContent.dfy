/** What the array form of an OpenAI content field says, streamed and in one piece. */
module OaiContent {
  import opened Bytes
  import opened OaiWire
  import opened Seqs
  import opened Skyl
  import opened Wrappers
  import OaiLaws
  import OaiReplay
  import OaiStream

  // ------------------------------------------------------------------
  // Text in blocks
  // ------------------------------------------------------------------

  lemma {:induction false} BlocksTextAppend(a: seq<OaiWire.Block>, b: seq<OaiWire.Block>)
    ensures BlocksText(a + b) == BlocksText(a) + BlocksText(b)
    decreases |b|
  {
    if b == [] {
      AppendNil(a);
      AppendNil(BlocksText(a));
    } else {
      var front, last := b[..|b| - 1], b[|b| - 1];
      FrontLast(b);
      Assoc(a, front, [last]);
      Snoc(a + front, last);
      BlocksTextAppend(a, front);
      Assoc(BlocksText(a), BlocksText(front), BlockText(last));
    }
  }

  /** A content field read in two halves says what the halves say, in their order. */
  lemma ContentAppend(a: seq<OaiWire.Block>, b: seq<OaiWire.Block>)
    ensures TextFromContent(Blocks(a + b)) == TextFromContent(Blocks(a)) + TextFromContent(Blocks(b))
  {
    BlocksTextAppend(a, b);
  }

  /** A block that is no object, is of another kind than text, or has no text. */
  predicate SaysNothing(b: OaiWire.Block) {
    b.NotAnObject? || (b.kind.Some? && b.kind != Some("text")) || b.text.None?
  }

  /** The blocks hold exactly the given pieces of text, in order, with silent blocks anywhere between. */
  predicate Spells(blocks: seq<OaiWire.Block>, pieces: seq<string>)
    decreases |blocks|
  {
    if blocks == [] then pieces == []
    else if SaysNothing(blocks[0]) then Spells(blocks[1..], pieces)
    else pieces != [] && blocks[0].text == Some(pieces[0]) && Spells(blocks[1..], pieces[1..])
  }

  function Joined(pieces: seq<string>): string {
    if pieces == [] then "" else pieces[0] + Joined(pieces[1..])
  }

  lemma OneBlock(b: OaiWire.Block)
    ensures BlocksText([b]) == BlockText(b)
  {
    assert [b][..0] == [];
  }

  lemma {:induction false} BlocksSpell(blocks: seq<OaiWire.Block>, pieces: seq<string>)
    requires Spells(blocks, pieces)
    ensures TextFromContent(Blocks(blocks)) == Joined(pieces)
    decreases |blocks|
  {
    if blocks != [] {
      var b, rest := blocks[0], blocks[1..];
      Uncons(blocks);
      ContentAppend([b], rest);
      OneBlock(b);
      if SaysNothing(b) {
        BlocksSpell(rest, pieces);
      } else {
        BlocksSpell(rest, pieces[1..]);
      }
    }
  }

  /** A chunk whose first delta, or whose first message, has the given content. */
  function WithDelta(w: WireResponse, content: Content): WireResponse
    requires w.choices != []
  {
    var choice := w.choices[0];
    w.(choices := [choice.(delta := choice.delta.(content := content))] + w.choices[1..])
  }

  function WithMessage(w: WireResponse, content: Content): WireResponse
    requires w.choices != []
  {
    var choice := w.choices[0];
    w.(choices := [choice.(message := choice.message.(content := content))] + w.choices[1..])
  }

  lemma AbsorbSameButContent(d: OaiStream.State, w: WireResponse, a: Content, b: Content)
    requires w.choices != []
    ensures OaiStream.Absorb(d, WithDelta(w, a)) == OaiStream.Absorb(d, WithDelta(w, b))
  {
  }

  lemma DrainSameText(d: OaiStream.State, w: WireResponse, a: Content, b: Content,
                      rest: seq<OaiStream.Frame>, e: Option<StreamError>)
    requires w.choices != [] && TextFromContent(a) == TextFromContent(b)
    ensures OaiStream.Drain(d, [OaiStream.Chunk(WithDelta(w, a))] + rest, e) ==
            OaiStream.Drain(d, [OaiStream.Chunk(WithDelta(w, b))] + rest, e)
  {
    AbsorbSameButContent(d, w, a, b);
    assert ([OaiStream.Chunk(WithDelta(w, a))] + rest)[1..] == rest;
    assert ([OaiStream.Chunk(WithDelta(w, b))] + rest)[1..] == rest;
  }

  /** Text sent in blocks is streamed exactly as the same text sent as a plain string. */
  lemma BlocksStreamAsPlain(d: OaiStream.State, w: WireResponse, blocks: seq<OaiWire.Block>, pieces: seq<string>,
                            rest: seq<OaiStream.Frame>, e: Option<StreamError>)
    requires w.choices != [] && Spells(blocks, pieces)
    ensures OaiStream.TextIn(WithDelta(w, Blocks(blocks))) == Joined(pieces)
    ensures OaiStream.Drain(d, [OaiStream.Chunk(WithDelta(w, Blocks(blocks)))] + rest, e) ==
            OaiStream.Drain(d, [OaiStream.Chunk(WithDelta(w, Plain(Joined(pieces))))] + rest, e)
  {
    BlocksSpell(blocks, pieces);
    DrainSameText(d, w, Blocks(blocks), Plain(Joined(pieces)), rest, e);
  }

  /** And a reply in one piece maps to the same response. */
  lemma BlocksCompleteAsPlain(codec: Codec, a: Bytes, b: Bytes, w: WireResponse, blocks: seq<OaiWire.Block>,
                              pieces: seq<string>, provider: string, model: string)
    requires w.choices != [] && Spells(blocks, pieces)
    requires codec.decode(a) == Some(WithMessage(w, Blocks(blocks)))
    requires codec.decode(b) == Some(WithMessage(w, Plain(Joined(pieces))))
    ensures OaiReplay.PartsOf(WithMessage(w, Blocks(blocks)).choices[0].message) ==
            (if Joined(pieces) == "" then [] else [Text(Joined(pieces))]) +
            CallParts(OaiReplay.MappedCalls(w.choices[0].message.calls))
    ensures OaiReplay.ResponseFrom(codec, a, provider, model) == OaiReplay.ResponseFrom(codec, b, provider, model)
  {
    BlocksSpell(blocks, pieces);
  }

  // ------------------------------------------------------------------
  // Usage and finish reasons
  // ------------------------------------------------------------------

  predicate CountsTokens(f: OaiStream.Frame) {
    f.Chunk? && (f.w.usage.prompt > 0 || f.w.usage.completion > 0)
  }

  /** The last chunk that reports any tokens. */
  ghost predicate CountsLast(frames: seq<OaiStream.Frame>, k: nat) {
    k < |frames| && CountsTokens(frames[k]) && forall i :: k < i < |frames| ==> !CountsTokens(frames[i])
  }

  lemma {:induction false} LastUsageIs(frames: seq<OaiStream.Frame>, k: nat)
    requires CountsLast(frames, k)
    ensures var u := frames[k].w.usage;
            OaiLaws.LastUsage(frames) == Usage(u.prompt, u.completion, u.cached, 0)
    decreases |frames|
  {
    var n := |frames| - 1;
    if k < n {
      assert !CountsTokens(frames[n]);
      assert CountsLast(frames[..n], k);
      LastUsageIs(frames[..n], k);
    }
  }

  lemma {:induction false} NoUsageIs(frames: seq<OaiStream.Frame>)
    requires forall i :: 0 <= i < |frames| ==> !CountsTokens(frames[i])
    ensures OaiLaws.LastUsage(frames) == Usage(0, 0, 0, 0)
    decreases |frames|
  {
    if frames != [] {
      var n := |frames| - 1;
      assert !CountsTokens(frames[n]);
      NoUsageIs(frames[..n]);
    }
  }

  lemma WellFormedTells(pre: seq<OaiStream.Frame>, post: seq<OaiStream.Frame>, provider: string, model: string)
    requires OaiLaws.Plain(pre) && OaiLaws.Inert(post)
    requires post != [] ==> post[0].Sentinel?
    requires OaiLaws.HasFinish(pre) || post != []
    ensures TellsUsage(OaiStream.Drain(OaiStream.START, pre + post, None), provider, model, OaiLaws.LastUsage(pre))
  {
    OaiLaws.DrainWellFormed(pre, post);
    var fs := OaiLaws.Fragments(pre);
    var calls := OaiLaws.CallEvents(OaiLaws.FirstSeen(fs), fs);
    var reason := if OaiLaws.LastReason(pre) == NoReason then Unknown else OaiLaws.LastReason(pre);
    Assoc(OaiLaws.Texts(pre), calls, [Done(Some(OaiLaws.LastUsage(pre)), reason)]);
    DoneTells(OaiLaws.Texts(pre) + calls, OaiLaws.LastUsage(pre), reason, provider, model);
  }

  /**
   In wire numbers: the tokens a caller reads off a well-formed stream are the prompt, completion and
   cached counts of the last chunk that reports any, and zero when none does.
   */
  lemma StreamUsageIs(pre: seq<OaiStream.Frame>, post: seq<OaiStream.Frame>, provider: string, model: string)
    requires OaiLaws.Plain(pre) && OaiLaws.Inert(post)
    requires post != [] ==> post[0].Sentinel?
    requires OaiLaws.HasFinish(pre) || post != []
    ensures var o := OaiStream.Drain(OaiStream.START, pre + post, None);
            && (forall k: nat :: CountsLast(pre, k) ==>
                  var u := pre[k].w.usage;
                  TellsUsage(o, provider, model, Usage(u.prompt, u.completion, u.cached, 0)))
            && ((forall i :: 0 <= i < |pre| ==> !CountsTokens(pre[i])) ==>
                  TellsUsage(o, provider, model, Usage(0, 0, 0, 0)))
  {
    WellFormedTells(pre, post, provider, model);
    forall k: nat | CountsLast(pre, k)
      ensures var u := pre[k].w.usage;
              OaiLaws.LastUsage(pre) == Usage(u.prompt, u.completion, u.cached, 0)
    {
      LastUsageIs(pre, k);
    }
    if forall i :: 0 <= i < |pre| ==> !CountsTokens(pre[i]) {
      NoUsageIs(pre);
    }
  }

  /** A reply in one piece reports its own counts, and is named after the host's model if it says one. */
  lemma ReplyFieldsAre(codec: Codec, raw: Bytes, provider: string, model: string)
    requires OaiReplay.ResponseFrom(codec, raw, provider, model).Ok?
    ensures codec.decode(raw).Some?
    ensures var r, w := OaiReplay.ResponseFrom(codec, raw, provider, model).value, codec.decode(raw).value;
            && w.error == None && w.choices != []
            && r.usage.input == w.usage.prompt && r.usage.output == w.usage.completion
            && r.usage.cacheRead == w.usage.cached && r.usage.cacheWrite == 0
            && r.id == w.id && r.provider == provider && r.message.role == Assistant
            && r.model == (if w.model != "" then w.model else model)
            && ReadsAs(w.choices[0].message, r.message.parts)
  {
    PartsRead(codec.decode(raw).value.choices[0].message);
  }

  /** The parts hold the text of a wire message and its calls, each in order. */
  ghost predicate ReadsAs(m: WireMessage, parts: seq<Part>) {
    && TextOf(parts) == TextFromContent(m.content)
    && |CallsOf(parts)| == |m.calls|
    && forall i :: 0 <= i < |m.calls| ==> SameCall(m.calls[i], CallsOf(parts)[i])
  }

  predicate SameCall(wire: WireCall, call: ToolCall) {
    && call.id == wire.id && call.name == wire.name
    && call.arguments == (if wire.arguments == "" then "{}" else wire.arguments)
  }

  lemma PartsRead(m: WireMessage)
    ensures ReadsAs(m, OaiReplay.PartsOf(m))
  {
    var text, calls := TextFromContent(m.content), OaiReplay.MappedCalls(m.calls);
    TextOfAppend(OaiReplay.TextPart(text), CallParts(calls));
    CallsOfAppend(OaiReplay.TextPart(text), CallParts(calls));
    CallsOfCalls(calls);
    if text != "" {
      OaiReplay.OneText(Text(text));
    }
  }

  // ------------------------------------------------------------------
  // Finish reasons
  // ------------------------------------------------------------------

  /** The last chunk that gives a finish reason. */
  ghost predicate FinishesLast(frames: seq<OaiStream.Frame>, k: nat) {
    && k < |frames| && OaiLaws.Finishes(frames[k])
    && forall i :: k < i < |frames| ==> !OaiLaws.Finishes(frames[i])
  }

  lemma {:induction false} LastReasonIs(frames: seq<OaiStream.Frame>, k: nat)
    requires FinishesLast(frames, k)
    ensures OaiLaws.LastReason(frames) == MapFinishReason(frames[k].w.choices[0].finishReason)
    decreases |frames|
  {
    var n := |frames| - 1;
    if k < n {
      assert FinishesLast(frames[..n], k);
      LastReasonIs(frames[..n], k);
    }
  }

  lemma {:induction false} NoReasonIs(frames: seq<OaiStream.Frame>)
    requires forall i :: 0 <= i < |frames| ==> !OaiLaws.Finishes(frames[i])
    ensures OaiLaws.LastReason(frames) == NoReason
    decreases |frames|
  {
    if frames != [] {
      var n := |frames| - 1;
      assert !OaiLaws.Finishes(frames[n]);
      NoReasonIs(frames[..n]);
    }
  }

  /** A well-formed stream ends for the reason its last finishing chunk gives, or for none that is known. */
  lemma StreamReasonIs(pre: seq<OaiStream.Frame>, post: seq<OaiStream.Frame>, k: nat)
    requires OaiLaws.Plain(pre) && OaiLaws.Inert(post)
    requires post != [] ==> post[0].Sentinel?
    requires FinishesLast(pre, k) || (!OaiLaws.HasFinish(pre) && post != [])
    ensures var o := OaiStream.Drain(OaiStream.START, pre + post, None);
            && o.events != [] && o.events[|o.events| - 1].Done?
            && var reason := o.events[|o.events| - 1].reason;
               if OaiLaws.HasFinish(pre) then Means(pre[k].w.choices[0].finishReason, reason) else reason == Unknown
  {
    OaiLaws.DrainWellFormed(pre, post);
    if OaiLaws.HasFinish(pre) {
      LastReasonIs(pre, k);
      FinishReasons(pre[k].w.choices[0].finishReason);
    } else {
      NoReasonIs(pre);
    }
  }

  /** The finish reasons that hosts spell each stop reason with. */
  predicate Means(spelled: string, reason: StopReason) {
    match reason
    case EndTurn => spelled in {"stop", "end_turn"}
    case MaxTokens => spelled in {"length", "max_tokens"}
    case ToolUse => spelled in {"tool_calls", "function_call"}
    case Refusal => spelled in {"content_filter", "refusal"}
    case Unknown =>
      spelled !in {"stop", "end_turn", "length", "max_tokens", "tool_calls", "function_call",
                   "content_filter", "refusal"}
    case _ => false
  }

  lemma FinishReasons(s: string)
    ensures Means(s, MapFinishReason(s))
  {
  }

  /** The first choice says nothing at all: no text in its content and no call. */
  predicate Empty(w: WireResponse)
    requires w.choices != []
  {
    TextFromContent(w.choices[0].message.content) == "" && w.choices[0].message.calls == []
  }

  /**
   Exactly when a reply in one piece fails, and how: it does not parse, it carries the host's own error, it
   has no choice, or it was refused without a word. Any other reply is a response that ended as the host says.
   */
  lemma ReplyOutcomeIff(codec: Codec, raw: Bytes, provider: string, model: string)
    ensures var r := OaiReplay.ResponseFrom(codec, raw, provider, model);
            match codec.decode(raw)
            case None => r == Err(OaiReplay.Malformed)
            case Some(w) =>
              && (forall message :: w.error == Some(message) ==> r == Err(OaiReplay.Upstream(message)))
              && (w.error.None? && w.choices == [] ==> r == Err(OaiReplay.NoChoices))
              && (w.error.None? && w.choices != [] ==>
                    var spelled := w.choices[0].finishReason;
                    if spelled in {"content_filter", "refusal"} && Empty(w) then r == Err(OaiReplay.Declined(spelled))
                    else r.Ok? && Means(spelled, r.value.stopReason))
  {
    var decoded := codec.decode(raw);
    if decoded.Some? && decoded.value.error.None? && decoded.value.choices != [] {
      var choice := decoded.value.choices[0];
      FinishReasons(choice.finishReason);
      assert OaiReplay.PartsOf(choice.message) == [] <==> Empty(decoded.value);
    }
  }
}
