/** The OpenAI chat-completions wire types and the pure mappings over them. */
module OaiWire {
  import opened Bytes
  import opened Skyl
  import opened Wrappers

  /** An element of an array-form content field. */
  datatype Block = NotAnObject | Block(kind: Option<string>, text: Option<string>, imageUrl: Option<string>)

  /** The content field, whose shape hosts disagree about. */
  datatype Content = NoContent | Plain(s: string) | Blocks(blocks: seq<Block>) | OtherContent

  datatype WireCall = WireCall(id: string, index: Option<int>, name: string, arguments: string)

  datatype WireMessage = WireMessage(role: string, content: Content, calls: seq<WireCall>, callId: string)

  const NO_MESSAGE := WireMessage("", NoContent, [], "")

  datatype Choice = Choice(message: WireMessage, delta: WireMessage, finishReason: string)

  datatype WireUsage = WireUsage(prompt: int, completion: int, cached: int)

  const NO_WIRE_USAGE := WireUsage(0, 0, 0)

  datatype WireResponse = WireResponse(
    id: string,
    model: string,
    choices: seq<Choice>,
    usage: WireUsage,
    error: Option<string>)

  /** A JSON codec for response bodies, known only by its laws. */
  datatype Codec = Codec(encode: WireResponse -> Bytes, decode: Bytes -> Option<WireResponse>)

  /** Decoding undoes encoding, and a document is one non-empty line that is not the sentinel. */
  ghost predicate Lawful(codec: Codec) {
    forall w {:trigger codec.encode(w)} ::
      && codec.decode(codec.encode(w)) == Some(w)
      && OneLine(codec.encode(w))
      && codec.encode(w) != DONE
  }

  function MapFinishReason(s: string): (r: StopReason)
    ensures r != NoReason
  {
    if s == "stop" || s == "end_turn" then EndTurn
    else if s == "length" || s == "max_tokens" then MaxTokens
    else if s == "tool_calls" || s == "function_call" then ToolUse
    else if s == "content_filter" || s == "refusal" then Refusal
    else Unknown
  }

  function BlockText(b: Block): string {
    if b.NotAnObject? then ""
    else if b.kind.Some? && b.kind.value != "text" then ""
    else if b.text.Some? then b.text.value
    else ""
  }

  function BlocksText(blocks: seq<Block>): string {
    if blocks == [] then "" else BlocksText(blocks[..|blocks| - 1]) + BlockText(blocks[|blocks| - 1])
  }

  function TextFromContent(c: Content): string {
    match c
    case Plain(s) => s
    case Blocks(blocks) => BlocksText(blocks)
    case _ => ""
  }

  function ToolCallFromWire(w: WireCall): ToolCall {
    ToolCall(w.id, w.name, ArgumentsOrEmptyObject(w.arguments))
  }

  function UsageFromWire(u: WireUsage): Usage {
    Usage(u.prompt, u.completion, u.cached, 0)
  }
}
