/** Bytes and the byte constants of the event-stream format. */
module Bytes {
  newtype byte = x: int | 0 <= x < 0x100

  type Bytes = seq<byte>

  const LF: byte := 10
  const CR: byte := 13
  const SPACE: byte := 32
  const COLON: byte := 58

  // "event", "data" and "data: ".
  const EVENT: Bytes := [101, 118, 101, 110, 116]
  const DATA: Bytes := [100, 97, 116, 97]
  const DATA_PREFIX: Bytes := DATA + [COLON, SPACE]

  // "[DONE]", the sentinel that ends an OpenAI stream.
  const DONE: Bytes := [91, 68, 79, 78, 69, 93]

  // ": keep-alive" followed by a blank line.
  const KEEP_ALIVE_COMMENT: Bytes := [COLON, SPACE, 107, 101, 101, 112, 45, 97, 108, 105, 118, 101]
  const KEEP_ALIVE: Bytes := KEEP_ALIVE_COMMENT + [LF, LF]

  /** A payload that fits on one line: what a JSON encoder produces. */
  predicate OneLine(p: Bytes) {
    p != [] && LF !in p && CR !in p
  }

  /** One event on the wire, as the gateway and the sandbox both write it. */
  function Frame(payload: Bytes): Bytes {
    DATA_PREFIX + payload + [LF, LF]
  }
}
