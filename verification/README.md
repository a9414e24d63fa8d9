# Verified model of skyl

skyl is a Go client library for large-language-model providers, with an HTTP gateway and a local
protocol sandbox. This project models its hardest logic in Dafny and proves what that logic promises.
`dafny verify dfyconfig.toml` checks everything.

## What is modelled

- **The streaming pipeline.** `Sse` is the event-stream reader (section 9.2.6 of the WHATWG HTML
  Living Standard, with the reader's own deviations), written as a class with the code's fields and
  proved against a specification over whole records; `SseLaws` states how that specification composes,
  and `SseStandard` compares it with the standard, written out. `OaiStream` and `GeminiStream` are the
  two stream decoders, again as classes: each call of `Next` is proved to remove one event from a ghost
  value, the outcome of draining everything still to come.
  `OaiLaws` and the second half of `GeminiStream` say what that outcome is, on well-formed and on
  arbitrary input; `OaiContent` says it in the terms of the wire: text in blocks, token counts, finish
  reasons; `OaiEnding` says when the terminal event is really the end. `Skyl` holds the shared
  vocabulary and `CollectStream`.
- **The gateway's stream handler and its heartbeat.** `Heartbeat` is a transition system of two threads
  that share a response writer through a mutex and two channels, writing byte by byte, with deferred
  calls as a stack; its invariants are inductive. `HeartbeatLaws` draws the conclusions for every
  interleaving: exclusion, silence after return, no deadlock, termination, and what a client decodes;
  `HeartbeatStops` says when each thread gives up.
- **The retry engine.** `Errors` is the tree of wrapped errors and its classification, `Backoff` the
  delay in 64-bit arithmetic, `Retry` the client with its options, hooks and three loops, `RetryLaws`
  what every run guarantees. A run is driven by a script that fixes what each attempt meets: reply,
  error, state of the context, random value, cut-short wait; the theorems are about every script.
  `Observed` is the wrapper that reports the end of a stream, around a stream with no contract assumed.
- **Message conversion.** `Base64` (section 4 of RFC 4648, read as Go's standard decoder reads it),
  `GatewayApi` for the gateway's wire format, `OaiReplay` and `GeminiWire` for replaying a turn,
  `OaiRequest` for what the host reads in a request.
- **The sandbox.** `Sandbox` splits and truncates replies, `SandboxStream` decides and writes a streamed turn,
  `SandboxLaws` closes the loop from writer to reader to decoder to collected message, `Schema` generates structured
  answers from schema graphs, which may be cyclic.

`Wrappers`, `Bytes` and `Seqs` are small shared vocabularies.

JSON is an abstract codec: a pair of functions such that decoding undoes encoding and encodings are
non-empty, hold no CR or LF and differ from the sentinel. Only the results about reading back what the
gateway or the sandbox wrote assume this; the decoders are proved for every codec. The provider, the
network, clocks, contexts and randomness are parameters.

## Where code and comments differ

The model follows the code.

- The event-stream reader departs from section 9.2.6 of the WHATWG HTML Living Standard, and from its own
  comment that bare event names are skipped (internal/sse/sse.go:66-68): a record with only an `event:`
  line is delivered, so is a last record without a blank line when the input ended cleanly, and leading
  empty `data:` lines add no line feed. `SseStandard.ConformsIff` says exactly when the two agree, for
  input without a byte order mark or a lone carriage return. Those two differ as well: a lone carriage
  return ends a line in the standard and is data here, where only trailing ones are trimmed, and a
  leading byte order mark is not dropped.
- The terminal event is described as the last one; the OpenAI decoder still reads frames after the
  sentinel that emits it. `OaiEnding.DoneIsLastIff` says exactly when no text or call follows it, and
  `OaiEnding.ErrorAfterDoneIff` exactly when an error does.
- `chunk` promises that its fragments concatenate to the reply; white space runs are collapsed
  (`Sandbox.CollapsedIsIdentityIff`).
- A provider's tool call without a name is dropped by the stream and kept by the reply in one piece
  (`OaiReplay.NamelessCall`).
- The Gemini stop reason looks for calls in the finishing chunk only.
- Authentication and malformed-request errors are described as never retried; that holds for classified
  failures, while the bare sentinels count as transport errors.
- `WithCause` is documented to return a copy; it changes its receiver (errors.go:87-98).
- The comment on the shift says it is capped before it overflows; a base above about 2^43 nanoseconds
  still overflows, sometimes to a small positive value.
- A provider hint is meant to lengthen the wait; with a cap below the ceiling it can shorten it
  (`Backoff.HintCanShortenIff`).

## Model

| member | source | states |
|---|---|---|
| Sse.Scanner.Scan | internal/sse/sse.go:63-69 | Each scan takes one line off the input, without its line feed and one carriage return, and is false at the end of the input. |
| Sse.Reader.constructor | internal/sse/sse.go:34-47 | A fresh reader still owes exactly the records the record-level specification finds in its whole input. |
| Sse.Reader.ReadField | internal/sse/sse.go:79-107 | One non-blank line moves name, data and the seen flag to the fold of the group with that line added. |
| Sse.Reader.ReadRecord | internal/sse/sse.go:57-121 | Reads lines to the end of a record or of the input: a finished record is the head of what the specification still owes. |
| Sse.Reader.Next | internal/sse/sse.go:52-122 | Iterating the reader is the record-level specification: true with the next record exactly when one is left, at least one line consumed each time, and false for good afterwards with the read error. |
| Sse.Iterate | internal/sse/sse.go:52-122 | Calling Next until it is false delivers exactly the records of the specification and leaves the read error. |
| SseStandard.ConformsIff | internal/sse/sse.go:52-122 | On input without a byte order mark or lone carriage returns the reader decodes what section 9.2.6 says exactly when every ended record agrees and no field follows the last blank line of a clean input. |
| SseStandard.EventsAgreeIff | internal/sse/sse.go:63-121 | The same for any list of lines: two separate readings of the groups coincide exactly when every ended group agrees and the rest carries no field or is not delivered. |
| SseStandard.RecordAgreesIff | internal/sse/sse.go:94-107 | A group means the same record to both exactly when it has no field, or has data that is one value or begins with one that is not empty. |
| SseStandard.LinesAgree | internal/sse/sse.go:63-79 | Both see the same lines when carriage returns only precede line feeds. |
| SseStandard.EventOnlyRecord | internal/sse/sse.go:95-98 | A record with a name and no data is delivered here and dispatches nothing in the standard. |
| SseStandard.UnterminatedRecord | internal/sse/sse.go:116-120 | A last record that no blank line ends is delivered here and discarded in the standard. |
| SseStandard.LeadingEmptyData | internal/sse/sse.go:99-104 | An empty data line before another is dropped here and adds a line feed in the standard. |
| SseStandard.LoneCarriageReturn | internal/sse/sse.go:69-79 | A carriage return alone is data here and ends a line in the standard. |
| SseStandard.ByteOrderMark | internal/sse/sse.go:86-107 | A byte order mark hides the first field here and is dropped in the standard. |
| SseLaws.LinesAppend | internal/sse/sse.go:52-65 | Splitting into lines distributes over concatenation after a line feed. |
| SseLaws.DecodeAppend | internal/sse/sse.go:52-122 | Decoding distributes over concatenation at a record boundary, whether or not the first part was read to a clean end. |
| SseLaws.DecodeConserves | internal/sse/sse.go:52-122 | Nothing is fabricated: name and data bytes over a run never exceed the input, records never exceed lines. |
| SseLaws.FrameDecodes | gateway/server.go:552-561 | The frame of a one-line payload decodes to exactly one unnamed record holding it, and ends at a boundary. |
| SseLaws.RenderDecodes | gateway/server.go:552-561 | Whole frames with keep-alive comments anywhere between them decode to exactly the payloads, in order, followed by what the rest decodes to. |
| Skyl.MessageText | message.go:107-136 | The two-pass buffer fill returns all the text parts concatenated. |
| Skyl.MessageCalls | message.go:139-147 | The loop returns every tool call in order. |
| Skyl.AddEvent | stream.go:117-135 | One event moves the running text, calls, reason and usage to the fold with it added. |
| Skyl.DrainStream | stream.go:110-135 | The loop folds every event still unread. |
| Skyl.CollectStream | stream.go:110-156 | Drains and closes the stream from wherever it is; the response folds the events still unread, and any error makes it fail. |
| Skyl.CollectedParts | stream.go:110-156 | The text and the calls of a collected message are those of the events. |
| Skyl.CollectedEnding | stream.go:131-155 | A collected response ends for the reason of the last terminal event that gives a known one; an unknown reason becomes tool use exactly when the stream has a call; the usage is that of the last terminal event that reports any. |
| Skyl.FoldsAppend | stream.go:110-156 | The text and call folds distribute over concatenated event lists. |
| OaiStream.Stream.constructor | internal/oai/oai.go:546-611 | A fresh stream owes what draining the decoded body yields. |
| OaiStream.Stream.Next | internal/oai/oai.go:613-691 | One call removes exactly one event from what the stream owes, or ends it with its error; a terminal event comes only after a signal and once; false stays false. |
| OaiStream.Iterate | internal/oai/oai.go:613-683 | Calling Next until it is false delivers every event the stream owes and leaves the error it ends with. |
| OaiStream.Stream.TakeRecord | internal/oai/oai.go:618-665 | Reading one record shortens the frames left and accounts for it in what is owed. |
| OaiStream.Stream.Conclude | internal/oai/oai.go:667-682 | At the end of the body: the read error, a truncation error, or the next flush. |
| OaiStream.Stream.HandleRecord | internal/oai/oai.go:619-664 | A record either leaves what is owed unchanged or makes Next return the event or the error it stands for. |
| OaiStream.Stream.AbsorbChunk | internal/oai/oai.go:638-664 | A chunk updates usage, reason, signal and call buffer, and yields its text delta if that is not empty. |
| OaiStream.Stream.AccumulateNext | internal/oai/oai.go:693-711 | A fragment extends the pending call of its index, appending the index when new. |
| OaiStream.Stream.FinishNext | internal/oai/oai.go:714-745 | Flushing pops the next named call, then the terminal event once, then nothing. |
| OaiStream.Stream.PopCall | internal/oai/oai.go:715-730 | Popping discards calls that never got a name and yields the first named one, with empty arguments as an empty object. |
| OaiStream.PushOrdered | internal/oai/oai.go:693-711 | Accumulating keeps the order free of duplicates and exactly the keys of the pending map. |
| OaiStream.PopOrdered | internal/oai/oai.go:714-730 | So does popping the first index. |
| OaiLaws.AccumulateIsAssembly | internal/oai/oai.go:693-711 | After any fragments the buffer holds, per index in order of first appearance, the last non-empty ID and name and all the arguments concatenated. |
| OaiLaws.DrainWellFormed | internal/oai/oai.go:613-745 | A frame list with a terminal signal and nothing content-bearing after the sentinel drains to the text deltas in order, one call per named index by first appearance, and one terminal event with the last usage and reason. |
| OaiLaws.DrainAborted | internal/oai/oai.go:628-682 | A stream cut short delivers the text before the cut and then its error: the host's own message, the read error, or truncation. |
| OaiLaws.BrokenBody | internal/oai/oai.go:613-672 | A body that breaks off before any sentinel or failure delivers its text and then the read error as it is. |
| OaiLaws.UnparsedIsSkipped | internal/oai/oai.go:619-636 | A record without data, or whose data does not parse, changes nothing wherever it stands in a stream. |
| OaiContent.ContentAppend | internal/oai/oai.go:350-375 | The text of an array of content blocks is that of its two halves, in their order, wherever it is cut. |
| OaiContent.BlocksStreamAsPlain | internal/oai/oai.go:350-375 | Pieces of text sent as blocks, with blocks that carry no text anywhere between, give the same delta and the same drain as the pieces joined in one plain string. |
| OaiContent.BlocksCompleteAsPlain | internal/oai/oai.go:350-375 | And in one piece the same parts and the same response. |
| OaiContent.StreamUsageIs | internal/oai/oai.go:638-644 | In wire numbers: the tokens of the terminal event and of the collected response are the prompt, completion and cached counts of the last chunk that reports any, and zero when none does. |
| OaiContent.StreamReasonIs | internal/oai/oai.go:325-340 | The terminal event's reason is the one the last finishing chunk spells, host by host, and unknown when only the sentinel ended the stream. |
| OaiContent.ReplyFieldsAre | internal/oai/oai.go:427-465 | A reply in one piece keeps its ID, counts, text and calls, in order, and the host's model name or else the one asked for. |
| OaiContent.ReplyOutcomeIff | internal/oai/oai.go:409-450 | Exactly when a reply in one piece fails and how: it does not parse, carries the host's error, has no choice, or was refused without a word; any other ended as the host spells. |
| OaiLaws.DrainSafety | internal/oai/oai.go:613-745 | On any input at most one terminal event, none before a signal, and no error only if exactly one came out. |
| OaiLaws.DrainSucceedsIff | internal/oai/oai.go:613-745 | Without failures a drain succeeds exactly when a terminal signal arrived. |
| OaiEnding.DoneIsLastIff | internal/oai/oai.go:613-745 | From the start, on any frames and read error: the terminal event is the last event exactly when a sentinel that finds no named call waiting emits it and no text or flushed call comes out of the frames after it, or no sentinel does and the input ends cleanly after a signal. |
| OaiEnding.ErrorAfterDoneIff | internal/oai/oai.go:618-670 | An error follows the terminal event exactly when such a sentinel emits it and the frames after it run into a failure or the read error before a second such sentinel, which stops the stream. |
| OaiEnding.OneSentinelIff | internal/oai/oai.go:618-626 | With one sentinel: exactly when a call named before it keeps the terminal event back to the end, or nothing comes out afterwards. |
| OaiEnding.OneSentinelErrorIff | internal/oai/oai.go:618-670 | With one sentinel a read error follows the terminal event exactly when no call was named before it. |
| OaiEnding.TakeIsFinish | internal/oai/oai.go:714-745 | One flush takes exactly the first named call of the backlog, or finds none, empties the buffer and emits the terminal event or stops. |
| OaiEnding.TextAfterDone | internal/oai/oai.go:618-626 | A concrete stream whose text comes out after the terminal event. |
| OaiEnding.ErrorAfterDone | internal/oai/oai.go:667-670 | A concrete stream whose read error follows it. |
| OaiLaws.InterleavingIrrelevant | internal/oai/oai.go:693-730 | Reordering fragments while keeping each index's own order leaves every assembled call unchanged and only permutes the emitted calls. |
| OaiLaws.InterleavedStreams | internal/oai/oai.go:613-745 | Two well-formed streams that interleave their calls differently drain to the same text, the same calls in some order, and the same terminal event. |
| OaiReplay.Complete | internal/oai/oai.go:409-465 | A reply body maps to a response or to one of the four failures, in the code's order. |
| OaiReplay.NamelessCall | internal/oai/oai.go:720-722 | A concrete call without a name: a stream drops it, a reply in one piece keeps it. |
| OaiReplay.ConvertMessage | internal/oai/oai.go:231-318 | Each role converts as specified, or fails at the first part it cannot express. |
| OaiReplay.ConvertPart | internal/oai/oai.go:261-300 | What one part adds to the text, the blocks and the calls of a turn. |
| OaiReplay.ConvertParts | internal/oai/oai.go:253-300 | The loop over a turn adds up its parts, or stops at the first it cannot express. |
| OaiReplay.ConvertTurn | internal/oai/oai.go:253-313 | A turn becomes one wire message: blocks when it has images, else its text, else nothing when it has calls. |
| OaiReplay.ConvertResults | internal/oai/oai.go:231-251 | A tool turn becomes one wire message per result. |
| OaiRequest.ConvertsIff | internal/oai/oai.go:231-318 | A message converts exactly when its role is known and may send every part, else the first part it may not send is named; and every message it becomes is spoken by its own role. |
| OaiRequest.UserTurnReadsBack | internal/oai/oai.go:253-313 | A user turn says its texts in order; with an image it shows every part in its place, and an image without a URL gives back its media type and bytes. |
| OaiRequest.ToolTurnReadsBack | internal/oai/oai.go:233-251 | A tool turn gives one message per result, in order, under its own call ID, with errors marked. |
| OaiRequest.AssistantTurnReadsBack | internal/oai/oai.go:253-313 | An assistant turn carries its text and its calls in order, and no content exactly when it is nothing but calls. |
| OaiRequest.DataUrlReadsBack | internal/oai/oai.go:269-273 | Whatever the media type and the bytes, the data URL gives both back. |
| OaiReplay.ReplayIsNormalForm | internal/oai/oai.go:231-318 | An assistant turn converts exactly when it holds text and calls only, and reads back as its normal form. |
| OaiReplay.NormalFormFixesIff | internal/oai/oai.go:253-318 | A turn is replayed unchanged exactly when it is already one optional text followed by calls with arguments. |
| OaiReplay.NormalFormIdempotent | internal/oai/oai.go:253-318 | Normalising twice is normalising once. |
| OaiReplay.ResponseSurvivesReplay | internal/oai/oai.go:427-434 | Whatever the response mapping produced is unchanged by converting it and reading it back. |
| GeminiWire.PartsFromCandidate | provider/gemini/gemini.go:337-360 | The loop yields the text and call parts in order and whether there was a call. |
| GeminiWire.ConvertMessage | provider/gemini/gemini.go:256-315 | Every part is converted in place, or the first that cannot be is reported. |
| GeminiWire.TurnReadsBack | provider/gemini/gemini.go:256-315 | Each converted part carries its part and nothing else, an image's bytes read back from their base64. |
| GeminiWire.HasCallsIff | provider/gemini/gemini.go:337-360 | The call flag says exactly whether the mapped parts hold a call. |
| GeminiWire.ReplayIsIdentityIff | provider/gemini/gemini.go:256-360 | A turn is read back unchanged exactly when every part of it is replayable. |
| GeminiWire.ResponseSurvivesReplay | provider/gemini/gemini.go:256-360 | The pair is the identity on parts it produced. |
| GeminiStream.Stream.constructor | provider/gemini/gemini.go:535-581 | A fresh stream owes what draining the decoded body yields. |
| GeminiStream.Stream.Next | provider/gemini/gemini.go:583-672 | One call removes exactly one event from what the stream owes, or ends it with its error; false stays false. |
| GeminiStream.Iterate | provider/gemini/gemini.go:583-672 | Calling Next until it is false delivers every event the stream owes and leaves the error it ends with. |
| GeminiStream.Stream.TakeRecord | provider/gemini/gemini.go:593-644 | Reading one record shortens the frames left and accounts for it in what is owed. |
| GeminiStream.Stream.HandleRecord | provider/gemini/gemini.go:594-643 | A record either leaves what is owed unchanged or makes Next return the event or the error it stands for. |
| GeminiStream.Stream.AbsorbChunk | provider/gemini/gemini.go:607-637 | A chunk updates usage, reason and signal, and queues its parts in order. |
| GeminiStream.Stream.Conclude | provider/gemini/gemini.go:646-671 | At the end of the body: the read error, a truncation error, the terminal event once, or nothing more. |
| GeminiStream.DrainIs | provider/gemini/gemini.go:583-672 | On any input: all the parts before the first failure, flattened in order, then one ending. |
| GeminiStream.DoneIsLast | provider/gemini/gemini.go:583-672 | The terminal event comes at most once and last, exactly when there is no error, exactly when the body finished cleanly. |
| GeminiStream.StreamUsageIs | provider/gemini/gemini.go:607-613 | In wire numbers: the tokens of the terminal event and of the collected response are the prompt, candidates and cached counts of the last chunk that reports any, and zero when none does. |
| GeminiStream.StreamReasonIs | provider/gemini/gemini.go:321-335 | A finished stream ends with tool use when its last finishing chunk has a call, else for the reason that chunk spells. |
| GeminiStream.HostErrorEnds | provider/gemini/gemini.go:603-606 | The host's own error ends the stream with its message, after everything before it and whatever follows. |
| GeminiStream.BrokenBody | provider/gemini/gemini.go:583-650 | A body that breaks off before any failure delivers all its parts and then the read error as it is. |
| GeminiStream.UnparsedIsSkipped | provider/gemini/gemini.go:593-602 | A record without data, or whose data does not parse, changes nothing wherever it stands. |
| GeminiStream.SplitReply | provider/gemini/gemini.go:583-672 | However a finished reply is split, collecting gives the text and calls of the reply in one piece; the stop reason agrees exactly when there are no calls, or the last finishing chunk has one, or its reason is unknown to the mapping. |
| GeminiStream.LateFinishDisagrees | provider/gemini/gemini.go:619-623 | A concrete split whose stop reason disagrees. |
| Heartbeat.MoveKeepsSafety | gateway/server.go:439-490 | Every move of either thread keeps lock, deferred calls and channels consistent. |
| Heartbeat.MoveKeepsBytes | gateway/server.go:468-489 | Every move keeps the untainted output equal to whole frames followed by the part of the frame being written. |
| Heartbeat.MoveKeepsProgress | gateway/server.go:444-490 | Every move keeps what was pulled, written and failed in step with the upstream script. |
| Heartbeat.MoveKeepsLog | gateway/server.go:444-490 | Every move keeps the whole frames in step with the payloads delivered so far. |
| Heartbeat.MoveKeepsInv | gateway/server.go:402-490 | The conjunction of the four is inductive. |
| HeartbeatLaws.RunKeepsInv | gateway/server.go:402-490 | It holds in every state of every run. |
| HeartbeatLaws.MutualExclusion | gateway/server.go:468-489 | In every state of every interleaving at most one thread writes, and it holds the mutex. |
| HeartbeatLaws.WaitingNeverHolds | gateway/server.go:660-663 | While the handler waits for the goroutine it does not hold the mutex. |
| HeartbeatLaws.ReturnedIsAlone | gateway/server.go:616-664 | Once the handler has returned, by whichever exit, the goroutine is gone, the mutex free and the stream closed. |
| HeartbeatLaws.QuietAfterReturn | gateway/server.go:616-664 | From then on no byte is ever written. |
| HeartbeatLaws.NoDeadlock | gateway/server.go:402-490 | In every reachable unfinished state some thread can move. |
| HeartbeatLaws.Terminates | gateway/server.go:402-490 | Without ticks the threads make at most a computed number of moves, and when none is left the handler has returned. |
| HeartbeatLaws.CanReturn | gateway/server.go:402-490 | From every reachable state the threads alone can bring the handler to return. |
| HeartbeatLaws.SwappedDefersEmbraceIff | gateway/server.go:479-489 | Were the stop deferred after the unlock, a handler about to take the free mutex on its error path could end up waiting for a goroutine that waits for that mutex, exactly when the goroutine is there and has not begun to leave. |
| HeartbeatLaws.EmbraceIsForever | gateway/server.go:660-663 | Nothing either thread can do ends that state. |
| HeartbeatLaws.OutputDecodes | gateway/server.go:468-476 | At any moment the output begins with whole frames that decode to exactly the payloads delivered, wherever keep-alives sit. |
| HeartbeatLaws.ReturnedOutputIsWholeStream | gateway/server.go:444-490 | With no failed write the client decodes the events up to the first that does not marshal, and the error, if any, when all do. |
| HeartbeatLaws.BrokenConnectionSeesWholeEvents | internal/sse/sse.go:110-121 | A connection cut inside a frame shows the reader exactly the payloads delivered whole. |
| HeartbeatStops.FailedWriteStopsHandler | gateway/server.go:468-489 | After a failed write, an event that does not marshal, the end of the stream or the error frame, the handler pulls nothing more, never takes the mutex to write and writes no byte, in every interleaving. |
| HeartbeatStops.HandlerQuitsIff | gateway/server.go:444-490 | In every run the handler is on its way out exactly from the first of those moves on; nothing the goroutine meets makes it leave. |
| HeartbeatStops.FailedBeatStops | gateway/server.go:642-650 | After a failed keep-alive, or once it saw a closed channel, the goroutine writes no byte more. |
| HeartbeatStops.BeatQuitsIff | gateway/server.go:631-652 | In every run the goroutine is on its way out exactly from the first of those moves on. |
| HeartbeatStops.BeatCanStopIff | gateway/server.go:634-638 | The goroutine can leave of itself exactly while it is between ticks and the handler has run the stop function or the request's context has ended. |
| HeartbeatStops.BeatRound | gateway/server.go:639-648 | A tick that meets a free mutex and a sound connection can put one whole keep-alive on the wire, and change nothing else. |
| HeartbeatStops.HandlerRound | gateway/server.go:444-476 | An event pulled under the same conditions can go out as one whole frame. |
| Base64.DecodeEncode | gateway/api.go:325-371 | Standard base64 decoding undoes encoding, and only nothing encodes to nothing. |
| Base64.DecodesIff | gateway/api.go:325-329 | A string decodes exactly when, line breaks aside, it is whole quanta of the alphabet with at most two pads at the very end. |
| Base64.DecodedLength | gateway/api.go:325-329 | Four symbols then give three bytes, and a pad is a byte less. |
| Base64.DecodesToNothingIff | gateway/api.go:321-329 | A string decodes to no bytes exactly when it holds line breaks only. |
| Base64.TestVectors | gateway/api.go:366-371 | The test vectors of section 10 of RFC 4648. |
| GatewayApi.ToSkylMessage | gateway/api.go:280-306 | Roles, the text shorthand and the parts convert in order, or the first failing part is reported. |
| GatewayApi.MessageAcceptedIff | gateway/api.go:280-358 | A wire message is taken exactly when its role is known, it gives not both shorthand and parts, and every part has what its kind needs; the role is the one named; a rejection names the message, the first part to blame and the fault. |
| GatewayApi.ShorthandIsOneTextPart | gateway/api.go:291-293 | The text shorthand means the same as one text part. |
| GatewayApi.FromSkylMessage | gateway/api.go:361-385 | Every part is rendered in order; parts of no known kind are skipped. |
| GatewayApi.NilPartIsSkipped | gateway/api.go:361-385 | A part of no known kind is skipped wherever it stands, and keeps no other from its place. |
| GatewayApi.MessageRoundTrip | gateway/api.go:280-385 | A valid message comes back unchanged exactly when no image carries both data and URL; otherwise only those URLs are lost. |
| GatewayApi.UrlIsLost | gateway/api.go:321-331 | A concrete image whose URL does not survive. |
| GatewayApi.AcceptedIsValidIff | request.go:240-272 | An accepted part passes validation unless it is an image whose non-empty data decodes to nothing. |
| GatewayApi.NewlineImageIsInvalid | gateway/api.go:317-331 | A concrete accepted part that validation refuses. |
| Sandbox.Chunk | internal/sandbox/sandbox.go:223-243 | The slicing loop yields the fragments of the specification. |
| Sandbox.ArgChunks | internal/sandbox/tools.go:109-125 | The loop cuts the arguments, in whatever units, in three, or leaves fewer than three units whole. |
| Sandbox.ChunksConcat | internal/sandbox/sandbox.go:223-243 | Fragments are one to seven runes and concatenate to the reply with white space runs collapsed. |
| Sandbox.ArgumentChunksConcat | internal/sandbox/tools.go:109-125 | Argument fragments concatenate to the arguments and are never none. |
| Sandbox.CollapsedKeepsWords | internal/sandbox/sandbox.go:204-243 | Collapsing keeps the words and the token count, and is idempotent. |
| Sandbox.CollapsedIsIdentityIff | internal/sandbox/sandbox.go:221-243 | The streamed text is the reply itself exactly when that is single spaced. |
| Sandbox.DoubleSpaceIsLost | internal/sandbox/sandbox.go:221-243 | A concrete reply that is not streamed as it is. |
| Sandbox.TruncateKeepsPrefix | internal/sandbox/sandbox.go:188-197 | Truncation reports itself exactly when words were dropped; it then keeps a prefix of them, single spaced, and else the answer as it is. |
| Sandbox.TokensAreWordStarts | internal/sandbox/sandbox.go:204-210 | A text counts one token for each place where a word begins, and at least one. |
| SandboxStream.DeclaredNames | internal/sandbox/openai.go:82-90 | The loop keeps the declared names that are not empty, in order. |
| SandboxStream.ToolNamesSkipsEmpty | internal/sandbox/openai.go:82-90 | Names that are not empty stay as they are, and an empty one makes no difference wherever it stands. |
| SandboxStream.DecideToolCall | internal/sandbox/tools.go:60-92 | The loops decide as specified: the forced tool if declared, else, when required or prompted, the first whose name holds the trigger word in any case, or the first. |
| SandboxStream.DecidedIs | internal/sandbox/tools.go:60-89 | A call is made exactly when a tool is declared and not forbidden and the forced one is declared or, with none forced, one is required or the prompt asks; it is the forced tool's, or that of the first name with the trigger, or the first. |
| SandboxStream.MentionsIff | internal/sandbox/tools.go:77-85 | A text holds the trigger exactly when some stretch of it is the trigger, each letter in either case. |
| SandboxStream.Sink.Send | internal/sandbox/openai.go:283-291 | One encoded payload goes out as one frame. |
| SandboxStream.Sink.SendTurn | internal/sandbox/openai.go:307-365 | A turn without a fault goes out as its opening, its fragments, the finish reason and the usage. |
| SandboxStream.Sink.OaiStream | internal/sandbox/openai.go:280-367 | The stream writer appends exactly the frames of the turn, and the sentinel unless a fault cut it. |
| SandboxLaws.FramesReadBack | internal/sandbox/openai.go:280-367 | The event-stream reader and the frame classifier give back every frame the writer encoded. |
| SandboxLaws.DrainedTurn | internal/sandbox/openai.go:280-367 | Decoding a streamed turn yields its text fragments or its one call, then one terminal event. |
| SandboxLaws.TextTurnAgrees | internal/sandbox/openai.go:240-367 | A text turn streamed equals the same turn completed up to collapsed white space, usage included. |
| SandboxLaws.CallTurnAgrees | internal/sandbox/openai.go:240-367 | A tool turn with ASCII arguments has the same calls exactly when the call has a name, the same stop reason, and the same usage exactly when the two token counts coincide. |
| SandboxLaws.StreamAgreesWithComplete | internal/sandbox/openai.go:240-367 | For every turn that is not cut and whose arguments are ASCII, streaming, reading, decoding and collecting agrees with the reply in one piece. |
| SandboxLaws.DecidedTurnAgrees | internal/sandbox/openai.go:204-367 | For every turn the sandbox itself decides from declared tools text, calls and stop reason agree without further condition, and usage exactly when it is a text turn or the token counts coincide. |
| SandboxLaws.FaultsSurface | internal/sandbox/openai.go:309-323 | A cut stream ends in the error of its fault, never in a reply. |
| SandboxLaws.EveryFrameIsNamed | internal/sandbox/openai.go:240-323 | Every frame but an error bears the reply's ID and the turn's model, and the assistant speaks. |
| SandboxLaws.WholeReplyIsNamed | internal/sandbox/openai.go:257-277 | So does the reply in one piece, which has one choice. |
| Errors.WrappingIsTransparent | skyl.go:289-290 | Wrapping an error changes no sentinel test, no retry decision and no hint. |
| Errors.FailureIs | errors.go:133-144 | A failure answers a test through its kind or its cause. |
| Errors.JoinedIsIff | errors.go:133-144 | An error around several answers a test exactly when one of them does. |
| Errors.PreorderHolds | errors.go:133-144 | The searches visit exactly the errors that an error holds by unwrapping, at any depth. |
| Errors.NeverRetried | retry.go:50-64 | Nothing that holds a cancellation, an expired deadline or any of the three rejected-certificate errors, at any depth, is retried. |
| Errors.HintIs | retry.go:130-137 | The hint of an error is that of the foremost failure in its tree, and none without one. |
| Errors.ClassifiedRetryIff | retry.go:47-75 | A classified failure is retried exactly when it is a rate limit or server error without a cancellation, deadline or rejected certificate inside. |
| Errors.Report.WithCause | errors.go:87-98 | The cause is attached to the receiver itself, which is returned. |
| Errors.CausedRetryIff | retry.go:47-75 | A failure with a cause is retried exactly when its kind and status allow it and the cause is no cancellation, deadline or rejected certificate. |
| Errors.UnclassifiedRetryIff | retry.go:64-75 | Without a classified failure in the tree every sentinel is retried, authentication included. |
| Backoff.Delay | retry.go:88-128 | The stepwise computation gives the specified delay, and panics exactly where the draw's bound overflows. |
| Backoff.CeilingIff | retry.go:102-111 | The ceiling is min(base * 2^n, max) exactly when the product fits 64 bits or its truncation is replaced by the guard. |
| Backoff.NeverOverflowsIff | retry.go:102-111 | No attempt overflows exactly when the base is at most 2^63 / 2^20. |
| Backoff.HugeBaseWraps | retry.go:108-111 | A concrete base whose ceiling wraps to about a millisecond. |
| Backoff.CeilingBelowExponential | retry.go:102-111 | Wrapped or not, the ceiling never exceeds base * 2^n. |
| Backoff.DelayBounds | retry.go:113-128 | A delay lies between min(hint, cap) and max(maximum, cap), and below the ceiling without a hint. |
| Backoff.FullJitter | retry.go:113-116 | Without a hint exactly the delays from 0 to the ceiling can come out. |
| Backoff.HintCanShortenIff | retry.go:113-126 | A hint can shorten the wait exactly when its cap is below the ceiling and more than one below the hint. |
| Backoff.MinuteHintShortens | retry.go:118-126 | A concrete policy under which a hint of a minute shortens the wait. |
| Backoff.PanicsIff | retry.go:113 | The draw panics only with the largest representable maximum. |
| Retry.Client.constructor | skyl.go:211-233 | A client's policy is the last acceptable value of each option, or the default, and one hook log per hook given. |
| Retry.Client.Apply | skyl.go:151-209 | Each option changes only its own field, and only for an acceptable value. |
| Retry.Client.Emit | skyl.go:411-416 | Every hook is told the event once. |
| Retry.OptionsKeepGuard | skyl.go:151-209 | No option list can produce a policy field backoff would have to default. |
| Retry.Client.Pause | skyl.go:250-255 | Before a further attempt: the delay chosen, and how the call ends if the draw panics or the wait is cut. |
| Retry.Client.CompleteOnce | skyl.go:257-277 | One attempt reaches the provider once and tells every hook its event, usage included when there is a reply. |
| Retry.Client.StreamOnce | skyl.go:315-329 | The same for a handshake, which reports no usage. |
| Retry.Client.ModelsOnce | skyl.go:374-385 | The same for a listing. |
| Retry.Client.Complete | skyl.go:243-291 | The loop is the specified trip: same calls, waits, ending and events; a rejected request makes no call. |
| Retry.Client.Stream | skyl.go:301-358 | The same for the streaming handshake. |
| Retry.Client.Models | skyl.go:364-401 | The same for the listing, which also stops on an unsupported operation. |
| RetryLaws.CallsIff | skyl.go:243-291 | The number of calls is one to retries plus one, and is n exactly when attempt n is the first that does not go on. |
| RetryLaws.EventsTellTheCall | skyl.go:243-401 | For any of the three loops: one event per attempt numbered from 0; all but the last carry an error worth retrying; the last has none exactly on success, which returns that attempt's reply. |
| RetryLaws.EveryOperationReports | skyl.go:257-385 | Completions, handshakes and listings all report the number and the error of the attempt. |
| RetryLaws.CompletionReports | skyl.go:263-277 | What the hooks hear of a completion: its reply's usage, ID, model and stop reason, or none of them. |
| RetryLaws.OtherReports | skyl.go:315-385 | Handshakes and listings are reported as what they are, without any field of a reply. |
| RetryLaws.FailureAnswersAsTheLast | skyl.go:279-290 | A failed call answers every sentinel test as its last error does, or as the context's when the wait was cut. |
| RetryLaws.GivesUpEarlyOnlyFor | skyl.go:284-290 | A call stops short of its budget only for a hopeless error, a finished context or a cut wait. |
| RetryLaws.CutWaitTellsWhy | skyl.go:250-254 | A call whose wait was cut short answers as cancelled or as expired, whichever its context was, and is not retried. |
| RetryLaws.NeverPanics | retry.go:113 | With a maximum below the largest duration no run panics. |
| RetryLaws.TotalWaitBounded | skyl.go:249-256 | All the waits of a run together are at most retries * max(maximum, cap). |
| RetryLaws.TotalWaitWithoutHints | skyl.go:249-256 | Without hints they are at most base * (2^retries - 1). |
| RetryLaws.HintIsHeeded | skyl.go:249-256 | After an error that holds a failure with a hint, the wait chosen is at least the hint up to its cap, and exactly that when the hint exceeds the maximum delay. |
| RetryLaws.WrappedHintIsHeeded | skyl.go:249-256 | So a failure's own hint is heeded under any number of wrappers. |
| RetryLaws.DefaultClient | retry.go:14-27 | A client without options makes at most four attempts and waits at most 3.5 seconds without hints, a quarter of an hour with them. |
| RetryLaws.ListingGuardIff | skyl.go:392-396 | For a classified failure the listing's own guard decides exactly when the failure is worth retrying and its cause holds the unsupported sentinel; it also decides for the bare sentinel. |
| Observed.ObservedStream.Next | observedstream.go:62-88 | Next answers as the inner stream, and tells the hooks when the terminal event first passes. |
| Observed.ObservedStream.Close | observedstream.go:98-102 | Close answers as the inner stream, and tells the hooks if nothing has yet. |
| Observed.ObservedStream.Emit | observedstream.go:105-123 | Tells the hooks once and latches. |
| Observed.Use | observedstream.go:62-123 | Any one operation on the wrapper answers as the inner stream would. |
| Observed.Open | skyl.go:301-358 | The handshake runs as specified; its stream is wrapped exactly when there are hooks. |
| Observed.Consume | observedstream.go:62-123 | Over any sequence of operations the consumer sees exactly the inner stream's answers. |
| Observed.FiresOnce | observedstream.go:62-123 | One stream_end at most, decided by the first Close or terminal event: completed exactly when it was the latter, with its usage or none. |
| Observed.SomeoneEndsIff | observedstream.go:78-102 | It fires exactly when a terminal event passes or Close is called. |
| Schema.Generate | internal/sandbox/structured.go:47-106 | The recursive generator terminates on every graph with the specified answer, in whatever order properties are filled. |
| Schema.FillObject | internal/sandbox/structured.go:62-82 | An object gets exactly the declared properties, each generated one level deeper. |
| Schema.StatedIsAnswered | internal/sandbox/structured.go:52-59 | A schema that states its value gets it: the constant, else the first of its choices; otherwise nothing is copied. |
| Schema.ObjectIsAnswered | internal/sandbox/structured.go:61-82 | A schema with properties is an object even if it declares no type: exactly the properties listed, each answered one level deeper, and none when the list is not an object. |
| Schema.ArrayIsAnswered | internal/sandbox/structured.go:84-91 | An array has one element, answered one level deeper. |
| Schema.ScalarIsAnswered | internal/sandbox/structured.go:93-105 | Scalars are answered by their type, and a schema that says nothing with a string. |
| Schema.NestingBounded | internal/sandbox/structured.go:42-50 | Answers nest at most nine levels, on cyclic schemas too. |
| Schema.AllowedIff | internal/sandbox/structured.go:108-128 | An answer built for a schema is of an allowed type exactly when the type is one the generator knows. |
| Schema.ConformsIff | internal/sandbox/structured.go:47-128 | Where no const or enum is reached the answer conforms exactly when every type reached is known and the schema fits the depth limit. |
| Schema.NineLevelsConform | internal/sandbox/structured.go:42-106 | Schemas of at most nine levels with known types and no const or enum get a conforming answer. |
| Schema.CyclicSchemaIsCutOff | internal/sandbox/structured.go:42-50 | An array of itself is cut off with an answer that does not conform. |
| Schema.NullListIsUnknown | internal/sandbox/structured.go:108-128 | A type list holding only null is answered with a string. |

## Left out

- HTTP transport, TLS, timeouts, request building and the size limit of the line scanner: input is a
  byte sequence and an optional read error.
- JSON text: parsing and printing are the abstract codec, and an unparseable frame is one of its cases.
- `StreamEvent.Raw` and `Response.Raw`: copies of the frame bytes that nothing decides on.
- `Close` of the two decoders: it only closes the body.
- The Anthropic adapter: its accumulator lives in an SDK that is not part of this model.
- `buildPayload`, `buildParams`, `toSkylRequest` beyond its messages, `toChatResponse`: field copying.
- `Request.Validate` beyond its messages: the client takes the verdict as a parameter.
- Error message texts, provider names and bodies; durations in hook events; the request they carry.
- `reply`, `lastToolResult` and `replyToToolResult`: the sandbox's answer is a parameter of the turn.
- Status tables, `ParseRetryAfter`, routing, authentication, throttling, configuration and telemetry.
- Gemini model paging and the Anthropic and Gemini sandbox handlers.
- SandboxLaws.CallTurnAgrees: asks for ASCII arguments, because the code cuts them at bytes and marshals
  each piece, which corrupts a rune cut in two; the sandbox sends no others.
- SandboxLaws.StreamAgreesWithComplete: asks for ASCII arguments for the same reason.
- SseStandard.ConformsIff: gives no exact condition for input with a byte order mark or a lone carriage
  return, where lines themselves differ; it shows one family of each.
- HeartbeatLaws.Terminates: counts moves between ticks; how often the ticker fires is not modelled.
- Observed.Open: a provider that answers a handshake with neither stream nor error yields no handle.
- Schema.Generate: fills properties in any order where the code sorts the names; the value is the same.
