# A verified model of kiro-trust

kiro-trust answers Anthropic's Messages API from a Kiro upstream. This project models the parts of it in which
errors hide, in Dafny 4.11, and proves what they promise over every input, every run and every interleaving.
`dafny verify dfyconfig.toml` checks all of it.

Code that changes state is modelled as classes with the same fields, whose methods are proved to do what
functions on values specify; the theorems are about those functions, and say what they mean without their help: in
the names, codes and constants of the program. The files, from the wire to the client:

- `BigEndian`, `Headers`, `EventStream`, `FrameDecoder`: event stream framing and its incremental decoder. `WireFormat`
  says where each byte is, `Utf8` and `Unicode` which bytes are text.
- `Events`, `EventParser`, `ToolCalls`: events of frames, and the reassembly of tool calls from fragments. `EventCodec`
  and `EventFrames` say, with the names on the wire, what a frame means, and that what is sent is what is read.
- `TagSplitter`, `StopFilter`, `Emitter`: the three parts of the response translator that hold text back or
  follow a grammar. `Translator` puts them together, `ResponseTranslator` is the object. `TranslatorGrammar`,
  `TranslatorFold`, `TranslatorLimits`, `TranslatorText`, `TranslatorEnds`, `TranslatorDeltas`, `TranslatorCuts`,
  `TranslatorUsage`, `TranslatorMessage` and `Dedupe` hold its theorems.
- `Pumping`, `Pipeline`, `Failures`, `Delivery`, `Priming`, `Response`, `Replay`, `Pump`: bytes to client events,
  priming, the body of a streamed response, the folded response, the replay of a request.
- `TokenProtocol`, `TokenSafety`, `TokenRecord`, `TokenSource`: the credential cycle as a state machine over any
  number of callers, its safety in every run, what its record shows, and the object whose calls are runs of it.
- `Content`, `Normalize`, `Reorder`, `History`, `Answers`, `Wording`, `Spoken`, `Conversation`, `Pieces`: from a request's
  messages to the conversation sent upstream. `Schema`, `SchemaSanitizer`, `SchemaMeaning`, `SchemaTwice`, `SchemaCalm`,
  `SchemaSettled`: tool schemas.
- `UsageLedger`, `UsageLaws`, `UsageSummary`: usage counters. `Scrub`, `ScrubPieces`: scrubbing of messages.

How the model speaks of the program:

- Text is a sequence of characters, and lengths the program takes in bytes are computed from them. Framing, header
  names and scrubbing are on bytes, with well-formed UTF-8 as in table 3-7 of the Unicode Standard.
- CRC-32, JSON text in and out, base64 lengths, shortened tool names and fresh ids are functions given as
  parameters, about which nothing is assumed but, where it is stated, that a fresh id is not empty. The n-th id
  drawn is the n-th value of its function.
- JSON objects keep their fields in insertion order, as the program's JSON library is configured to do.
- The upstream connection is a list of byte chunks that may end in an error. Timers are parameters: the read at
  which the priming deadline fires, and for every poll whether the keep-alive fires first.
- Concurrency is modelled by steps: one step of a caller is one atomic action, and between any two steps any
  other caller or the environment may act. Seeds are identified by their expiry, as in the program. The exchange is
  the refresh grant of section 6 of RFC 6749.

Where the program and its comments disagree, and where its behaviour may surprise, the model follows the code:

- The comment at `crates/kiro-trust-protocol/src/translate/response.rs:618-621` says that nothing is flushed after
  a local stop. That holds for a stop by budget. After a stop sequence it fails exactly when
  `TranslatorEnds.ThinkingAfterStopIff` says; `TranslatorEnds.ThinkingAfterStop` is a run in which it does.
- Stop sequences are tried in list order, not by position, so what the stop filter cuts may depend on how upstream
  cuts its text: `StopFilter.ChunkingIndependentIff` gives the exact condition for the filter alone,
  `StopFilter.TwoSequencesDiffer` a case.
- The token budget may be exceeded by the call that ends the message, and by no other: by text behind thinking
  in one delta, by text before a stop sequence, and by content that is never cut. `TranslatorEnds.RunExceedsIff` and
  `TranslatorEnds.PushExceedsIff` say exactly when, `TranslatorEnds.ThinkingThenText` and
  `TranslatorEnds.TextBeforeStop` are cases.
- One delta shows its thinking before its text, and all of its text up to a stop sequence. So text, thinking and
  stop of a message may depend on how upstream cuts its text: past the budget without stop sequences
  (`TranslatorCuts.TwoCutsDiffer`), near the budget with them (`TranslatorCuts.BudgetOrSequence`), and with one stop
  sequence and any budget (`TranslatorCuts.ThinkingBehindSequence`). `TranslatorCuts.CuttingIndependentIff` gives the
  exact condition for every budget and all stop sequences.
- A tool call without an id can come out of the parser (`ToolCalls.EmptyIdIff`), and a fragment over the cap takes
  the complete call before it down as well (`ToolCalls.RefusalLosesBoth`).
- Tool results in messages of unknown role are sent even when they answer nothing: `Answers.ResultsAnsweredIff`
  and `Answers.StrayIsSent`.
- Sanitising a schema twice may differ from sanitising it once: `SchemaSettled.SettledTwiceIff` gives the exact
  condition, `SchemaSettled.ConstChangesTwice` a case.
- Capping scrubbed text may leave twelve digits of a longer run: `Scrub.CappedIsCleanIff`.

## Model

| member | source | states |
|---|---|---|
| `Pumping.ChunkingIndependent` | crates/kiro-trust/src/server/pump.rs:127-218 | any two ways to cut the same upstream bytes into chunks, ending cleanly or with the same transport error, give the same client events in the same order and the same final state, outcome and drawn ids included |
| `Pumping.DrainAppend` | crates/kiro-trust/src/server/pump.rs:184-218 | decoding, parsing and translating more bytes at once is doing so for the first ones and then feeding the rest, whatever ends the reading in between |
| `Pipeline.BytesToMessage` | crates/kiro-trust/src/server/pump.rs:127-218 | for any bytes, chunks and ending: the message is ended exactly when nothing failed; then the client got the translation of all upstream events and the end, otherwise that of the events before the failure |
| `Pipeline.ClientSeesOneMessage` | crates/kiro-trust/src/server/pump.rs:127-218 | whatever arrives, the client's events follow the stream grammar, and they are a complete message if and only if neither upstream, transport, framing nor parsing failed |
| `Failures.WhyItFails` | crates/kiro-trust/src/server/pump.rs:127-218 | for any bytes, chunks and ending: a failure is recorded exactly when an event reports it; otherwise, unless a stop came first, the stream breaks by the first frame that is refused or malformed, else by the fault of the transport, else by the bytes left over at a clean end, of which it says how many; the frames counted are those read |
| `Pipeline.DrainTranslates` | crates/kiro-trust/src/server/pump.rs:184-218 | the loop that stops at the first failure or stop gives what the translator makes of the events of all complete frames |
| `PumpClass.Pump.Next` | crates/kiro-trust/src/server/pump.rs:127-218 | one call does exactly one step of the pipeline, surfaces recorded failures first, and changes nothing when it is cancelled at its only wait |
| `PumpClass.Pump.PushEvents` | crates/kiro-trust/src/server/pump.rs:205-215 | leaving the loop early at a failure or stop equals pushing all events of the frame |
| `PumpClass.Pump.DrainFrames` | crates/kiro-trust/src/server/pump.rs:184-218 | the loop over complete frames equals the recursive draining, and terminates because every frame takes bytes |
| `PumpClass.Pump.AtEnd` | crates/kiro-trust/src/server/pump.rs:147-158 | a clean end flushes the call in flight and ends the message; bytes left over are a truncation error instead |
| `PumpClass.Pump.Prime` | crates/kiro-trust/src/server/pump.rs:223-285 | priming answers what its specification says for every point at which the deadline may fire, which no longer counts once output has started |
| `Delivery.PrimeStreaming` | crates/kiro-trust/src/server/pump.rs:223-285 | priming a stream neither loses nor repeats an event; an HTTP error is answered only when there was no event at all or the deadline passed before any output |
| `Delivery.PrimeFolded` | crates/kiro-trust/src/server/pump.rs:223-285 | priming a folded response reads to the end: it never hands over early and reports exactly the failure of the whole stream |
| `Priming.TimesOutIff` | crates/kiro-trust/src/server/pump.rs:223-241 | streamed or not, priming answers with the timeout if and only if after as many reads as there is patience nothing has halted and no output has started, and then no event had been translated; otherwise its answer is that of every larger patience |
| `Delivery.PlayIsWhole` | crates/kiro-trust/src/server/pump.rs:127-218 | calling `next` until upstream has nothing left gives the pipeline run over all chunks |
| `Delivery.RunDelivers` | crates/kiro-trust/src/server/messages.rs:444-556 | each poll of the body delivers the front of what is due and the finishing poll settles the usage mark |
| `PumpClass.StreamBody.Poll` | crates/kiro-trust/src/server/messages.rs:444-556 | one poll of the unfolded body is one step of the delivery machine; a keep-alive changes no state |
| `Response.StreamedOnce` | crates/kiro-trust/src/server/messages.rs:420-556 | under any keep-alive timing, deferred failure and number of polls, the client got a prefix of all that is due, each event once in order; a finished body delivered all of it; completion is recorded exactly when it finished and nothing failed, otherwise the failure that stopped it |
| `Response.OneTerminal` | crates/kiro-trust/src/server/messages.rs:444-556 | what is due holds exactly one terminal and it is last: a message stop when nothing failed, otherwise one error event that names what failed |
| `Response.Finishes` | crates/kiro-trust/src/server/messages.rs:444-556 | the body finishes after as many polls without a keep-alive as there are reads left, one for the end and one for buffered events |
| `Response.FoldedWhole` | crates/kiro-trust/src/server/messages.rs:337-395 | a folded answer is given only when nothing failed, from the state after all upstream events and the end |
| `Response.SameAnswer` | crates/kiro-trust/src/server/messages.rs:319-395 | the same bytes answered folded and streamed, each cut and timed in its own way, read the same and end with the same stop reason and usage |
| `Replay.PostMessages` | crates/kiro-trust/src/server/messages.rs:243-335 | the request loop posts a second time exactly when the first stream primes to a retryable invalid state, never a third |
| `Replay.NothingIsTakenBack` | crates/kiro-trust/src/server/messages.rs:274-318 | a stream that is answered with an error or replayed had produced no event, unless it ran out of time before any output |
| `Replay.ReplayedOnce` | crates/kiro-trust/src/server/messages.rs:274-290 | a replay follows only an attempt that failed in a retryable invalid state, and when it is streamed without a single event |
| `Replay.AnswerSays` | crates/kiro-trust/src/server/messages.rs:274-335 | by all that the bytes of an attempt give: a folded message only when nothing failed and then whole, a stream that is due everything, or an error that names what failed, and for a stream with an event only when time ran out |
| `Replay.ReplaysIff` | crates/kiro-trust/src/server/messages.rs:97-99 | a request is posted again if and only if priming failed with an invalid state for one of three reasons |
| `EventStream.DecodeEncode` | crates/kiro-trust-protocol/src/eventstream.rs:107-160 | every frame within the header and frame limits decodes from its encoding to itself and takes exactly its own bytes, whatever follows |
| `EventStream.EncodeDecode` | crates/kiro-trust-protocol/src/eventstream.rs:107-160 | re-encoding any accepted frame gives exactly the bytes that were consumed, at least 16 |
| `EventStream.AcceptedIff` | crates/kiro-trust-protocol/src/eventstream.rs:107-160 | a frame is accepted if and only if the bytes start with the encoding of a frame within the limits |
| `EventStream.PrefixStable` | crates/kiro-trust-protocol/src/eventstream.rs:107-160 | a frame or an error that was decided stays what it is when more bytes arrive |
| `EventStream.PartialWaits` | crates/kiro-trust-protocol/src/eventstream.rs:107-141 | an incomplete frame is waited for and never misread |
| `EventStream.FramesOfEncoded` | crates/kiro-trust-protocol/src/eventstream.rs:107-160 | frames sent back to back are recovered with nothing left over |
| `EventStream.EncodedFrames` | crates/kiro-trust-protocol/src/eventstream.rs:107-160 | the encodings of the decoded frames and the bytes left over are all the bytes received |
| `EventStream.BuildFrame` | crates/kiro-trust-protocol/src/eventstream.rs:261-273 | appending part by part gives the sealed frame, lengths truncated to 32 bits |
| `Headers.PushHeader` | crates/kiro-trust-protocol/src/eventstream.rs:218-259 | appending a header field by field gives its encoding for every value kind, lengths truncated to their fields |
| `Headers.ParseHeaders` | crates/kiro-trust-protocol/src/eventstream.rs:163-213 | the loop over the shrinking slice gives all headers or the offset of the first malformed one |
| `Headers.ParseEncoded` | crates/kiro-trust-protocol/src/eventstream.rs:163-259 | every header list that fits its length fields parses back from its encoding to itself |
| `Headers.EncodeParsed` | crates/kiro-trust-protocol/src/eventstream.rs:163-259 | every header block that parses is the encoding of what was parsed |
| `WireFormat.HeaderLayout` | crates/kiro-trust-protocol/src/eventstream.rs:218-259 | an encoded header is the length of its name, the name, the type code 0 to 9 of its value, and the value: integers in their width and two's complement, the most significant byte first, bytes and strings behind a length of two bytes |
| `WireFormat.SignedInOrder` | crates/kiro-trust-protocol/src/eventstream.rs:226-252 | every integer that fits, negative ones too, is sent in two's complement with the most significant byte first |
| `WireFormat.FrameLayout` | crates/kiro-trust-protocol/src/eventstream.rs:261-273 | an encoded frame is its length, the length of its headers, the checksum of these eight bytes, headers, payload, and the checksum of all before it, each at its place |
| `WireFormat.PreludeVerdict` | crates/kiro-trust-protocol/src/eventstream.rs:107-141 | by the three numbers in front of a frame it is refused for their checksum, for being below 16 bytes or above 4 MiB, or for headers that overrun it or 128 KiB, in this order and with these values in the error, or it is waited for |
| `WireFormat.FrameVerdict` | crates/kiro-trust-protocol/src/eventstream.rs:141-160 | a frame that is all there is refused for its checksum first, with both values, then for a malformed header, with its offset; otherwise it is the headers and the payload between |
| `WireFormat.MalformedAt` | crates/kiro-trust-protocol/src/eventstream.rs:163-213 | the offset that is reported is where well-formed headers end and no header that can be sent follows |
| `Unicode.ValidIff` | crates/kiro-trust-protocol/src/eventstream.rs:177-204 | bytes are taken for a string if and only if they are the UTF-8 encoding of Unicode scalar values |
| `Unicode.BoundaryIff` | crates/kiro-trust-protocol/src/sanitize.rs:57-66 | a character boundary is exactly where some of the scalar values end |
| `Unicode.BytesAreEncoded` | crates/kiro-trust-protocol/src/eventstream.rs:461-476 | the length of a string in bytes is the length of its encoding |
| `FrameDecoderClass.FrameDecoder.Push` | crates/kiro-trust-protocol/src/eventstream.rs:88-94 | the visible bytes are the unconsumed suffix of all pushed bytes; the buffer stays within twice what was pending plus the chunk; draining moves fewer bytes in all than were consumed |
| `FrameDecoderClass.FrameDecoder.NextFrame` | crates/kiro-trust-protocol/src/eventstream.rs:107-160 | the decoder answers as the frame codec does on the pending bytes and consumes exactly the frame |
| `FrameDecoderClass.FrameDecoder.Finish` | crates/kiro-trust-protocol/src/eventstream.rs:96-105 | the end is clean if and only if nothing is pending, otherwise the number of pending bytes is reported |
| `EventParserClass.EventParser.Parse` | crates/kiro-trust-protocol/src/eventstream.rs:363-434 | a frame gives its events or error by message type, event type and payload; broken tool, metadata and metering payloads are skipped |
| `EventCodec.ParseCarries` | crates/kiro-trust-protocol/src/eventstream.rs:363-434 | an event frame whose payload is JSON gives an event if and only if its type and the fields of its payload, by their names on the wire, carry that event: content; text, signature and redacted content; each of the five counts of metadata and the two of metering; reason and message |
| `EventCodec.ParseFragment` | crates/kiro-trust-protocol/src/eventstream.rs:437-480 | a tool use frame is one more fragment of a call, with the id, name, input and stop that its payload holds under their names on the wire |
| `EventCodec.ParseException` | crates/kiro-trust-protocol/src/eventstream.rs:369-375 | an exception frame gives one exception, with the type of its header and the message of its payload, and with empty ones for what is missing or no JSON |
| `EventCodec.ParseOthers` | crates/kiro-trust-protocol/src/eventstream.rs:376-434 | without an event type there is no event, an unknown type is reported as ignored, and a payload that is no JSON is an error for three types and skipped for the other three |
| `EventFrames.EncodeEventFrame` | crates/kiro-trust-protocol/src/eventstream.rs:275-293 | the three headers pushed one after the other and the payload make the encoding of the event frame |
| `EventFrames.EncodeExceptionFrame` | crates/kiro-trust-protocol/src/eventstream.rs:295-313 | the same for an exception frame |
| `EventFrames.EventArrives` | crates/kiro-trust-protocol/src/eventstream.rs:275-434 | whatever event a payload carries, the bytes of its frame, followed by anything, are decoded to that frame and parsed to just that event |
| `EventFrames.ExceptionArrives` | crates/kiro-trust-protocol/src/eventstream.rs:295-375 | the bytes of an exception frame are decoded and parsed to the exception with its type and message |
| `EventParserClass.EventParser.ToolUse` | crates/kiro-trust-protocol/src/eventstream.rs:437-480 | one tool fragment changes the accumulator and emits as specified, in every combination of id, name, input and stop |
| `ToolCalls.Reassembly` | crates/kiro-trust-protocol/src/eventstream.rs:437-501 | unless a call goes over the cap, the calls handed out are the groups of fragments: each once, in opening order, with the last name and the last whole input followed by the later text |
| `ToolCalls.RunGroups` | crates/kiro-trust-protocol/src/eventstream.rs:437-480 | a run of fragments is accepted if and only if no fragment takes its call over the cap |
| `ToolCalls.GroupsPartition` | crates/kiro-trust-protocol/src/eventstream.rs:437-480 | every fragment belongs to exactly one group and the order is kept |
| `ToolCalls.GroupsProper` | crates/kiro-trust-protocol/src/eventstream.rs:441-478 | fragments go to the call they name, and every call that was opened is handed out once |
| `ToolCalls.InputMeaning` | crates/kiro-trust-protocol/src/eventstream.rs:460-475 | the input of a call is the last object's serialisation among its fragments, no fragment after which is an object, followed by the later strings |
| `ToolCalls.InputSnoc` | crates/kiro-trust-protocol/src/eventstream.rs:460-475 | appending fragment by fragment, as the parser does, accumulates exactly that input |
| `ToolCalls.HandedOutSmall` | crates/kiro-trust-protocol/src/eventstream.rs:460-491 | no call that is handed out has more than 16 MiB of input |
| `ToolCalls.EmptyIdIff` | crates/kiro-trust-protocol/src/eventstream.rs:441-478 | a call without an id comes out exactly when a fragment with neither id nor name stops while nothing is in flight |
| `ToolCalls.RefusalLosesBoth` | crates/kiro-trust-protocol/src/eventstream.rs:449-491 | a fragment that opens another call is refused exactly when its own input is over the cap, and then the complete call before it is lost as well |
| `ResponseTranslatorClass.ResponseTranslator.Push` | crates/kiro-trust-protocol/src/translate/response.rs:442-609 | one upstream event changes all fields and emits as the specification says, for every kind of event |
| `ResponseTranslatorClass.ResponseTranslator.Finish` | crates/kiro-trust-protocol/src/translate/response.rs:611-651 | ending flushes what is held back, closes the open block and ends the message; a second call does nothing |
| `ResponseTranslatorClass.ResponseTranslator.ParseTags` | crates/kiro-trust-protocol/src/translate/response.rs:261-295 | the loop over the buffer gives text, thinking and the held-back end of one delta, the fast path included |
| `ResponseTranslatorClass.ResponseTranslator.ApplyStopFilter` | crates/kiro-trust-protocol/src/translate/response.rs:235-259 | the stop filter updates its held-back text and latches as specified |
| `ResponseTranslatorClass.ResponseTranslator.ApplyMaxTokens` | crates/kiro-trust-protocol/src/translate/response.rs:202-222 | the budget cuts, counts and latches as specified |
| `TranslatorGrammar.RunIsOneMessage` | crates/kiro-trust-protocol/src/translate/response.rs:317-389 | in every run the client sees one message start, blocks that never overlap with their own deltas, and after the end one message delta and one message stop, last, with no open block |
| `TranslatorGrammar.PushSteps` | crates/kiro-trust-protocol/src/translate/response.rs:442-609 | each call keeps to the grammar, and a latched stop has ended the message when the call returns |
| `TranslatorGrammar.NothingAfterTheEnd` | crates/kiro-trust-protocol/src/translate/response.rs:443-447 | after the end every push and every further finish returns nothing |
| `TranslatorGrammar.AcceptedIndices` | crates/kiro-trust-protocol/src/translate/response.rs:344-364 | block indices are 0, 1, 2 and so on, as 32-bit numbers |
| `Emitter.DeltaFollows` | crates/kiro-trust-protocol/src/translate/response.rs:366-389 | a delta opens its block when needed and is emitted inside a block of its own kind; an empty one emits nothing |
| `Emitter.WholeFollows` | crates/kiro-trust-protocol/src/translate/response.rs:476-486 | a tool call or redacted block closes what is open and is complete at once |
| `TagSplitter.PartialTagSuffix` | crates/kiro-trust-protocol/src/translate/response.rs:706-716 | the loop finds the longest end of the text that may begin a tag |
| `TagSplitter.PartMeaning` | crates/kiro-trust-protocol/src/translate/response.rs:706-716 | what is held back is the longest proper prefix of the tag that ends the text |
| `TagSplitter.FeedAllIsScan` | crates/kiro-trust-protocol/src/translate/response.rs:261-295 | text, thinking and final splitter state of any split into deltas are those of the whole text at once |
| `TagSplitter.SplitIndependent` | crates/kiro-trust-protocol/src/translate/response.rs:261-295 | two splits of the same text give the same text, thinking and state |
| `TagSplitter.FastFeed` | crates/kiro-trust-protocol/src/translate/response.rs:264-267 | the path for text without an opening bracket gives what the full splitting gives |
| `TagSplitter.ScanIsSections` | crates/kiro-trust-protocol/src/translate/response.rs:268-295 | text and thinking, with the held-back end, are the sections outside and inside the tags |
| `TagSplitter.WeaveSections` | crates/kiro-trust-protocol/src/translate/response.rs:268-295 | putting the tags back between the sections gives the input |
| `TagSplitter.SectionsCut` | crates/kiro-trust-protocol/src/translate/response.rs:268-295 | each section ends at the first tag of its kind |
| `TagSplitter.ScanSuppresses` | crates/kiro-trust-protocol/src/translate/response.rs:276-283 | plain reasoning is suppressed from the first opening tag on |
| `TagSplitter.OneSection` | crates/kiro-trust-protocol/src/translate/response.rs:14-15 | what is between `<thinking>` and `</thinking>` is thinking, what is before and behind is text, and plain reasoning is suppressed from then on |
| `StopFilter.RunMeaning` | crates/kiro-trust-protocol/src/translate/response.rs:235-259 | before a match emitted and held-back text together are the input; on a match the emitted text is the input up to the first occurrence of that sequence in the whole input |
| `StopFilter.ChunkingIndependentIff` | crates/kiro-trust-protocol/src/translate/response.rs:235-259 | of the filter alone: where it cuts the text is independent of the deltas if and only if the deciding sequence is the first to complete |
| `StopFilter.SingleSequence` | crates/kiro-trust-protocol/src/translate/response.rs:235-259 | of the filter alone: with one stop sequence what it lets through and finds never depends on the deltas |
| `StopFilter.TwoSequencesDiffer` | crates/kiro-trust-protocol/src/translate/response.rs:237-243 | with two sequences scanned in list order it may: a concrete pair and text |
| `TranslatorText.TextOfRun` | crates/kiro-trust-protocol/src/translate/response.rs:235-313 | in a run that goes on, shown and held-back text are the upstream text outside thinking tags, and no stop sequence occurs in it |
| `TranslatorText.ThinkingOfRun` | crates/kiro-trust-protocol/src/translate/response.rs:448-502 | in a run that goes on, the thinking is, in the order of the events, the text inside thinking tags and the reasoning that came before any such tag |
| `TranslatorEnds.StopCutsRun` | crates/kiro-trust-protocol/src/translate/response.rs:235-259 | in every run that a stop sequence stopped, in a delta or when the end of the stream frees held-back text, the text is all the text outside thinking tags up to where the sequence occurs in it first, and the sequence is the first listed in what was read |
| `TranslatorEnds.StopAtTheEnd` | crates/kiro-trust-protocol/src/translate/response.rs:622-632 | a concrete run that a stop sequence stops only at the end of the stream |
| `TranslatorText.UncutText` | crates/kiro-trust-protocol/src/translate/response.rs:611-638 | a run without any stop or failure shows exactly the upstream text outside thinking tags |
| `TranslatorText.UncutThinking` | crates/kiro-trust-protocol/src/translate/response.rs:611-638 | such a run shows exactly that thinking and what was held back inside a tag |
| `TranslatorDeltas.EndsEarlyIff` | crates/kiro-trust-protocol/src/translate/response.rs:448-464 | with any budget and stop sequences, however upstream cuts its text: the message ends early exactly when the text outside thinking holds a stop sequence or what is shown reaches the budget, and otherwise all of text and thinking has been taken in |
| `TranslatorDeltas.RunSpeaks` | crates/kiro-trust-protocol/src/translate/response.rs:442-651 | what a run of text deltas says, and why it stopped, computed from the text and the places where it is cut alone |
| `TranslatorCuts.CuttingIndependentIff` | crates/kiro-trust-protocol/src/translate/response.rs:442-651 | with any budget and stop sequences, text, thinking and stop of the message are the same for all cuttings of a text into deltas if and only if `CuttingFree` holds of it: it does not end the message; or it is stopped by a sequence that every prefix which ends the message finds too, with the same thinking, and every other prefix leaves room for the thinking; or, ended by the budget, it has no text to show, or nothing is cut but the end of its text |
| `TranslatorCuts.ShortIndependentIff` | crates/kiro-trust-protocol/src/translate/response.rs:442-651 | for a text shorter than the budget this means: every prefix that holds a stop sequence finds the one all the text finds, and has all its thinking |
| `TranslatorCuts.WithoutSequences` | crates/kiro-trust-protocol/src/translate/response.rs:202-222 | without stop sequences it means: there is no text, or everything fits the budget, or the thinking is complete before the budget is reached |
| `TranslatorCuts.CuttingIrrelevant` | crates/kiro-trust-protocol/src/translate/response.rs:442-651 | under that condition the message is what it is when all the text comes in one delta |
| `TranslatorCuts.FittingIsWhole` | crates/kiro-trust-protocol/src/translate/response.rs:611-638 | what fits the budget and holds no stop sequence is shown whole: text and thinking are the sections outside and inside the tags, in every cutting |
| `TranslatorCuts.OnlyText` | crates/kiro-trust-protocol/src/translate/response.rs:202-222 | text without thinking in which no stop sequence occurs is cut exactly at the budget, in every cutting |
| `TranslatorCuts.OnlyThinking` | crates/kiro-trust-protocol/src/translate/response.rs:202-222 | thinking without text is cut exactly at the budget, in every cutting, whatever the stop sequences |
| `TranslatorCuts.TwoCutsDiffer` | crates/kiro-trust-protocol/src/translate/response.rs:448-464 | past the budget the cutting may matter without stop sequences: one text in one and in two deltas, and the two messages |
| `TranslatorCuts.BudgetOrSequence` | crates/kiro-trust-protocol/src/translate/response.rs:303-313 | near the budget it may decide between a stop by sequence and one by budget: one text in two cuttings |
| `TranslatorCuts.ThinkingBehindSequence` | crates/kiro-trust-protocol/src/translate/response.rs:448-464 | with one stop sequence and any budget it may decide whether thinking behind the sequence is shown: one text in two cuttings |
| `TranslatorEnds.ThinkingAfterStopIff` | crates/kiro-trust-protocol/src/translate/response.rs:618-631 | ending a message that a delta stopped adds no text, and it adds thinking if and only if a stop sequence stopped it, the delta ends in the start of a closing tag and its thinking left room |
| `TranslatorEnds.ThinkingAfterStop` | crates/kiro-trust-protocol/src/translate/response.rs:618-631 | a concrete run in which thinking is added after a stop sequence |
| `TranslatorLimits.RunWithinBudget` | crates/kiro-trust-protocol/src/translate/response.rs:183-232 | while the message goes on, all text, thinking and opaque content is counted and stays below four characters for each token asked for and below eight million in any case |
| `TranslatorLimits.StopsExactlyAtBudget` | crates/kiro-trust-protocol/src/translate/response.rs:202-232 | without stop sequences a run latches `max_tokens` exactly when the counter reaches four characters for each token asked for, or eight million |
| `TranslatorEnds.RunExceedsIff` | crates/kiro-trust-protocol/src/translate/response.rs:202-313 | in every run everything shown is counted and below the budget until the one call that ends the message; the whole message is larger than the budget exactly when that call overshoots, and its text and thinking are only when that call is a text delta or the end |
| `TranslatorEnds.PushExceedsIff` | crates/kiro-trust-protocol/src/translate/response.rs:202-313 | any one push overshoots exactly when opaque content does not fit, when a text delta shows text after its thinking used the budget up, or when the text before a stop sequence, with what the end adds, does not fit |
| `TranslatorEnds.EndExceedsIff` | crates/kiro-trust-protocol/src/translate/response.rs:611-638 | the end overshoots exactly when the held-back start of a tag completes a stop sequence and the text before it does not fit |
| `TranslatorEnds.ThinkingThenText` | crates/kiro-trust-protocol/src/translate/response.rs:448-464 | a concrete delta that overshoots by text behind thinking |
| `TranslatorEnds.TextBeforeStop` | crates/kiro-trust-protocol/src/translate/response.rs:303-313 | a concrete delta that overshoots by text before a stop sequence |
| `TranslatorLimits.ExceedsIff` | crates/kiro-trust-protocol/src/translate/response.rs:297-313 | one delta, with or without stop sequences, exceeds the budget exactly when its thinking uses it up and it shows text as well, or the text before a stop sequence in it does not fit |
| `TranslatorLimits.AssistantAdds` | crates/kiro-trust-protocol/src/translate/response.rs:297-313 | how much one delta adds in every case of thinking, text, stop sequences and room left |
| `TranslatorFold.StreamAgreesWithFold` | crates/kiro-trust-protocol/src/translate/response.rs:663-704 | what a client collects from the stream is what it reads in the folded message: text, thinking, redacted blocks in order and the deduplicated calls |
| `TranslatorFold.StreamEndsLikeFold` | crates/kiro-trust-protocol/src/translate/response.rs:391-416 | stop reason, stop sequence and usage of the stream's last events are those of the folded message |
| `TranslatorUsage.CountsComeFromLast` | crates/kiro-trust-protocol/src/translate/response.rs:557-585 | in every run, ended, stopped or failed, the reported counts are those of the last metadata taken that reports any, and only without one those of the last metering taken that does |
| `TranslatorMessage.Opening` | crates/kiro-trust-protocol/src/translate/response.rs:317-334 | every message opens with one message start that has the id and the model of the request and nothing in it |
| `TranslatorMessage.CarriesAll` | crates/kiro-trust-protocol/src/translate/response.rs:442-543 | in every run the client gets each tool call taken from upstream, once and in order, with its id, its input and the name the client knows the tool by, and each piece of redacted content |
| `TranslatorMessage.SignatureShown` | crates/kiro-trust-protocol/src/translate/response.rs:467-502 | while a message goes on, an event puts a signature into the stream if and only if it is reasoning with a signature that is shown, and then only its own, once |
| `TranslatorMessage.FailureIsLast` | crates/kiro-trust-protocol/src/translate/response.rs:586-606 | a run has failed if and only if the last event taken reports a failure, with the reason or type and message of that event; no event before it does |
| `TranslatorMessage.Ending` | crates/kiro-trust-protocol/src/translate/response.rs:391-416 | every message ends with one delta and the stop: the reason and sequence of the latched stop, else `tool_use` exactly when the client was shown a tool call and `end_turn` otherwise; the usage is the counts reported last, saturated at 64 bits, or the estimates, with cache reads and writes each in its own field |
| `TranslatorMessage.EstimateCountsShown` | crates/kiro-trust-protocol/src/translate/response.rs:399-416 | where nothing stopped the message, the estimate counts exactly the characters the client was shown |
| `TranslatorMessage.FoldedMessage` | crates/kiro-trust-protocol/src/translate/response.rs:663-704 | a folded message has the id, the model and its parts in order: thinking signed with the last signature, text, tool calls each with its input read as JSON or an empty object, redacted content |
| `TranslatorMessage.VisibleIff` | crates/kiro-trust-protocol/src/translate/response.rs:168-170 | a message counts as having visible output exactly when the client got text or a tool call |
| `Dedupe.DedupeToolCalls` | crates/kiro-trust-protocol/src/translate/response.rs:718-742 | the two passes over ids and contents give the deduplicated calls |
| `Dedupe.DedupeSound` | crates/kiro-trust-protocol/src/translate/response.rs:718-742 | no id and no pair of name and normalised input occurs twice, and every call kept has the longest input of its id, the first such |
| `Dedupe.DedupeOrder` | crates/kiro-trust-protocol/src/translate/response.rs:718-742 | the calls kept are in the order in which their ids came first |
| `Dedupe.DedupeComplete` | crates/kiro-trust-protocol/src/translate/response.rs:718-742 | for every call the best call of its id is said by the result |
| `TokenSafety.NeverSpentTwice` | crates/kiro-trust-auth/src/source.rs:169-286 | over every interleaving of callers, invalidations, database rewrites, exchange outcomes and cancellations: once an exchange for a seed key reached a 200 none is sent for that key again, the unparsable key included |
| `TokenSafety.BurnedIffSpent` | crates/kiro-trust-auth/src/source.rs:63-88 | a seed is burned exactly when its exchange reached a 200; one that never did is never burned |
| `TokenSafety.OneInFlight` | crates/kiro-trust-auth/src/source.rs:197-204 | there is never more than one exchange in flight |
| `TokenRecord.ServedAndSent` | crates/kiro-trust-auth/src/source.rs:197-286 | in every run each entry under the gate continues the one before it: a credential served expires later than the decision and the buffer, or it has the access token of the response to the caller's own exchange, the refresh token of that response or else of the seed, and its lifetime of at most a year; a 200 is for what the caller has just sent; a first exchange follows the read of the row at the top of the caller's cycle, a second one the read of another parsable row after a failed attempt of the same cycle; a cycle was forced or found nothing valid |
| `TokenRecord.AnswerIsKept` | crates/kiro-trust-auth/src/refresh.rs:64-103 | whatever the body of a 200 brings, exactly that goes into the cache and to the caller next; a body that brings nothing leaves the cache as it was; either way the seed is spent |
| `TokenRecord.CancelledAnywhere` | crates/kiro-trust-auth/src/source.rs:63-88 | a caller cancelled anywhere is done and frees the gate, and nothing else changes except that past a 200 its seed stays spent; what does not fit where a caller is changes nothing |
| `TokenRecord.RecordIsTrue` | crates/kiro-trust-auth/src/source.rs:197-286 | in every run each entry of the record was written by one step that it is true of: a cycle's entry says whether the cache held a valid credential when the holder of the gate looked, a row read is what the database held, an exchange names its seed, its cycle's entry and the row at its top, an issued credential the seed in use and the response received |
| `TokenRecord.NoNeedlessExchange` | crates/kiro-trust-auth/src/source.rs:236-247 | in every run, when an exchange is sent, in a forced cycle or not, the cache does not hold a credential that this process minted and that is still valid |
| `TokenRecord.ActChain` | crates/kiro-trust-auth/src/source.rs:197-286 | every single step of every caller and of the environment keeps the entries under the gate chained |
| `TokenRecord.WaitersSendNothing` | crates/kiro-trust-auth/src/source.rs:197-208 | in every run: once a minted credential was served with no invalidation pending, callers start no cycle and send nothing as long as it is valid and not invalidated |
| `TokenRecord.StoreSettles` | crates/kiro-trust-auth/src/source.rs:254-258 | storing the credential of a refresh leaves a cache that the next callers are served from, unless a cycle is to be forced |
| `TokenSafety.ExchangesBounded` | crates/kiro-trust-auth/src/source.rs:203-286 | every forced cycle uses up an invalidation of its own, and no cycle sends more than two exchanges |
| `TokenSafety.CacheAdvances` | crates/kiro-trust-auth/src/source.rs:216-233 | whatever step replaces the cached credential puts in a minted one or a database row that expires strictly later |
| `TokenSafety.ActInv` | crates/kiro-trust-auth/src/source.rs:169-286 | every single step of every caller and of the environment keeps gate, burned set and record consistent |
| `TokenProtocol.ChainSeed` | crates/kiro-trust-auth/src/source.rs:156-161 | the seed expires no earlier than the database row and the cached credential |
| `TokenSourceClass.TokenSource.Current` | crates/kiro-trust-auth/src/source.rs:197-286 | an uninterrupted call is a run of the protocol: same shared state, and the record ends with the answer it gives |
| `TokenSourceClass.TokenSource.TryRefresh` | crates/kiro-trust-auth/src/source.rs:169-195 | an attempt sends nothing for a spent seed; otherwise it burns the seed exactly when a 200 was reached, also when cancelled; what it yields is the credential the response holds, and it fails after a 200 only when there is none |
| `TokenSourceClass.TokenSource.TakeTokens` | crates/kiro-trust-auth/src/refresh.rs:71-103 | the checks on the body give the credential with the access token, the refresh token given or else the seed's, and the expiry, or nothing when there is none to take |
| `TokenSourceClass.TokenSource.DropGuard` | crates/kiro-trust-auth/src/source.rs:77-88 | dropping the guard burns the seed only past a 200, by latch for unparsable seeds |
| `TokenSourceClass.AnswerRuns` | crates/kiro-trust-auth/src/refresh.rs:59-103 | a 200 spends the seed whether or not its body yields a credential; the credential that goes to the cache keeps the seed's refresh token when the response gives none |
| `Normalize.NormalizedTakesTurns` | crates/kiro-trust-protocol/src/translate/normalize.rs:11-21 | for every list of messages users and assistants take turns and a user comes first |
| `Normalize.TextualizeOrphanToolResults` | crates/kiro-trust-protocol/src/translate/normalize.rs:70-112 | the loop shows as text exactly the user results that answer no call of the message before |
| `Normalize.MergeAdjacentSameRole` | crates/kiro-trust-protocol/src/translate/normalize.rs:121-148 | the nested loops merge each maximal run of plain text of one role |
| `Normalize.NormalizeRolesInPlace` | crates/kiro-trust-protocol/src/translate/normalize.rs:150-157 | unknown roles become users in place |
| `Normalize.EnsureAlternatingRoles` | crates/kiro-trust-protocol/src/translate/normalize.rs:172-191 | the loop puts a synthetic message between two of the same role and nowhere else |
| `History.BuildHistory` | crates/kiro-trust-protocol/src/translate/history.rs:28-84 | the loop with the shared image count gives one entry for each message or the first image error |
| `History.ConversationTakesTurns` | crates/kiro-trust-protocol/src/translate/request.rs:32-120 | in every accepted request users and assistants take turns in the history, a user first, and it is the user's turn at the current message, with or without a system prompt |
| `History.ImagesBounded` | crates/kiro-trust-protocol/src/translate/content.rs:225-256 | an accepted request has at most ten images, history and current message together |
| `Content.ScanMessage` | crates/kiro-trust-protocol/src/translate/content.rs:266-289 | the scanning loop collects results and images in order and threads the request's image count |
| `Content.ScanFindsResults` | crates/kiro-trust-protocol/src/translate/content.rs:168-183 | a scan finds exactly the tool results of a message, in order |
| `Answers.ResultsAnsweredIff` | crates/kiro-trust-protocol/src/translate/normalize.rs:70-112 | with tools, every tool result sent names a call of the assistant entry right before it if and only if in the request every result in a message of unknown role does |
| `Answers.ResultsAnswered` | crates/kiro-trust-protocol/src/translate/request.rs:32-100 | for requests of users and assistants only, every tool result sent names a call of the entry right before it |
| `Answers.StrayIsSent` | crates/kiro-trust-protocol/src/translate/normalize.rs:12-17 | a result in a message of unknown role with no call before it is sent all the same: a concrete request |
| `Answers.NothingWithoutTools` | crates/kiro-trust-protocol/src/translate/normalize.rs:31-68 | without tools no call and no result is sent, whatever the request holds |
| `Wording.NormalizeKeepsText` | crates/kiro-trust-protocol/src/translate/normalize.rs:11-21 | merging changes no word of what the messages say together, and the last passes only put synthetic messages in between |
| `Wording.MergedIsMaximal` | crates/kiro-trust-protocol/src/translate/normalize.rs:121-148 | merging leaves no two neighbours of one role that are only text, and every message that holds anything else as it is |
| `Wording.OnlyMissingTurns` | crates/kiro-trust-protocol/src/translate/normalize.rs:159-191 | no more synthetic messages are put in than turns are missing; where users and assistants take turns there are none |
| `Wording.ConversationSays` | crates/kiro-trust-protocol/src/translate/request.rs:32-120 | history and current message say exactly what the normalised messages say, after the system prompt and its acknowledgement; only a silent or missing user message becomes `Continue` |
| `Conversation.PayloadIs` | crates/kiro-trust-protocol/src/translate/request.rs:32-120 | every accepted request is sent as the pair of system prompt and acknowledgement, one entry for each normalised message but the last, and the last as the current message; each carries the words of its message exactly, its calls, or its results in the order of the calls of the entry before; where no user spoke last the current message is `Continue` |
| `Spoken.SaysIt` | crates/kiro-trust-protocol/src/translate/content.rs:50-74 | what a message says is its text, or the texts of its text blocks and the marks of unknown blocks with a space between each two; eight kinds of blocks say nothing |
| `Spoken.ScanAnswers` | crates/kiro-trust-protocol/src/translate/content.rs:76-183 | each result block is sent as one result, in order, with its id, its error flag and its text: the text or the text blocks line by line, a notice with the number of images moved out, and never empty |
| `Spoken.UsesAreCalls` | crates/kiro-trust-protocol/src/translate/content.rs:196-209 | each call block is sent as one call, in order, with its id, its shortened name and its input or an empty object |
| `Pieces.NothingIsLost` | crates/kiro-trust-protocol/src/translate/request.rs:32-120 | for every accepted request: each plain text, each text block, each mark of an unknown block and all tool content that travels as text is found whole in the contents sent, in the order of the request, and what the assistant said, and only that, in the assistant's entries |
| `Wording.ScanIff` | crates/kiro-trust-protocol/src/translate/content.rs:125-289 | a message is accepted if and only if each base64 image in it is acceptable and they do not take the request over ten, and then it carries exactly those images in order |
| `Wording.FormatIs` | crates/kiro-trust-protocol/src/translate/content.rs:233-240 | the format of an image is all that is behind the last slash of its media type, and nothing else is |
| `Reorder.ReorderToolResults` | crates/kiro-trust-protocol/src/translate/content.rs:293-309 | taking results out of their slots in place gives the specified order |
| `Reorder.ReorderedPermutes` | crates/kiro-trust-protocol/src/translate/content.rs:293-309 | reordering is a permutation: no result is lost or made up |
| `Reorder.PickOrder` | crates/kiro-trust-protocol/src/translate/content.rs:293-309 | picked results follow the order of the calls, the others keep their order |
| `Reorder.PickCounts` | crates/kiro-trust-protocol/src/translate/content.rs:299-306 | for every id as many results are picked as there are calls and results of it |
| `SchemaSanitizer.SanitizeSchema` | crates/kiro-trust-protocol/src/translate/schema.rs:39-119 | the two loops give the sanitised schema with at most one call for every object in it |
| `Schema.SanitizedIsClean` | crates/kiro-trust-protocol/src/translate/schema.rs:39-119 | no schema position of any result carries an unsupported keyword, `const`, a combinator or an empty `required` |
| `SchemaMeaning.SanitizedHolds` | crates/kiro-trust-protocol/src/translate/schema.rs:39-176 | for every schema and keyword, what sanitising leaves there: what the last combinator leaves, by put-together enumerations with their common type, the only branch that is not null, or the first, and only without one what the last other field leaves, dropped, renamed, kept or sanitised inside by its keyword |
| `SchemaSanitizer.RootIsObject` | crates/kiro-trust-protocol/src/translate/schema.rs:180-205 | after root fixing the root type is `object`, and a clean schema stays clean |
| `SchemaSanitizer.RootKeeps` | crates/kiro-trust-protocol/src/translate/schema.rs:183-205 | a root of type `object` stays as it is, one without a type in words keeps every other field, an empty one gets no properties, and any other is found whole under the property `input` |
| `SchemaTwice.FixedIff` | crates/kiro-trust-protocol/src/translate/schema.rs:39-119 | sanitising leaves a schema alone if and only if it is clean, its keywords are distinct and objects in its `enum`s are left alone too |
| `SchemaSettled.SettledTwiceIff` | crates/kiro-trust-protocol/src/translate/schema.rs:39-119 | for every schema, sanitising twice is sanitising once if and only if at every schema position what is written last at each keyword, by a field or by a branch of a combinator, holds nothing that sanitising would still change: a `const` that is an object is left alone as a schema |
| `SchemaSettled.ConstChangesTwice` | crates/kiro-trust-protocol/src/translate/schema.rs:46-48 | a concrete schema that changes both times |
| `SchemaTwice.ConstTwiceIff` | crates/kiro-trust-protocol/src/translate/schema.rs:46-48 | for a `const` that is an object this holds only if that object is left alone as a schema |
| `SchemaCalm.CalmTwice` | crates/kiro-trust-protocol/src/translate/schema.rs:39-119 | with combinators or without, when every object-valued `const` is left alone as a schema, sanitising twice is sanitising once |
| `UsageLaws.UsageIsConserved` | crates/kiro-trust/src/server/usage.rs:115-141 | in every interleaving with fewer than 2^64 requests: started is completed, failed, cancelled and in flight; errors add up to failures and cancellations; in flight is the number of live guards; every total is the saturated sum, or maximum, over the models |
| `UsageLedger.ActInv` | crates/kiro-trust/src/server/usage.rs:216-309 | every begin, update and end keeps each counter the saturated sum over its guards |
| `UsageLaws.EndsOnce` | crates/kiro-trust/src/server/usage.rs:284-316 | a guard ends once: ending it again changes nothing, and it stays as it ended |
| `UsageSummaryClass.Counters.Terminal` | crates/kiro-trust/src/server/usage.rs:121-141 | ending a request changes the counters as specified, saturating each |
| `UsageSummaryClass.UsageSummary.Begin` | crates/kiro-trust/src/server/usage.rs:216-231 | a request is counted in the total and under its model |
| `UsageSummaryClass.RequestUsageGuard.Transition` | crates/kiro-trust/src/server/usage.rs:284-300 | only the first transition reaches the counters |
| `UsageSummaryClass.RequestUsageGuard.Drop` | crates/kiro-trust/src/server/usage.rs:311-317 | dropping a guard that has not ended counts a cancellation |
| `UsageLaws.SlotIsPlace` | crates/kiro-trust-protocol/src/catalog.rs:116-128 | the slot of every model key is its place in the catalog's list, so no two keys share one |
| `UsageLaws.PlaceIsSlot` | crates/kiro-trust-protocol/src/catalog.rs:291-304 | every place in the list is the slot of its key, so none is unused |
| `Scrub.ScrubIdentifiers` | crates/kiro-trust-protocol/src/sanitize.rs:13-53 | for every valid string the loop stays on character boundaries, ends, and its output is a valid string, the scrubbing of the bytes |
| `Scrub.ScrubbingTwice` | crates/kiro-trust-protocol/src/sanitize.rs:13-53 | scrubbing twice is scrubbing once, and a text is left alone exactly when it is clean |
| `ScrubPieces.ScrubbedShows` | crates/kiro-trust-protocol/src/sanitize.rs:14-53 | every text consists of pieces, each ARN reaching to white space, a quote or the end, each run of digits whole, nothing kept beginning an ARN; scrubbing shows the ARNs as `arn:***`, the runs of just twelve digits as `***` and all others unchanged |
| `Scrub.CleanArns` | crates/kiro-trust-protocol/src/sanitize.rs:18-31 | in scrubbed text every `arn:` is `arn:***` followed by a delimiter or the end |
| `Scrub.CleanRuns` | crates/kiro-trust-protocol/src/sanitize.rs:32-45 | in scrubbed text no maximal run of digits has length twelve |
| `Scrub.ScrubbedIsClean` | crates/kiro-trust-protocol/src/sanitize.rs:13-53 | the output of scrubbing any bytes is clean |
| `Scrub.Cap` | crates/kiro-trust-protocol/src/sanitize.rs:57-66 | capping cuts at the last character boundary within the limit and gives a valid string |
| `Scrub.CappedArns` | crates/kiro-trust-protocol/src/sanitize.rs:57-66 | cutting scrubbed text leaves of a hidden ARN nothing but the start of `arn:***` |
| `Scrub.CappedIsCleanIff` | crates/kiro-trust-protocol/src/sanitize.rs:57-66 | cut scrubbed text is clean if and only if the cut leaves neither the start of a hidden ARN nor exactly twelve digits of a longer run |

## Left out

- HTTP, TLS, sockets, routing, SQLite, files and signals: input and output around libraries the model cannot see.
- The command line, audit, doctor, logging and the optional capture of traffic: text plumbing with finite claims.
- The credits of metering events, a floating-point number that is only passed on; tokens are modelled.
- JSON parsing and printing, base64, SHA-256, UUID and CRC internals: parameters, as said above.
- The retry loop of `crates/kiro-trust-kiro/src/client.rs` is not modelled.
- The model catalog's contents: its rows are a parameter of the slot theorems.
- Request fields beside the conversation: profile, effort, tool definitions and their cache points, environment state,
  message ids. They are copied and enter no theorem here.
- The map from shortened to original tool names is a parameter of the translator; how it is filled is not modelled.
- The HTTP status and wording of errors and the mapping of failures to usage error kinds: finite tables. The model
  keeps the failure itself, and which usage mark it leads to.
- Wall-clock values: time only advances, and a deadline may fire at any read. A response lifetime so large that the
  system clock overflows is not modelled.
- TokenSourceClass.TokenSource.Current: one call without interference; what holds under interference is proved on the
  state machine, of which the call is shown to be a run.
- UsageLaws.UsageIsConserved: counts requests up to 2^64 - 1, beyond which the in-flight counter of the program
  saturates and no longer balances; sums of tokens, durations and retries are stated with saturation.
- TranslatorCuts.CuttingIndependentIff: for runs of text deltas, and about text, thinking and stop each for itself;
  the interleaving of text and thinking may depend on the cutting at any length, because one delta shows its thinking
  before its text. The theorems about runs with other events are those of `TranslatorText` and `TranslatorEnds`.
- StopFilter.ChunkingIndependentIff: of the filter alone; in the translator budget and thinking have a say, and
  `TranslatorCuts.CuttingIndependentIff` is the condition there.
- StopFilter.SingleSequence: of the filter alone, likewise.
- TranslatorEnds.StopCutsRun: for runs without an upstream failure; the program does not end a message that failed.
- EventFrames.EncodeEventFrame: for frames that the decoder's limits admit, whose lengths fit their fields; `EventStream.BuildFrame`
  says what the program builds of any others.
- TranslatorMessage.Ending: the estimate counts what was accounted for; where a stop ended the message that may be less than
  what was shown, as `TranslatorEnds.RunExceedsIff` says.
- SchemaMeaning.SanitizedHolds: keyword by keyword; the order of the fields of an object carries no meaning.
- Pumping.ChunkingIndependent: the bytes that are left unread after a stop or failure are not part of the state.
