# nanoapi: verified model of the translation core

nanoapi is a gateway between OpenAI Chat Completions and Anthropic Messages. Its
hard code is a set of small stateful translators that have to agree with each other
on every upstream event sequence. This project models them in Dafny and proves how
they agree, and exactly where they do not.

Three cores are modelled, one module per component.

**Streaming.** An OpenAI chunk is decoded into canonical events (`OpenAIStream`).
Three consumers read the events: the Anthropic stream encoder (`AnthropicEncoder`),
the OpenAI stream encoder (`OpenAIStream`) and the aggregator (`Aggregate`). Two server
loops add web-search blocks or a footer on the way (`AnthropicRelay`, `OpenAIRelay`).
Each object the program updates in place is a class with the same fields; its methods
are proved against a transition function (`Step`, `Apply`, `OStep`) whose state also
carries everything emitted so far. The theorems are about runs of those functions:

- yardsticks defined without the encoders: clients that reassemble what they receive
  (`AnthropicClient`, by count and by index; `OpenAIClient`) and a grammar of messages
  given twice, by rendering and by automaton (`Grammar`);
- for every event sequence: `Bookkeeping`, `Agreement`, `Discipline`, `ClosingDelta`,
  `Reading`, `ChunkOrder`;
- for every upstream body and client: `SearchInjection`, `Insertion`, `Delivery`,
  `SearchAgreement`, `SourcesArguments`, `FooterAgreement`, `EndingAgreement`.

**Request translation.** Canonical request to an OpenAI request and back (`Request`,
`Parameters`, `RequestFixpoint`, `ContentConservation`, `ToolPairing`).

**Selection, override and fallback.** `Config`, `Selection`, `Overrides`, `Fallback`.

JSON and YAML are structured values. In requests a printed value is a value of a datatype
that distinguishes "printed from this value" from other text, so `parse(print(v)) = v`
holds by construction. Tool arguments of answers are parsed and printed by two arbitrary
functions; they are inverse to each other only where a lemma says so. Random ids, clocks
and the outcome of each upstream attempt are inputs, and so are the two text operations
behind reasoning efforts (trimming with lower-casing, and comparing without case). An
upstream body is a list of lines: ignored, `[DONE]`, malformed, or data; a data line
carries both readings the program makes of its payload, as OpenWebUI sources and as a
chunk.

## Where the code falls short of what one would expect

Each of these follows from the code. The exact condition is proved for all inputs, and
`Witnesses` holds a concrete input for those that need one.

- A tool delta whose index was never started is dropped by the aggregator, but the
  encoder sends it to the current block index. If another call's block is open, that
  call gets longer for the streaming client. Condition: `Agreement.StreamedEqualsAggregated`;
  input: `Witnesses.StrayDeltaMisleads`.
- Interleaved tool calls still reassemble by block index, but the stream is then not
  grammatical: deltas name closed blocks. Condition: `Discipline.StreamIsGrammatical`;
  input: `Witnesses.InterleavingBreaksGrammar`.
- The `message_delta` tells the usage report known when a stop and a report had first
  both arrived; later reports and stops are not told. The aggregator merges all reports
  field by field. A report of (1, 1), the stop, and a report of (7, 9) make the stream
  say (1, 1) and the aggregated answer (7, 9). Condition: `ClosingDelta.ClosingDeltaAgrees`
  and, for decoded events, `ClosingDelta.DecodedClosingDelta`; input:
  `Witnesses.LaterReportIsNotTold`.
- `message_stop` is sent only for an upstream that says `[DONE]` (`Delivery.StopOnlyOnDone`).
- Chunk content on a sources line is dropped before the search blocks are injected and
  read afterwards (`SearchInjection.InjectionIsInsertion`); without web search it is
  always read, and the aggregator never reads it. Condition:
  `Delivery.RelayedReadsAsAggregated`; input: `Witnesses.SourcesTextIsStreamedOnly`.
- The aggregated Anthropic answer always opens with the search blocks. The stream shows
  them before the first text, with the results known by then, and not at all without
  text. Condition: `SearchAgreement.SearchAgainstAnswer`; input:
  `Witnesses.SilentSearchIsNotShown`.
- Every further stop repeats the web-search footer. Condition:
  `FooterAgreement.RelayedEqualsAggregated`; input: `Witnesses.RepeatedStopRepeatsFooter`.
- A tool call whose arguments never arrive is relayed with the empty string and
  aggregated as a printed JSON value, which is not empty. Condition:
  `FooterAgreement.RelayedCallsEqualAggregated`, `FooterAgreement.PrintedArgumentsAgree`;
  input: `Witnesses.MissingArgumentsDiffer`.
- The OpenAI stream sends every usage report as it came, so its last one lacks the details
  (reasoning and cache counts) that only an earlier report gave and the aggregated answer
  keeps. Condition: `EndingAgreement.RelayedEndEqualsAggregated`,
  `EndingAgreement.EndAgreesUpToDetails`; input: `Witnesses.DetailIsNotRepeated`.
- A message of role `system` inside the list, which the Anthropic decoder lets through
  (codec/anthropic_decode.go:147-156), is moved to the front when the encoded request is
  decoded. Condition: `RequestFixpoint.WireFixpoint`; input: `Witnesses.LateSystemMoves`.
- A reasoning effort that the upstream's map sends on, or that changes when it is
  normalised, is not the same when it is sent a second time. Condition:
  `Parameters.SettingsFixpoint`; input: `Witnesses.ChainedEffortMovesOn`.
- An image whose media type contains `;` is lost on the way back, unless the text after
  that `;` starts with `base64,`; the wire form is then a fixpoint although the media type
  has changed. Condition: `Request.FormattedParses`; input: `Witnesses.ParameterisedImageIsLost`.
- A `user` message with tool results and tool calls but no content to send loses its
  calls, and so does every `tool` message that has calls; an `assistant` message keeps
  them. Condition: `ToolPairing.IdsAreConserved`; input: `Witnesses.HiddenCallIsLost`.
- A tool result that does not follow its call directly is sent out of its call's reach:
  behind a user message that says something, for example, or behind a message of another
  role. Condition: `ToolPairing.PairingSurvives`; input: `Witnesses.LateResultIsUnpaired`.
- Of a message with role `tool` only the results are sent. One without `tool_call_id` is
  decoded to a message without results, so its text is lost; images in the system prompt
  are not sent either. Condition: `ContentConservation.NothingIsLost`; input:
  `Witnesses.OrphanTextIsLost`.
- Validation depends on the order of the providers: priorities 1, 1, 2 are rejected
  and 2, 1, 1 accepted, although both have one maximum (`Config.OrderMatters`).
- A failure under a status below 500 is final. A stream that breaks off while it is
  aggregated under status 200 is answered, as an error, with 200 and not retried; an
  upstream's own 499 is taken for a client that left (`Fallback.ClientErrorsAreFinal`).

## Model

| member | source | states |
|---|---|---|
| `AnthropicEncoder.AnthropicStreamEncoder.Encode` | codec/anthropic_encode_stream.go:27-158 | for any encoder state and event: the new fields and the SSE events returned are one transition of the encoder, on which all runs below are built |
| `AnthropicEncoder.AnthropicStreamEncoder.EncodeBody` | codec/anthropic_encode_stream.go:53-156 | the per-event switch: which block is closed, opened, written and numbered for each event type |
| `AnthropicEncoder.AnthropicStreamEncoder.Done` | codec/anthropic_encode_stream.go:161-169 | the open block is closed, a pending `message_delta` is sent if none was, and `message_stop` ends the message |
| `AnthropicEncoder.AnthropicStreamEncoder.EnsureBlockStart` | codec/anthropic_encode_stream.go:171-192 | afterwards a block of the wanted kind is open; an open one of that kind is kept, any other is closed first |
| `AnthropicEncoder.AnthropicStreamEncoder.CloseBlock` | codec/anthropic_encode_stream.go:194-203 | an open block gets its stop and the next index; without one nothing changes |
| `AnthropicEncoder.AnthropicStreamEncoder.EmitStandaloneBlock` | codec/anthropic_encode_stream.go:250-268 | a complete block, start and stop with the same index, after closing what was open |
| `AnthropicEncoder.AnthropicStreamEncoder.AppendMessageDelta` | codec/anthropic_encode_stream.go:205-220 | the `message_delta` carries the latched stop reason, `end_turn` by default, and usage, and is noted as emitted |
| `AnthropicEncoder.StepAfter` | codec/anthropic_encode_stream.go:27-158 | what the encoder emits and becomes does not depend on what was emitted before: output is only appended |
| `Bookkeeping.BlocksAlternate` | codec/anthropic_encode_stream.go:161-203 | for arbitrary events, starts and stops read 0, 0, 1, 1, ...; `blockIdx` counts the stops, `blockType` is empty when nothing is open, nothing is open after `Done` |
| `Bookkeeping.MessageDeltaOnce` | codec/anthropic_encode_stream.go:144-220 | `message_delta` at most once in any run; after `Done` exactly once if and only if due, saying the stop reason and usage known when the pair was first complete, else at `Done` |
| `Bookkeeping.MessageDeltaCarriesBoth` | codec/anthropic_encode_stream.go:144-243 | when all stops name one reason and all usage reports are equal, and there is one of each, the one `message_delta` carries both, whichever arrived first, and the client reads off every count reported |
| `ClosingDelta.ClosingDeltaAgrees` | execute/aggregate.go:61-88 | for every event sequence: the closed stream has exactly one `message_delta` and it says the stop reason and counts of the aggregated answer if and only if usage was reported, the stop told is the latest, and the counts told are, field by field, the last reported |
| `ClosingDelta.ClosedAgainstAnswer` | execute/aggregate.go:61-88 | for any two event sequences, one streamed and closed, the other aggregated: the stream closes with what the answer says if and only if a delta is due and tells the last stop and counts of the aggregated ones |
| `ClosingDelta.OpenDeltaAgrees` | codec/anthropic_encode_stream.go:144-158 | the same for a stream that breaks off: besides, a stop and a report must have met |
| `ClosingDelta.DecodedClosingDelta` | codec/upstream_stream.go:132-147 | for events as the decoder produces them: stop and report both arrived, no later stop has another reason, the last report repeats the input and output told, and the cache counts told are the last reported |
| `ClosingDelta.DecodedDeltaOnce` | codec/upstream_stream.go:137-145 | for events as the decoder produces them the one `message_delta` is due exactly when a report or a stop with a reason was decoded |
| `ClosingDelta.UnanimousClosingDelta` | codec/anthropic_encode_stream.go:144-243 | in particular stream and answer agree when stop and usage are each reported once, or repeatedly but unanimously, in either order |
| `Agreement.StreamedEqualsAggregated` | codec/anthropic_encode_stream.go:53-169 | for every event sequence, closed by `Done` or broken off, the client's text, thinking and ordered (id, name) calls are the aggregator's; its argument strings are too if and only if no stray delta lands in another call's open block, and are nowhere shorter in any case |
| `Agreement.InterleavedCallsAgree` | execute/aggregate.go:48-60 | when every delta's index was started earlier, even interleaved, the two lists of tool calls are identical: map lookup and reverse scan pick the same call |
| `Agreement.ToolMapNamesLatestStart` | codec/anthropic_encode_stream.go:87-114 | in every reachable state the tool map covers exactly the started indices, is injective, and each entry is the tool_use block of the latest start, never beyond the open block |
| `Grammar.AutomatonMeetsGrammar` | codec/anthropic_encode_stream.go:27-169 | the automaton that reads a stream event by event accepts exactly the renderings of well-typed messages (message_start, numbered blocks whose deltas fit, at most one message_delta, message_stop) |
| `Discipline.StreamIsGrammatical` | codec/anthropic_encode_stream.go:27-169 | a run closed by `Done` is such a message if and only if the events are disciplined, a condition on the events alone (no block number, no map) |
| `ChunkOrder.OrderlyChunksAreGrammatical` | codec/upstream_stream.go:70-147 | chunk streams that name their message, whose tool entries follow their own start and whose content ends with the stop, come out as grammatical messages, usage arriving at any time |
| `Aggregate.StreamAggregateState.ApplyEvent` | execute/aggregate.go:32-88 | the heap state (builders found by a reverse scan and written in place) moves exactly as the fold over events does; no other object is touched |
| `Aggregate.StreamAggregateState.WriteArguments` | execute/aggregate.go:53-60 | the reverse loop writes into the latest call with that index and into no other; without one nothing changes |
| `Aggregate.StreamAggregateState.MergeReport` | execute/aggregate.go:63-86 | usage fields present in the report replace the old ones, the rest stay |
| `Aggregate.StreamAggregateState.Finalize` | execute/aggregate.go:91-135 | the response holds thinking, text and tool calls in that order, parts joined, arguments parsed, nil for those that are empty or cannot be parsed |
| `Aggregate.UsageIsFieldwiseLast` | execute/aggregate.go:63-86 | over any run the usage is, field by field, the last value reported, and absent if and only if no usage was |
| `OpenAIStream.DecodeOpenAIStreamLine` | codec/upstream_stream.go:44-148 | the events of a line, in the order thinking, signatures, text, tools, stop, usage; the loops over thinking blocks and tool calls lose and reorder nothing |
| `OpenAIStream.OpenAIStreamEncoder.Encode` | codec/openai_encode_stream.go:23-127 | for any encoder state and event: new fields and the chunks returned are one transition of the encoder (latched id and model, role once, usage chunk) |
| `OpenAIStream.RoundTrip` | codec/openai_encode_stream.go:23-127 | for every event sequence: decoding all chunks the encoder sends returns the events, signatures aside, if and only if each kept event is one the decoder can produce and names what has been latched by then (none without an id or a model follows one that has it) |
| `OpenAIStream.GatewayBehindItself` | codec/types.go:195-203 | whatever the upstream chunks, relayed under one id and model and decoded again the events are unchanged except for signatures, stop reasons and usage included |
| `OpenAIStream.DecodedEvents` | codec/upstream_stream.go:70-147 | every decoded event carries its chunk's id and model and is one that survives encoding, or is a non-empty signature |
| `OpenAIStream.UsageRoundTrip` | codec/upstream.go:477-508 | decoding an encoded usage returns it if and only if input, output and total are present |
| `OpenAIStream.StopRoundTrip` | codec/upstream.go:510-521 | decoded stop reasons survive the way to the OpenAI name and back |
| `AnthropicRelay.StreamOpenAIToClient` | server/public_anthropic.go:511-589 | the loop over upstream lines, with its flags and the encoder object, emits exactly the run of the relay and returns the last upstream usage |
| `AnthropicRelay.RelayDecoded` | server/public_anthropic.go:545-570 | the events of one line, with the injection before the first non-empty text |
| `AnthropicRelay.StepLift` | codec/anthropic_encode_stream.go:104-114 | after the injection every step commutes with moving indices from p on up by two, late tool deltas routed through the map included |
| `SearchInjection.InjectionIsInsertion` | server/public_anthropic.go:533-576 | for every upstream body: the search trace is the plain trace of the lines a search client hears, with two complete blocks put before the first text block at p and every index from p on moved to k + 2; the blocks carry the last results captured before it; injected if and only if there is a text block; usage and end unchanged |
| `SearchInjection.InjectionIntoSameLines` | server/public_anthropic.go:545-569 | when sources lines carry nothing else, plain and search trace are over the same lines |
| `Insertion.InsertionKeepsGrammar` | codec/anthropic_encode_stream.go:119-142 | the stream with the search blocks is a grammatical message if and only if the plain one is |
| `Insertion.InsertionReadsSame` | server/public_anthropic.go:550-565 | for every stream whose block starts are numbered in order: the search stream is numbered too and its client reads the same text, thinking and tool calls |
| `Insertion.InsertionKeepsDeltas` | codec/anthropic_encode_stream.go:119-142 | the search blocks leave the closing delta as it is |
| `AnthropicClient.KeyedIsCounted` | codec/anthropic_encode_stream.go:171-192 | of a numbered stream, a client that keys blocks by the index of their start holds the same blocks as one that counts starts |
| `Delivery.RelayIsRun` | server/public_anthropic.go:530-576 | without web search the loop is, for every body, the encoder's run on the events before `[DONE]`, malformed lines skipped, and `Done` runs only at `[DONE]` |
| `Delivery.RelayedIsPlain` | server/public_anthropic.go:530-576 | for every body and client, the relayed stream is the plain stream of the events the loop encoded, with the search blocks if web search is on |
| `Delivery.StopOnlyOnDone` | server/public_anthropic.go:571-575 | for every upstream body, searched or plain, `message_stop` is sent if and only if the upstream said `[DONE]` |
| `Delivery.RelayedMessageIsGrammatical` | server/public_anthropic.go:530-576 | from lines to client, for every body and client, searched or plain: the stream is one grammatical message if and only if the upstream said `[DONE]` and the encoded events are disciplined |
| `Delivery.OrderlyBodyIsGrammatical` | codec/upstream_stream.go:70-147 | orderly chunks ended by `[DONE]` become one grammatical message, with the search blocks or without |
| `Delivery.RelayedReads` | server/public_anthropic.go:530-576 | for every body, ended or not, and every client: counting blocks or keying them by index gives the same reading, and it is the aggregation of the events encoded; argument strings if and only if no stray delta lands |
| `Delivery.RelayedReadsAsAggregated` | execute/executor.go:226-251 | for every body, ended or not, and every client: the non-streaming answer exists if and only if the body decodes, and then text, thinking and calls are those of the stream if and only if the sources lines the loop decodes carry none; argument strings, when those lines start no call, if and only if no stray delta lands and none of those lines adds to a call started before |
| `SourcesArguments.SourcesOnlyAdd` | codec/upstream_stream.go:100-124 | when sources lines start no call, decoding them leaves the same calls with argument strings nowhere shorter, and the same exactly when no such line adds to a call started before |
| `Delivery.RelayedClosingDelta` | execute/aggregate.go:61-86 | for every body and client: the aggregated answer exists if and only if the body decodes, and then the stream closes with one delta that says what it says if and only if a stop and a report met, or the body ended and one arrived, and what is told are the last stop and counts of the events aggregated |
| `SearchAgreement.LayoutOfBlocks` | codec/anthropic_encode_stream.go:171-203 | the blocks started by a stream are, in order, the headers of the blocks its client assembles |
| `SearchAgreement.RelayedLayout` | codec/anthropic_encode_stream.go:53-203 | for every body and client, the blocks shown are a function of the events encoded (text, thinking, one per started call), with the two search blocks before the first text |
| `SearchAgreement.SearchAgainstAnswer` | server/public_anthropic.go:616-627 | for every body and client: the stream shows the search blocks of the aggregated answer if and only if text is encoded and the results captured before it are the last of all; it opens with them if and only if text is moreover shown first |
| `OpenAIRelay.StreamOpenAIToOpenAIClient` | server/public_openai.go:308-379 | the loop emits the run of the relay: the footer goes before each stop when search results were captured |
| `OpenAIClient.ChunksReadAsAggregated` | codec/openai_encode_stream.go:23-94 | for every event sequence whose started calls have an id, a client assembling the chunks holds the content, reasoning and tool calls, arguments included, that the aggregator holds after the same events, interleaved or stray deltas or not |
| `OpenAIRelay.AggregateStream` | execute/executor.go:220-252 | the loop over lines returns the fold of the delivered events and the last sources, or the first decoding error |
| `OpenAIRelay.AggregateIsFold` | execute/executor.go:220-252 | the answer exists if and only if every line before `[DONE]` decodes, and has then applied every event delivered, in order, and kept the last sources |
| `OpenAIRelay.AppendWebSearchFooter` | server/public_openai.go:410-425 | the footer is appended to the first text block, or added as one; without search or results nothing changes |
| `OpenAIRelay.EncodeOpenAIClientMessage` | codec/openai_encode.go:62-95 | content and reasoning are the joined parts, tool calls are kept in order |
| `OpenAIRelay.EncodeOpenAIClientResponse` | codec/openai_encode.go:44-112 | identity, message, finish reason (none for no stop reason) and usage of the client response |
| `FooterAgreement.RelayedEqualsAggregated` | server/public_openai.go:323-366 | for every body and client: the aggregated answer exists if and only if the body decodes; then with web search the reasoning agrees, and the content does if and only if what is sent from the first footer on equals the text from there with the final footer behind it; without web search they agree if and only if the sources lines carry no reasoning, or no text |
| `FooterAgreement.OnlyTheTail` | server/public_openai.go:340-354 | for any order of text and footers, what comes before the first footer has no part in the condition |
| `FooterAgreement.OneFoot` | server/public_openai.go:340-354 | with one footer sent, the answers agree if and only if it commutes with the text after it |
| `FooterAgreement.SettledSourcesAgree` | server/public_openai.go:323-366 | with all sources before the first stop: the contents agree if and only if there is no footer, or one stop whose footer commutes with the text after it |
| `FooterAgreement.RelayedCallsEqualAggregated` | server/public_openai.go:308-379 | for every body and client: the answer exists if and only if the body decodes; ids and names of the calls agree if and only if no decoded sources line starts one; if so, argument strings agree if and only if each one heard is what the one kept is parsed and printed as, that is its own unless a sources line adds to a call |
| `FooterAgreement.PrintedArgumentsAgree` | execute/aggregate.go:109-124 | the argument strings that agree are the printed values; an empty one never does |
| `EndingAgreement.RelayedEndEqualsAggregated` | codec/openai_encode.go:55-105 | for every body and client: the answer exists if and only if the body decodes; the last finish reason of the chunks is its finish reason if and only if the relay decodes no later stop; the last usage is its usage if and only if the last report decoded is the merged one |
| `EndingAgreement.EndAgreesUpToDetails` | execute/aggregate.go:61-88 | with web search, or when sources lines carry nothing else: the finish reasons agree, and the usages if and only if the last report repeats every reasoning and cache count reported before |
| `WebSearch.ParseOpenWebUISources` | codec/websearch_inject.go:22-65 | the two passes with their maps compute the parsed list |
| `WebSearch.ParsedSources` | codec/websearch_inject.go:39-64 | exactly the distinct web_search URLs in first-seen order, each with the last non-empty title recorded for it |
| `WebSearch.FormatWebSearchFooter` | codec/websearch_inject.go:79-93 | the footer lists every result once, numbered from 1, in order; no results, no footer |
| `Distinct.FirstSeenIsDedup` | codec/upstream.go:191-211 | first-seen filtering keeps exactly the elements, each once, ordered by first occurrence |
| `Request.EncodeOpenAIRequest` | codec/upstream.go:130-186 | settings, tools, features and messages of the wire request, with the last assistant message re-roled in place |
| `Request.EncodeParameters` | codec/upstream.go:71-128 | scalar parameters, stop texts, tool choice, response format and reasoning effort of the wire request |
| `Parameters.BuildOpenAIReasoning` | codec/reasoning.go:13-36 | the loop over the allowed efforts finds the mapped effort if it is allowed and tells `medium` otherwise; nothing without effort or capability, or when disabled |
| `Request.EncodeBlocks` | codec/upstream.go:216-253 | one pass splits the blocks of a message into its parts, its calls and its results, each in order |
| `Request.EncodeOpenAIMessage` | codec/upstream.go:213-298 | tool results become tool messages in order, followed by what remains of the message |
| `Request.EncodeOpenAIToolResultContent` | codec/upstream.go:300-344 | content of a tool result with the error prefix: empty, one text or a list of parts |
| `Request.InferToolsFromHistory` | codec/upstream.go:191-211 | the loop with its seen-set returns one tool per distinct called name |
| `Request.DecodeOpenAIRequest` | codec/openai_decode.go:126-229 | system messages hoisted, tools and messages decoded in order, or the first error |
| `Request.DecodeParameters` | codec/openai_decode.go:80-124 | model, parameters, stop, tool choice and response format read back, or the first error |
| `Request.DecodeOpenAIContent` | codec/openai_decode.go:232-266 | string, list or absent content; parts that cannot be read are skipped, other shapes are an error |
| `Request.ParsedFormatsBack` | codec/openai_decode.go:268-284 | formatting a parsed data URI (RFC 2397, section 3) gives back the string, and its media type has no `;` |
| `Request.FormattedParses` | codec/upstream.go:231-231 | a formatted image parses back to its parts if and only if the media type has no `;`, and parses at all if and only if the text after the first `;`, if any, starts the marker |
| `RequestFixpoint.WireFixpoint` | codec/upstream.go:153-344 | for every request and upstream: the encoded request decodes if and only if the upstream model is named, and encoding the decoded one again gives the identical request if and only if its images parse back and its tool results name their calls, system messages lead as plain text without calls, and the effort sent is settled |
| `Parameters.SettingsFixpoint` | codec/upstream.go:71-128 | settings sent decode if and only if the upstream model is named, and are sent again unchanged if and only if the effort sent normalises and maps onto itself |
| `Parameters.PlainEffortSettles` | codec/reasoning.go:20-35 | an effort the map does not send on and normalising does not change is settled if and only if it is allowed or `medium` |
| `ContentConservation.ContentIsConserved` | codec/upstream.go:153-344 | in every encoded request the system text, and the text and images of all messages whose role is not `tool`, arrive in order and complete, through splitting, reordering and re-roling; the tool messages are the tool results one for one, in order, each with its call id, its own content and, if it is an error, one mark in front |
| `ContentConservation.NothingIsLost` | codec/upstream.go:213-298 | all that the system prompt and the messages say is sent if and only if the prompt shows no image and no tool message without a result says anything |
| `ToolPairing.IdsAreConserved` | codec/upstream.go:213-298 | tool-result ids are conserved in order in every encoded request; tool-call ids are if and only if no message hides calls behind results |
| `ToolPairing.PairingSurvives` | codec/upstream.go:213-298 | for every request: every tool message on the wire is reached from an assistant message carrying its id through tool messages only, if and only if results come in turn: those of users and tools answer the calls of the latest assistant message with nothing sent since but results, those of an assistant its own calls, and no other role has any |
| `ToolPairing.ConversationsStayPaired` | codec/upstream.go:162-173 | in particular when results answer calls of the message just before |
| `ToolPairing.InferredTools` | codec/upstream.go:179-183 | tools are inferred exactly when there are neither function tools nor web search, and then name the distinct called functions in first-seen order |
| `Overrides.MergeOverrideParams` | server/provider.go:100-116 | fields set by the source win, others stay |
| `Overrides.ResolveOverride` | server/provider.go:66-77 | defaults merged with every matching rule, in order |
| `Overrides.MergeIsMonoid` | server/provider.go:100-116 | merging is associative and the empty override is its unit |
| `Overrides.MergedEqualsSequence` | server/provider.go:66-98 | applying the resolved override equals applying defaults and matching rules one after the other |
| `Overrides.LastOneWins` | server/provider.go:79-116 | each field ends with the value of the last override in force that sets it, else the client's; the reasoning mode and the response format never change |
| `Overrides.Clone` | codec/types.go:43-54 | same value, with a reasoning object and a response format of its own |
| `Overrides.RequestState.ApplyOverride` | server/provider.go:79-98 | the new parameters, written in place through the reasoning pointer when there is one |
| `Overrides.RequestState.ApplyToSharedCopy` | server/provider.go:92-97 | without `Clone` the write shows in every copy of the struct: why the handler has to clone |
| `Fallback.ExecuteWithRetry` | server/public_anthropic.go:287-357 | attempts 1, 2, ... up to the first final outcome, at most three; the code after the loop is never reached |
| `Fallback.ProxyHandler` | server/public_anthropic.go:156-274 | the provider loop over the heap: its log depends on the client's parameters and the overrides only, the client's reasoning object is never written, and the code after the loop is reached only without any provider |
| `Fallback.RunIsSafe` | server/public_anthropic.go:169-356 | every run: attempts in order, none repeated; an attempt happens if and only if all earlier ones failed with status >= 500, with parameters that depend on the client and that override alone; the last attempt's verdict decides the response and its record; exactly one record, or none if and only if that verdict is 499 |
| `Fallback.FallbackOnlyAfterThreeFailures` | server/public_anthropic.go:220-274 | in every log: at most three attempts per candidate, and an attempt on a later provider only after all three on every earlier one were made and failed with status >= 500 |
| `Fallback.ClientErrorsAreFinal` | server/public_anthropic.go:330-356 | a failure below 500 on any reached attempt of any provider is the last attempt, whatever attempts and providers remain, and is answered and recorded with its status; 499 ends the run without response and record |
| `Fallback.FinalAttemptEndsRun` | server/public_anthropic.go:220-357 | a reached attempt that is not retriable is the last of the run and its verdict alone closes it |
| `Config.Validate` | config/validate.go:10-114 | the loops with their maps accept a configuration if and only if tokens, providers, models, efforts and rules are well formed and no provider repeats the maximum priority met so far for a model |
| `Config.UnambiguousMeansTops` | config/validate.go:46-100 | the ambiguity check passes if and only if at every prefix of the provider list each model served there has one provider of maximum priority |
| `Config.PrimaryIsUnique` | config/validate.go:46-100 | in a valid configuration exactly one provider attains the maximum priority for each served model |
| `Config.OrderMatters` | config/validate.go:85-99 | two orders of the same priorities, both with a single maximum, one rejected and one accepted |
| `Selection.SelectAll` | server/provider.go:32-64 | an error if and only if no provider serves the model; otherwise all that do, once each, by descending priority, each with its upstream model and resolved override |
| `Selection.PrimaryHeadsSelection` | server/provider.go:46-62 | under any outcome of the unstable sort the first selection of a valid configuration is its one primary provider, and exactly the serving providers are listed |
| `Witnesses.StrayDeltaMisleads` | codec/anthropic_encode_stream.go:104-114 | chunks that start call 0 and send arguments for call 1: the calls agree, their argument strings do not |
| `Witnesses.InterleavingBreaksGrammar` | codec/anthropic_encode_stream.go:87-114 | chunks that start calls 0 and 1 and then continue call 0 come out as no grammatical message |
| `Witnesses.LaterReportIsNotTold` | codec/anthropic_encode_stream.go:144-158 | chunks with a report, the stop and a later report: the delta tells (1, 1), the aggregate holds (7, 9) |
| `Witnesses.RepeatedStopRepeatsFooter` | server/public_openai.go:340-354 | a body with two stops: the streamed content differs from the aggregated one |
| `Witnesses.SourcesTextIsStreamedOnly` | server/public_anthropic.go:533-545 | text on a sources line: streamed to a client without web search, missing in the aggregated answer |
| `Witnesses.SilentSearchIsNotShown` | server/public_anthropic.go:550-565 | sources and no text: the answer shows the search, the stream does not |
| `Witnesses.MissingArgumentsDiffer` | execute/aggregate.go:109-124 | a started call without arguments: same names, other argument strings |
| `Witnesses.DetailIsNotRepeated` | codec/openai_encode_stream.go:31-34 | two reports, the first with a reasoning count: the last usage of the stream is not that of the answer |
| `Witnesses.LateSystemMoves` | codec/anthropic_decode.go:147-156 | a system message behind a user message: sent again after decoding, the request is another |
| `Witnesses.HiddenCallIsLost` | codec/upstream.go:255-298 | a user message with a result and a call: the call is not sent |
| `Witnesses.ParameterisedImageIsLost` | codec/openai_decode.go:268-284 | an image of type `a/b;c` does not parse back |
| `Witnesses.LateResultIsUnpaired` | codec/upstream.go:285-298 | call, user text, result: the tool message is out of reach of its call |
| `Witnesses.OrphanTextIsLost` | codec/upstream.go:255-257 | a tool message without `tool_call_id` is decoded, and its text is not sent |
| `Witnesses.ChainedEffortMovesOn` | codec/reasoning.go:20-35 | `max` mapped to `xhigh` mapped to `high`: sent as `xhigh`, and after decoding as `high` |

## Left out

- HTTP, routing, authentication, TLS, timeouts, scanners and flushing: an upstream is a list of lines or of attempt outcomes; a scanner error after some lines is not modelled.
- JSON and YAML text and byte-level SSE framing: structured values and sequences of events; a request body that is no JSON, or has a value of the wrong type in a scalar field, is not modelled.
- UUIDs, random tool ids and timestamps: arbitrary inputs.
- Logging, debug dumps, timing statistics and HTML error cleanup: no effect on what is translated.
- Usage storage and summaries (server/usage.go) and Anthropic request parsing (codec/anthropic_decode.go): mostly one-branch facts.
- The fields of non-streaming Anthropic blocks (codec/anthropic_encode.go), whose order and kind alone are modelled, and the decoding of a non-streaming upstream body: flat field copies.
- `ListModels`, `DecideMode`, headers and upstream URLs: one-line functions.
- The OpenAI handler's own retry and provider loop: it has the shape of the Anthropic one and calls the same retry function.
- Integer widths: token counts and priorities are mathematical integers.
- Parameters.BuildOpenAIReasoning: trimming, lower-casing and comparing without case are arbitrary functions.
- OpenAIClient.ChunksReadAsAggregated: started calls have an id, as all that the decoder starts.
- Aggregate.StreamAggregateState.SetWebSearchResults: the results are a field beside the aggregate; the fold does not mention them.
- Config.Validate: error texts are not modelled, only acceptance; effort normalisation is an arbitrary function.
- Selection.SelectAll: the sort is any permutation by descending priority, and the model picks the first maximum repeatedly.
- Fallback.RunIsSafe: what an attempt did is an input, so streaming answers that fail after the first byte count as delivered, as they do in the handler.
- FooterAgreement.RelayedCallsEqualAggregated: when a sources line starts a call the lists differ in length, and argument strings are not compared; so for Delivery.RelayedReadsAsAggregated.
