# CLIRO backend: a Dafny model

CLIRO is a local proxy. It takes OpenAI and Anthropic requests, normalises the
conversation, picks an account, retries on failure, decodes an upstream event
stream and encodes the answer again for the client. This project models the
parts of the backend where these steps depend on each other and proves what
they promise together. `dafny verify dfyconfig.toml` checks the whole project.

| Files | What they model |
|---|---|
| `BraceScan`, `PatternSplitter`, `KiroParser`, `KiroMeaning`, `KiroToolCalls`, `EventStream`, `KiroCompletion` | The Kiro stream decoder: frames of the `application/vnd.amazon.eventstream` format, the buffer that is searched for the earliest of eight patterns, the brace matcher over JSON text (sections 4 and 7 of RFC 8259), what the parsed events mean, which tool calls and token numbers come out, and the completion built from them. |
| `AnthropicStream`, `AnthropicAnswer`, `AnthropicClient`, `ResponsesStream`, `ResponsesAnswer`, `Sse`, `EndpointTester`, `ReadBack`, `TesterAnswers`, `Emitter`, `Layout`, `Models` | The streaming encoders and the answers without a stream, what a client gets of each in terms of the response alone, the Server-Sent Events framing (section 9.2 of the WHATWG HTML standard), and the reader of these streams and answers in the frontend. |
| `Conversation`, `ToolHistory`, `HistoryKept`, `Validation`, `ValidationRules`, `AnthropicRequest`, `RequestMeaning`, `RequestSurvival` | Conversion, merging and sanitising of conversations, what of a request survives them, and the validator that judges the result. |
| `Accounts`, `Pool`, `Balance`, `Failures`, `Store`, `Codex`, `Kiro`, `Proxy`, `Recovery` | Account scheduling, failure classification, the retry loops of both providers, the statistics, and the single-flight token recovery. |
| `ToolNames`, `KiroPayload`, `TextLines`, `CodexToml`, `CodexTomlMeaning` | Tool-name shortening, the turns of a Kiro payload, and the patcher and reader of Codex's `config.toml`. |
| `Text`, `JsonValues`, `JsonText` | Trimming and joining, JSON values, and a printer of JSON texts that shows that what is asked of a JSON library can be met. |

What the source updates in place is a class here (`ParserState`, the frame
reader, the stream states, the pool, the store, the clock, both services). A
loop of the source is a loop of a method, and every method is proved against a
function on values; the laws are lemmas about those functions. The token
recovery is a transition system whose actions are the steps between two
accesses to shared data.

## How the outside enters

- Text is a sequence of bytes, and white space is what `unicode.IsSpace` accepts in
  its encoding in UTF-8 (`LeadSpace`, `TailSpace`).
- The JSON library is a pair of functions and the numbers and strings that its
  texts carry (`Range`). Decoding inverts encoding on the values made of these and
  yields no others (`Inverse`, `Faithful`); an object is written in braces, the empty one
  as `{}` (`Braced`). The values are limited since a decoder's numbers are not all
  real numbers and bytes that are no UTF-8 are replaced; where stated it is blind
  to the white space around a text (`IgnoresSpace`). A library and a codec of this
  kind exist: `JsonText.LibraryExists` and `JsonText.CodecExists` give them for all
  strings and whole numbers, with a printer of JSON texts whose values are
  delimited, and `ReadBack.SomeCodecReadsBack` reads every ASCII response back with
  one. Fresh identifiers come from a supply `nat -> string`, the
  tool-name digest is a function with ten hexadecimal digits.
- What a client gets of a string sent as JSON is a function `Wire`. A stream that
  is cut into pieces is read back when no piece ends inside a rune (`Uncut`),
  which ASCII text never does (`AsciiUncut`).
- A clock is a function from reading to time. Upstream replies and token checks
  are arbitrary functions of how many came before.
- A Codex request is watched for a number of turns of its outer loop, since
  nothing in the code bounds them: as long as it runs the books are as they were,
  and `Complete` lists the cooldowns it sets. It has ended when the turns outnumber
  the Codex accounts and no reading of the clock during the request has reached
  one of these cooldowns; no other condition is put on clock or replies.

## Where a promise holds only under a condition

- In performance mode a window of as many consecutive calls as there are ready
  accounts puts each of them first once exactly when at most one account is
  ready or all stored ones are (`PerformanceFairness`): behind an account that
  is not ready the next one is first twice. Over as many calls as there are
  stored accounts everyone still comes first (`EveryoneComesFirst`).
- The Anthropic stream trims tool arguments before decoding them and the
  non-streamed answer does not. The two agree exactly on calls whose edges carry
  no white space that is not JSON white space, or whose trimmed object remaps
  like the empty one (`StreamEqualsAnswer`, `StreamDiffersOnVerticalTab`). The
  program itself only builds calls on which they agree
  (`ConvertedStreamEqualsAnswer`).
- The Responses stream leaves blank reasoning out of the message item and the
  non-streamed answer does not, unless it is empty; and each takes its own fresh
  id for a call without one. Otherwise the client rebuilds the answer's items
  (`ItemsAsAnswered`, `BlankThinkingIsLost`), shifted by one when a piece of the
  thinking is visible. That is when the thinking is not blank, unless a piece begins
  inside a white space character (`VisibleChunk`). Item ids are not compared: the
  message has a fresh one in the stream, and the answer puts "fc_" before a call's.
- A stream of frames that breaks off is taken as complete exactly when it does so
  before a frame, or behind the prelude, the headers or the payload of one
  (`TruncatedStream`).
- A tool input that arrives in string fragments is trimmed at every fragment; it
  comes out as the joined text exactly when every cut is clean
  (`FragmentedToolCall`, `FragmentLosesSpace`).
- A waiter of the token recovery gets the stored error, which stays empty when
  the leader itself rejects a disabled or banned account
  (`WaiterGetsWhatWasStored`).
- A shortened tool name is restored exactly when it is not itself a registered
  name (`RestoreUndoesRemap`, `RestoreMayNotUndo`), and so whenever no name is one
  of the two short forms (`RestoreUndoesUnlessIssued`); the loop that registers a
  long name ends exactly when one of its two short forms is free (`LoopEndsWhen`,
  `RegisteringMayNotEnd`).
- Patching `config.toml` twice is patching it once exactly when no section line
  that stays in the file still ends in a carriage return once "\r\n" was replaced,
  as one before "\r\r\n" does (`PatchTwice`, `PatchTwiceMayDiffer`).

## Model

| member | source | states |
|---|---|---|
| BraceScan.FindMatchingBrace | internal/provider/kiro/stream.go:272-309 | The rune loop answers like a scan over bytes, on every byte string, valid UTF-8 or not |
| BraceScan.ScanStable | internal/provider/kiro/stream.go:272-309 | A match that was found does not move when bytes are appended |
| BraceScan.ObjectEnd | internal/provider/kiro/stream.go:272-309 | On every JSON object text, with any nesting, strings, escapes and spacing, followed by any bytes, the matcher answers the index of the last byte |
| BraceScan.Written | internal/provider/kiro/stream.go:272-309 | The texts meant: an array is its values between brackets with a comma, an object its members in braces with quoted key and colon |
| PatternSplitter.FindEarliest | internal/provider/kiro/stream.go:137-160 | The pattern loop finds the earliest occurrence of any pattern, or none |
| PatternSplitter.EarliestStable | internal/provider/kiro/stream.go:137-160 | Later bytes cannot create an earlier pattern |
| PatternSplitter.DrainAppend | internal/provider/kiro/stream.go:137-174 | Draining the buffer early and again after more bytes is draining once |
| PatternSplitter.FeedAllAtOnce | internal/provider/kiro/stream.go:137-174 | Feeding chunk by chunk equals feeding the concatenation, for any shaped patterns and any handler |
| PatternSplitter.DrainEvents | internal/provider/kiro/stream.go:137-174 | A buffer of whole events is consumed to the last byte, each event handled once and in order |
| KiroParser.PatternsShaped | internal/provider/kiro/stream.go:137-150 | The eight patterns begin with the only brace they have and none is a prefix of another |
| KiroParser.ChunkIndependence | internal/provider/kiro/stream.go:137-174 | Tool calls, text parts, usage and leftover bytes do not depend on how the stream was cut |
| KiroParser.EventsRoundTrip | internal/provider/kiro/stream.go:137-224 | A list of well-formed events, cut anywhere, is applied once each in order, nothing left over |
| KiroParser.ParserState.FeedChunk | internal/provider/kiro/stream.go:137-174 | The new parser state is the old one drained with the chunk appended |
| KiroParser.ParserState.ProcessEvent | internal/provider/kiro/stream.go:176-224 | The fields after one event are those of the event's meaning |
| KiroParser.ParserState.FinalizeToolCall | internal/provider/kiro/stream.go:226-247 | The fields after it are those of the finished call, which is appended unless an equal one is there, and closed; that the call comes out, and with what, is `KiroToolCalls.CallsComeOut` |
| KiroMeaning.DrainKeeps | internal/provider/kiro/stream.go:137-247 | Invariant of every buffer step: no empty part, the remembered last texts are the last parts, finished calls are pairwise different |
| KiroMeaning.EveryRunConsistent | internal/provider/kiro/stream.go:103-174 | The same holds after any chunks |
| KiroMeaning.TextIsCollapsedContent | internal/provider/kiro/stream.go:176-200 | Text and thinking parts are the texts of their events with repetitions dropped; no other event adds or removes a part |
| KiroMeaning.FragmentedToolCall | internal/provider/kiro/stream.go:200-224 | String fragments of a tool input give the joined, trimmed text if and only if every cut is clean |
| KiroMeaning.FragmentLosesSpace | internal/provider/kiro/stream.go:200-224 | A cut after the space of a two-word value loses the space |
| KiroToolCalls.CallsComeOut | internal/provider/kiro/stream.go:200-247 | The finished calls are exactly the announced ones, in order, without those equal in name and input to an earlier one: a start with its id and name trimmed, its input and all fragments up to a stop, the next start or the end of the stream, and the object decoded from the joined text |
| KiroToolCalls.SentComeOut | internal/provider/kiro/stream.go:200-247 | The same from the sender's side: for calls sent as start, string fragments cut cleanly, and an end, the calls that come out are the ones sent, first ones only |
| KiroToolCalls.FieldsRead | internal/provider/kiro/stream.go:200-270 | What is read of an event: a text only where one is, a stop only where it is true, and an input that is missing, a text, or the encoding of anything else |
| KiroToolCalls.ObjectInput | internal/provider/kiro/stream.go:257-270 | An input sent as an object comes out as that object |
| KiroToolCalls.LargestReported | internal/provider/kiro/stream.go:214-222 | Each usage number is the largest that some usage event reported, zero where none did |
| EventStream.ParseEventHeaders | internal/provider/kiro/stream.go:58-88 | The header loop equals its recursive reading, errors included |
| EventStream.AwsEventReader.Next | internal/provider/kiro/stream.go:30-56 | One frame is taken from the input; a short read is end of file only at a boundary |
| EventStream.CollectCompletion | internal/provider/kiro/stream.go:103-135 | The reading loop returns what the parser holds after all event frames, an open call completed, or fails where a read fails |
| EventStream.FrameRoundTrip | internal/provider/kiro/stream_test.go:57-85 | The frame reader inverts the encoder for lengths below 2^32, whatever follows |
| EventStream.StreamRoundTrip | internal/provider/kiro/stream.go:30-174 | Events concatenated, cut anywhere, framed and mixed with other frames are processed as exactly that list |
| EventStream.TruncatedStream | internal/provider/kiro/stream.go:30-56 | A stream of frames that breaks off anywhere is reported complete if and only if it does so at a seam of the frame it breaks off in, and then exactly the frames before that one are processed |
| KiroCompletion.ExtractThinking | internal/provider/kiro/stream.go:311-322 | The first of the four tags with a pair in order gives what stands between, trimmed |
| KiroCompletion.StripThinkingTags | internal/provider/kiro/stream.go:324-340 | The nested loops cut out the pairs tag by tag, and end |
| KiroCompletion.Complete | internal/provider/kiro/stream.go:103-135 | The completion is built from what the parser holds after the whole stream, or there is none where a read fails |
| KiroCompletion.CompletionOfStream | internal/provider/kiro/stream.go:30-135 | For every list of events in any cut and frames whose content has no tag: the text is the joined content and the thinking the joined thinking, repetitions dropped and trimmed; calls and usage are `KiroCompletion.ToolUsesOfStream` |
| KiroCompletion.ToolUsesOfStream | internal/provider/kiro/stream.go:30-247 | From the bytes of the stream: the tool uses of the completion are the announced calls in order, first ones only, and its usage the largest numbers reported |
| KiroCompletion.SentToolUses | internal/provider/kiro/stream.go:30-247 | From the bytes of the stream: calls that were sent in clean cuts are the tool uses of the completion |
| KiroCompletion.TextArrives | internal/provider/kiro/stream.go:30-135 | One text as JSON in one event in one frame arrives as the text of the completion, trimmed |
| KiroCompletion.TaggedThinking | internal/provider/kiro/stream.go:120-135 | Thinking tagged inside the text becomes the thinking, and the text loses it |
| Models.ChunkText | internal/proxy/shared/response.go:14-25 | The chunk loop equals its recursive reading |
| Models.ChunksJoin | internal/proxy/shared/response.go:14-25 | Chunks join to the text, but for a blank text that fits into one chunk; stream chunks always do |
| Models.RemapIdempotent | internal/proxy/models/validate.go:130-212 | Remapping arguments when an answer is read and again when it is written changes nothing the second time |
| Models.RemapKeepsValues | internal/proxy/models/validate.go:130-212 | A remapped value was an argument, the trimmed single path, or the default directory |
| Models.RemapCarried | internal/proxy/models/validate.go:130-212 | Remapped arguments are carried as JSON if the arguments are |
| Models.RemapMeans | internal/proxy/models/validate.go:130-212 | Which key holds what after remapping, tool by tool: a search gets its pattern from three keys and one path, `read` a file path, `ls` a directory with its default, any other tool a path; every other key is as it was |
| AnthropicStream.ThinkingBlockLifecycle.PrepareForNextBlock | internal/proxy/anthropic/stream.go:75-120 | A thinking block is closed once, with its signature, and the next index follows |
| AnthropicStream.MessageStreamState.StartMessage | internal/proxy/anthropic/stream.go:133-157 | The message starts once |
| AnthropicStream.MessageStreamState.CloseTextBlock | internal/proxy/anthropic/stream.go:198-204 | An open text block is closed once |
| AnthropicStream.MessageStreamState.Complete | internal/proxy/anthropic/stream.go:228-250 | The message ends once, with its stop reason and usage; no block is closed here |
| AnthropicStream.EmitStreamToolCall | internal/proxy/anthropic/execute.go:62-80 | A named call is one block at the next index, an unnamed one nothing; what the block holds is `AnthropicAnswer.StreamDelivers` |
| AnthropicStream.EmitToolCalls | internal/proxy/anthropic/execute.go:46-56 | The calls are consecutive blocks |
| AnthropicStream.StreamAnthropicMessages | internal/proxy/anthropic/execute.go:22-60 | The emitted trace is start, the numbered blocks, delta and stop |
| AnthropicStream.StreamReadsBack | internal/proxy/anthropic/execute.go:22-80 | A strict client accepts every trace, with indices 0, 1, 2, … and never two blocks open, and folds what comes through of it to the content, stop reason and usage, when no piece of visible thinking or text ends inside a rune |
| AnthropicStream.StreamEqualsAnswer | internal/proxy/anthropic/codec.go:560-605 | What is read from the stream is what the non-streamed path answers, if and only if every call is agreeable |
| AnthropicStream.ConvertedStreamEqualsAnswer | internal/proxy/http/execute.go:101-142 | With tool ids given and arguments as the providers' converters set them, stream and answer always agree |
| AnthropicStream.StreamDiffersOnVerticalTab | internal/proxy/anthropic/codec.go:619-625 | A vertical tab before the encoding of {"a": "b"}: the stream sends the object, the answer an empty one |
| AnthropicAnswer.StreamDelivers | internal/proxy/anthropic/execute.go:22-80 | What the strict client reads, from the response alone: visible thinking with its signature, visible text, then the named calls in order, each by its position in the list with trimmed name, trimmed given id or a fresh "toolu_" one, and the remapped decoded arguments; stop reason "tool_use" exactly when there are calls or the provider says so; the two token counts |
| AnthropicAnswer.AnswerDelivers | internal/proxy/anthropic/codec.go:560-653 | The same for the answer without a stream |
| AnthropicAnswer.StreamOpens | internal/proxy/anthropic/execute.go:27-40 | The first event carries an id that marks a message, and the model that was asked for or else the one that answered |
| AnthropicClient.EventDecodes | internal/proxy/anthropic/stream.go:12-250 | The JSON payload of every event decodes to that event |
| AnthropicClient.ClientReceives | internal/proxy/anthropic/execute.go:22-80 | From the bytes of the stream: splitting, decoding and folding them gives the message of `StreamDelivers` |
| ResponsesStream.ChunkStreamText | internal/proxy/codex/stream.go:342-360 | The chunk loop equals its recursive reading |
| ResponsesStream.ResponsesStreamState.EmitTextDelta | internal/proxy/codex/stream.go:168-184 | A text delta opens the message item first, once |
| ResponsesStream.ResponsesStreamState.EmitReasoningDelta | internal/proxy/codex/stream.go:148-166 | A visible reasoning delta claims the message's index |
| ResponsesStream.ResponsesStreamState.CloseMessageItem | internal/proxy/codex/stream.go:186-235 | The message item is closed with its whole text, and with the reasoning unless it is blank |
| ResponsesStream.ResponsesStreamState.EmitFunctionCall | internal/proxy/codex/stream.go:237-297 | A named call is added, spelled and done at the next index |
| ResponsesStream.StreamOpenAIResponses | internal/proxy/codex/execute.go:106-130 | The emitted trace is the one of the response's operations and the completed event |
| ResponsesStream.IndicesIncrease | internal/proxy/codex/stream.go:108-340 | Over arbitrary call sequences the indices of added items strictly increase |
| ResponsesStream.ReadCall | internal/proxy/codex/stream.go:237-297 | The argument deltas of a call concatenate to its arguments |
| ResponsesStream.ItemsRebuilt | internal/proxy/codex/execute.go:106-130 | Every stream whose pieces do not end inside a rune is accepted by the strict client, ids and indices of all deltas matching the open item, and gives the items in order at consecutive indices, blank reasoning left out |
| ResponsesStream.ItemsAsAnswered | internal/proxy/codex/codec.go:654-710 | A strict client rebuilds the items of the non-streamed answer (kind, text, reasoning, call id, name, arguments), at their positions shifted by one exactly when a piece of the thinking is visible, if and only if every named call has an id and no message has blank thinking that is not empty |
| ResponsesStream.VisibleChunk | internal/proxy/codex/stream.go:148-166 | Thinking that is not blank has a visible piece, and only such thinking unless a piece begins inside a character |
| ResponsesStream.BlankThinkingIsLost | internal/proxy/codex/stream.go:186-235 | A line feed as thinking is in the answer and not in the streamed item |
| ResponsesAnswer.OutputAnswers | internal/proxy/codex/codec.go:654-710 | The output of the answer, from the response alone: the message, then the named calls by their position in the list, each with its own id, name and arguments |
| ResponsesAnswer.StreamGets | internal/proxy/codex/execute.go:106-130 | What the strict client gets from the stream, in the same terms, and at which indices |
| ResponsesAnswer.StreamCompletes | internal/proxy/codex/execute.go:106-130 | The last event carries the items of the answer and its text |
| ResponsesAnswer.ReasoningSpelled | internal/proxy/codex/stream.go:148-166 | The reasoning deltas spell the visible pieces of the thinking in order |
| Sse.FramingRoundTrip | internal/proxy/anthropic/stream.go:12-19 | Named events written as SSE are read back in order, for payloads that JSON carries |
| EndpointTester.ExtractStructuredResponse | frontend/src/features/router/utils/endpoint-tester.ts:155-252 | The reader's loops over sections and lines equal their fold, which `ReadBack.AnthropicShows` and `ReadBack.ResponsesShows` evaluate on what the encoders write |
| EndpointTester.BlankShowsNothing | frontend/src/features/router/utils/endpoint-tester.ts:21-26 | Blank ASCII text is sanitised to nothing |
| EndpointTester.SanitizedIs | frontend/src/features/router/utils/endpoint-tester.ts:19-26 | Text in which blocks of the two tags stand, in any number, is shown as what stands outside of them, trimmed and otherwise unchanged |
| EndpointTester.UnclosedStays | frontend/src/features/router/utils/endpoint-tester.ts:19-26 | A tag that is opened and not closed stays, with what follows |
| ReadBack.AnthropicReadBack | frontend/src/features/router/utils/endpoint-tester.ts:155-252 | The reader gets an ASCII response's thinking and text from the Anthropic stream, sanitised as `EndpointTester.SanitizedIs` says, when the ids, names and numbers of the stream are ones that JSON carries |
| ReadBack.AnthropicShows | frontend/src/features/router/utils/endpoint-tester.ts:155-252 | What is shown of the Anthropic stream is thinking and text without their blocks of the two tags, trimmed |
| ReadBack.AnthropicShowsPlain | frontend/src/features/router/utils/endpoint-tester.ts:155-252 | ASCII thinking and text without an opening tag are shown exactly, trimmed |
| ReadBack.ResponsesReadBack | frontend/src/features/router/utils/endpoint-tester.ts:155-252 | The same for the Responses stream |
| ReadBack.ResponsesShows | frontend/src/features/router/utils/endpoint-tester.ts:155-252 | The first of these for the Responses stream |
| ReadBack.ResponsesShowsPlain | frontend/src/features/router/utils/endpoint-tester.ts:155-252 | The second of these for the Responses stream |
| TesterAnswers.AnswerShows | frontend/src/features/router/utils/endpoint-tester.ts:132-153 | What is shown of the answer without a stream is the thinking and text of the response, trimmed, for ASCII ones without an opening tag |
| TesterAnswers.StreamShowsAsAnswer | frontend/src/features/router/utils/endpoint-tester.ts:118-252 | Streamed or not, the reader shows the same of such a response |
| TesterAnswers.ChatShows | frontend/src/features/router/utils/endpoint-tester.ts:254-332 | What is shown of a chat completion with reasoning and content |
| ToolHistory.FilterToolCalls | internal/proxy/anthropic/codec.go:148-190 | The loop over calls keeps the named ones, cleaned, the first of each id |
| ToolHistory.SanitizeToolHistory | internal/proxy/codex/codec.go:467-538 | The message loop with its sets, for both variants |
| ToolHistory.SanitizeIsJudged | internal/proxy/anthropic/codec.go:148-219 | The sets of the loop are what the kept history declares and answers; a result survives exactly when an earlier surviving call declares its id and none answered it yet |
| ToolHistory.SanitizedIsSound | internal/proxy/codex/codec.go:467-538 | Calls are clean with distinct ids, and every tool message answers an id declared before it and not yet answered |
| ToolHistory.SanitizeIdempotent | internal/proxy/codex/codec.go:467-538 | Sanitising twice is sanitising once, also across the two variants |
| HistoryKept.FreshKept | internal/proxy/anthropic/codec.go:148-190 | A named call without an id survives with the next fresh id |
| HistoryKept.OnlyKept | internal/proxy/anthropic/codec.go:148-190 | A named call that is the only one with its id survives with that id, its name and its arguments |
| HistoryKept.NothingEmptyKept | internal/proxy/anthropic/codec.go:148-219 | An assistant message that survives has calls or something visible left, or came without calls |
| HistoryKept.WorthIsKept | internal/proxy/anthropic/codec.go:148-219 | An assistant message that loses calls survives unchanged but for them when it shows anything else |
| Validation.ValidateMessageRules | internal/proxy/models/validate.go:80-128 | The loop equals its definition on declared and seen ids, first error first; the rules one by one are `ValidationRules.ValidateMeans` |
| Validation.SanitizedPasses | internal/proxy/models/validate.go:80-128 | A sanitised conversation is accepted, unless an image lacks its source |
| Conversation.ContentShows | internal/proxy/models/types.go:123-168 | Text is found in a content exactly when it has something visible |
| Conversation.ContentFinds | internal/proxy/models/types.go:170-213 | Images and results are found in a content exactly where they stand |
| ValidationRules.ValidateMeans | internal/proxy/models/validate.go:80-128 | Messages are accepted exactly when each keeps the rules against those before it, and otherwise the error is the first broken rule of the first message that breaks one |
| AnthropicRequest.ConvertContent | internal/proxy/anthropic/codec.go:270-364 | The loop over content blocks equals its fold, block type by block type; what the fold keeps is `RequestMeaning.ListConverted` |
| RequestMeaning.KindsByName | internal/proxy/anthropic/codec.go:270-364 | Which block is of which kind, by the value of its type alone |
| RequestMeaning.StripRemoves | internal/proxy/anthropic/codec.go:498-518 | No `cache_control` is left at any depth |
| RequestMeaning.StripKeeps | internal/proxy/anthropic/codec.go:498-518 | A value without one is unchanged |
| RequestMeaning.ListConverted | internal/proxy/anthropic/codec.go:270-364 | For every content list, in order: the visible texts of its text blocks joined and trimmed, the named calls of an assistant with id, name and encoded input, the results of a user with id, text ("." when blank) and images, thinking and images likewise |
| RequestMeaning.PlainText | internal/proxy/anthropic/codec.go:283-294 | One text block is that text, whatever other fields it has |
| RequestMeaning.PlainCall | internal/proxy/anthropic/codec.go:295-330 | One tool_use block of an assistant is that call, its input encoded without `cache_control` |
| RequestMeaning.PlainResult | internal/proxy/anthropic/codec.go:325-364 | One tool_result block of a user is that result |
| AnthropicRequest.MergeConsecutiveMessages | internal/proxy/anthropic/codec.go:106-135 | The merge loop equals its recursive reading; what merging joins is `RequestMeaning.MergeJoins` |
| AnthropicRequest.MergeIdempotent | internal/proxy/anthropic/codec.go:106-135 | Merging twice is merging once |
| RequestMeaning.MergeJoins | internal/proxy/anthropic/codec.go:106-135 | Merging cuts the messages into runs, one message each: the visible texts joined by a blank line in order, calls and thinking concatenated; a tool message stays alone and no two neighbours could still be merged |
| AnthropicRequest.RequestPassesToolRules | internal/proxy/anthropic/codec.go:15-75 | For every Anthropic request the produced messages pass all tool rules and are rejected exactly when an image has neither data nor URL |
| RequestSurvival.TextSurvives | internal/proxy/anthropic/codec.go:15-75 | Whatever visible text a user or an assistant sent is told, with the thinking that came with it, by a message of that speaker that comes out of the whole conversion |
| RequestSurvival.PlainTextSurvives | internal/proxy/anthropic/codec.go:15-75 | Without thinking of its own, the text is contained whole in the text of such a message |
| RequestSurvival.OutcomeMeans | internal/proxy/anthropic/codec.go:15-75 | The request is refused for a blank model alone, and otherwise exactly when nothing is left of its messages |
| RequestSurvival.SystemSurvives | internal/proxy/anthropic/codec.go:15-75 | A system prompt that is not blank is the first message, trimmed and alone |
| RequestSurvival.CallSurvives | internal/proxy/anthropic/codec.go:15-104 | For every named tool_use block of an assistant, an assistant message calls its id, its own or the next fresh one, at the end of the whole conversion, and with its name and arguments if no other call has that id |
| RequestSurvival.NumbersDiffer | internal/proxy/anthropic/codec.go:77-104 | Blocks without an id of their own get different numbers in the supply of fresh ones |
| Accounts.UpdateAt | internal/config/accounts.go:54-65 | UpdateAccount changes the first account with the id and no other |
| Accounts.TransientCooldownGrows | internal/provider/health.go:13-28 | The back-off grows with the failures, from 10 to 60 seconds |
| Accounts.ReadyStays | internal/account/pool.go:155-172 | A ready account stays ready as time goes on |
| Accounts.ReadyMeans | internal/account/pool.go:155-172 | When an account is ready: nobody has to step in, its cooldown is behind it, and an exhausted quota was reset in all buckets |
| Accounts.OutUntil | internal/account/pool.go:155-172 | Each change keeps a usable account out for as long as it says: a ban or disabling until somebody steps in, a cooldown exactly until it lapses |
| Accounts.FailuresCount | internal/provider/codex/service.go:145-231 | What each change counts, and the quota status it leaves: a cooldown is one more error, a transient one also one more in a row, a ban or a disabling neither; no request and no token is counted |
| Accounts.SuccessCounts | internal/provider/codex/service.go:105-133 | What a success counts and ends, and that it repairs the quota status exactly where the service asks for it and the status was lost |
| Accounts.ReadyAfterSuccess | internal/provider/codex/service.go:105-133 | After a success an enabled account is ready at once, unless an exhausted quota is left unrepaired |
| Pool.LessIsBelow | internal/account/pool.go:174-198 | Both comparison chains are lexicographic orders on three numbers |
| Pool.AccountPool.AvailableAccounts | internal/account/pool.go:72-110 | The counter is bumped, wrapping at 2^64, and the list is rotation, filter and stable sort |
| Pool.AvailableExactly | internal/account/pool.go:72-110 | The list holds exactly the ready accounts of the provider, each as often as it is stored |
| Pool.AvailableDistinct | internal/account/pool.go:72-110 | No account is listed twice |
| Pool.AvailableOrdered | internal/account/pool.go:72-110 | The list is ordered by the mode's comparison and keeps rotation order among ties |
| Pool.TargetMeans | internal/account/pool.go:72-96 | Case and surrounding space of the provider make no difference |
| Pool.StableSortUnique | internal/account/pool.go:98-107 | There is only one such list |
| Pool.AvailabilitySnapshot | internal/account/pool.go:116-144 | The counting loop equals its definition |
| Pool.SnapshotAgrees | internal/account/pool.go:116-144 | The five counters sum to the total, and the list is as long as the ready count |
| Pool.PerformanceFairness | internal/account/pool.go:72-96 | Every window of as many calls as there are ready accounts puts each of them first exactly once, if and only if at most one is ready or all stored accounts are |
| Pool.EveryoneComesFirst | internal/account/pool.go:72-96 | Among as many calls as accounts are stored every ready account comes first |
| BalanceScheduling.SpreadStays | internal/account/pool.go:187-198 | Under balance scheduling the spread of the request counts never exceeds the larger of the first spread and one |
| BalanceScheduling.BalancedShares | internal/provider/codex/service.go:105-133 | From equal counts, after k requests every account has served the floor or the ceiling of k / n |
| Failures.RefreshAsked | internal/provider/codex/runtime_retry.go:210-289 | When a refresh is asked for, as one condition on the attempt; never once auth was recovered |
| Failures.RetryMeans | internal/provider/codex/runtime_retry.go:210-289 | A retry refreshes or excludes, never both, and nothing is excluded after bytes reached the client |
| Failures.ExcludedWhen | internal/provider/codex/runtime_retry.go:210-289 | When an account is excluded, and so when it is left to its cooldown |
| Failures.ClassMeans | internal/provider/health.go:52-83 | Which status and signals mean which failure class, whatever the order of the tests, and what is answered |
| CodexService.FailureSidelines | internal/provider/codex/service.go:180-231 | A failure that does not reject the request takes the account out for good or for a cooldown that lies ahead |
| CodexService.Service.ApplyFailure | internal/provider/codex/service.go:145-231 | The named account gets exactly the state of its failure class, the others and the statistics nothing |
| CodexService.Service.HandleUpstreamFailure | internal/provider/codex/execute.go:385-411 | The classification, which `Failures.ClassMeans` and `CodexService.PlainStatuses` spell out, with the quota cooldown taken from the reply's reset time, reset seconds, or one hour |
| CodexService.Service.NextAccount | internal/provider/codex/runtime_retry.go:197-208 | The first listed account that is not excluded |
| CodexService.Service.TryAccount | internal/provider/codex/execute.go:107-212 | One account is asked at most twice: a 401 or 403 asks for one refresh, and a second time only if that is granted; the last reply settles what becomes of the account and whether the request ends, by its status and signals alone |
| CodexService.Service.Attempt | internal/provider/codex/execute.go:63-228 | One turn: the token is checked, a refused check charges the account like a 401, and otherwise the account is tried |
| CodexService.PlainStatuses | internal/provider/codex/execute.go:385-411 | By the status alone: 400 and 422 end the request with no account changed; 500, 502, 503 and 504 exclude the account with the transient back-off; 429 excludes it until its quota is reset |
| CodexService.Service.Complete | internal/provider/codex/execute.go:63-228 | Every account is picked at most once as long as the clock passes no cooldown that the request sets, and the request then ends within one turn more than there are accounts; every pick is asked at most twice, the request is booked once, success is the last reply and credited to the last pick, and it gives up only when the request is refused or every ready account was picked |
| KiroService.Service.ExecuteWithAccount | internal/provider/kiro/execute.go:20-77 | What asking both endpoints in turn comes to: the first answer, or the failure of the last one with the last status that was seen, whatever failed after it |
| KiroService.Service.Execute | internal/provider/kiro/service.go:87-132 | The pool's list is run through in order, each candidate charged before the next one is asked, up to the first answer; store, counters and answer are those of that run, only the accounts tried have changed, the last one is credited, and the request is booked once |
| KiroService.RunAsks | internal/provider/kiro/service.go:87-132 | A run asks candidates from the front of the list up to and including the first that answers, and all of them only if none does |
| KiroService.CandidateFares | internal/provider/kiro/service.go:87-132 | How one candidate fares, by token check and replies: credited, charged by status and signals, or cooled down for a failed stream, and no other account changes |
| Store.Manager.UpdateAccount | internal/config/accounts.go:54-65 | The loop changes the first account with the id |
| Store.Manager.MarkSuccess | internal/provider/codex/service.go:105-143 | The account and the statistics get the same credit |
| Store.Manager.RecordRequestFailure | internal/provider/codex/service.go:259-266 | One more request, one more failure, nothing else |
| Store.ReadyAfterCheck | internal/provider/codex/execute.go:63-105 | After the check of a token the account is ready exactly when what was found says so, and its entry in the books stays |
| ProxyServer.Server.ExecuteRequest | internal/proxy/http/execute.go:41-98 | While it runs the books are untouched; when it ends, however it does, the request is entered exactly once, by the provider it was routed to: counters and accounts of the other one are untouched, and its answer is earned by a reply |
| ProxyServer.BooksBalance | internal/proxy/http/execute.go:41-98 | Over every run, requests are total = success + failure growth, and tokens and successes of the statistics grow exactly like the sums over the accounts |
| Recovery.StepKeeps | internal/provider/codex/runtime_retry.go:325-383 | Every step of every caller keeps the coordinator's invariant |
| Recovery.OneRefreshPerAccount | internal/provider/codex/runtime_retry.go:337-347 | In every interleaving at most one refresh per account is in flight |
| Recovery.RefreshesBounded | internal/provider/codex/runtime_retry.go:314-323 | At most as many refreshes as the limit are in flight overall |
| Recovery.ConfiguredBound | internal/provider/codex/runtime_retry.go:314-383 | The limit is the configured one, or two where none is |
| Recovery.ClosedIsFinal | internal/provider/codex/runtime_retry.go:351-383 | A done channel is closed once, and after that value and error never change |
| Recovery.NoWaiterIsLeft | internal/provider/codex/runtime_retry.go:337-356 | Every waiter has a closed channel or a leader that will close it |
| Recovery.WaiterGetsWhatWasStored | internal/provider/codex/runtime_retry.go:337-383 | A released waiter has the leader's value and stored error; it is the leader's own error if and only if the refresh failed or the account is usable |
| Recovery.ReturnedMeans | internal/provider/codex/runtime_retry.go:325-383 | What a call that returned was told: a blank id, its own cancellation, or the value of the closed call of its account, with the stored error for a waiter |
| Recovery.RefreshArrives | internal/provider/codex/runtime_retry.go:351-383 | What the refresh returned is what its leader returns and stores, in every run that goes on from there |
| Recovery.NoDeadlock | internal/provider/codex/runtime_retry.go:325-383 | While a call has not returned, somebody can move without a cancelled context |
| Recovery.EveryRunEnds | internal/provider/codex/runtime_retry.go:325-383 | n calls take at most 8n steps, and when nobody can move all have returned |
| ToolNames.BuildToolNameMapping | internal/provider/codex/runtime_types.go:239-273 | The registering loops equal their definition whenever they end |
| ToolNames.RemappedFits | internal/provider/codex/runtime_types.go:275-284 | A remapped registered name has at most maxLen bytes |
| ToolNames.RestoreUndoesRemap | internal/provider/codex/runtime_types.go:286-295 | Restoring undoes remapping if and only if the name was not shortened or its short form is not a registered name |
| ToolNames.RestoreUndoesUnlessIssued | internal/provider/codex/runtime_types.go:275-295 | It does whenever no name equals one of the two short forms |
| ToolNames.RestoreMayNotUndo | internal/provider/codex/runtime_types.go:253-262 | It does not for a long name followed by its own short form |
| ToolNames.RestoreTwice | internal/provider/codex/runtime_types.go:286-295 | Restoring twice is restoring once |
| ToolNames.SecondMappingIsIdentity | internal/provider/codex/execute.go:231 | The mapping built from a remapped request is the identity both ways |
| ToolNames.RegisteringEnds | internal/provider/codex/runtime_types.go:253-259 | A mapping comes out if and only if for every name the guard of the retry loop is false after some number of rounds |
| ToolNames.SettledIsLoop | internal/provider/codex/runtime_types.go:253-259 | The definition settles on a name if and only if the loop ends, and on the one it holds then |
| ToolNames.LoopEndsWhen | internal/provider/codex/runtime_types.go:253-259 | The loop ends exactly when the name fits or one of its two short forms is free |
| ToolNames.RegisteringMayNotEnd | internal/provider/codex/runtime_types.go:253-259 | For a long name behind both its short forms the guard holds after every round |
| ToolNames.SeparatedEnds | internal/provider/codex/runtime_types.go:239-273 | It ends whenever the digest separates the names |
| KiroPayload.ConvertToUnified | internal/provider/kiro/payload.go:320-379 | The loop with its pending results equals its definition |
| KiroPayload.NothingSurvives | internal/provider/kiro/payload.go:320-379 | Nothing comes out exactly when every message is a system or developer one, or a tool message without results and images |
| KiroPayload.MergeAdjacent | internal/provider/kiro/payload.go:393-412 | The merge loop equals its definition |
| KiroPayload.MergedKeepsMatter | internal/provider/kiro/payload.go:381-412 | Merging keeps what is said, in order, and the number of images and results |
| KiroPayload.EnsureAlternating | internal/provider/kiro/payload.go:422-441 | The result alternates, and nothing is inserted exactly when the list already did |
| KiroPayload.PreparedAlternates | internal/provider/kiro/payload.go:414-450 | The merged list starts with a user turn and strictly alternates |
| KiroPayload.PreparedKeepsMatter | internal/provider/kiro/payload.go:320-450 | All that survives is in the prepared list, next to the placeholder for a missing first user turn |
| KiroPayload.SidesKept | internal/provider/kiro/payload.go:320-450 | For each side, in order: its texts with blank lines between them, its images and its results, as many as it had |
| KiroPayload.BuildPayload | internal/provider/kiro/payload.go:445-466 | It fails exactly when no message survives; history, current user turn and at most one dropped assistant turn are the prepared list |
| CodexToml.ReplaceSection | internal/sync/cliconfig/patchers.go:201-232 | The line loop replaces the first section with the header, or adds it |
| CodexToml.PatchCodexToml | internal/sync/cliconfig/patchers.go:153-190 | The patched file, with its filter loop over root lines |
| CodexToml.PatchTwice | internal/sync/cliconfig/patchers.go:153-232 | Patching twice is patching once if and only if no section line of the old file that stays in it keeps a carriage return at its end after "\r\n" was replaced |
| CodexToml.PatchTwiceMayDiffer | internal/sync/cliconfig/patchers.go:201-202 | "\r\r\n" at the end of a section line is a counterexample |
| CodexToml.PatchKeepsSections | internal/sync/cliconfig/patchers.go:201-232 | The lines of all other sections are kept in order, the section between them is the new one |
| CodexToml.PatchKeepsRoot | internal/sync/cliconfig/patchers.go:153-190 | The root is the two new lines and the kept old ones in order |
| CodexToml.ParseSection | internal/sync/cliconfig/patchers.go:243-264 | The reading loop returns the first value of the key inside the section |
| CodexToml.ReadsBack | internal/sync/cliconfig/status.go:200-220 | Base URL and model that were patched in are read back, for non-empty values without quotes, backslashes or line feeds |
| CodexTomlMeaning.SectionSays | internal/sync/cliconfig/patchers.go:172-183 | The new section read setting by setting: its name, wire API, base URL, that it requires authentication, and the model exactly when there is one |
| CodexTomlMeaning.BracketMeans | internal/sync/cliconfig/patchers.go:201-232 | A line starts a section exactly when it is, trimmed, something in brackets |
| CodexTomlMeaning.EscapeReads | internal/sync/cliconfig/patchers.go:53-57 | A TOML reader gets the value back from its escaped form, quotes and backslashes included |
| CodexTomlMeaning.MatchMeans | internal/sync/cliconfig/patchers.go:234-241 | The pattern matches exactly where the key, an equals sign and the value in quotes are spelled, white space between them |
| CodexTomlMeaning.FirstMatch | internal/sync/cliconfig/patchers.go:234-264 | The value is that of the first such line |
| CodexTomlMeaning.RootKeeps | internal/sync/cliconfig/patchers.go:153-170 | Every old root line that stays is in the patched root, but for white space around it |
| CodexTomlMeaning.RootAddsNothing | internal/sync/cliconfig/patchers.go:153-170 | Every root line of the patched file is new, empty, or one that stays |

## Left out

- BraceScan.ObjectEnd: the JSON texts are those the grammar of the module renders; that every text accepted by the library is one of them is not part of this model.
- Models.ChunkText: cuts are at byte offsets, so text is a sequence of bytes and a chunk may end inside a rune; what a client makes of such a chunk is not described, and the reading laws are for streams without one.
- AnthropicStream.StreamReadsBack: strings that are sent in one piece (ids, names, signatures, tool inputs) are compared as they are before encoding, in the stream as in the answer.
- ResponsesStream.ItemsAsAnswered: the same holds of ids, names and the closing texts; item ids, types and the status field are not compared.
- Models.RemapKeepsValues: the source edits the argument map in place; here it is a map value, and sharing of that map with its caller is not modelled.
- ReadBack.ResponsesReadBack: payload fields the reader never looks at are arbitrary, and must not be named like the three it looks at.
- Store.Manager.MarkSuccess: log lines, reasons, summaries and last-checked times of an account are not part of an account here.
- CodexService.Service.Complete: messages are reduced to what the classification finds in them, and the final status to the cases its contract names; while a request runs no other request changes the store.
- CodexService.Service.HandleUpstreamFailure: time is counted in whole seconds.
- BalanceScheduling.SpreadStays: a request ends before the next one picks.
- Pool.PerformanceFairness: windows in which the 64-bit counter wraps are not covered; there the rotation jumps unless the number of accounts divides 2^64.
- Recovery.StepKeeps: a refresh that panics is not modelled; the deferred steps run in their order.
- ToolNames.BuildToolNameMapping: a list of names on which the registering loop does not end is outside its precondition; tool schemas are not modelled.
- KiroPayload.BuildPayload: which tool results a turn carries is not claimed, since the source reuses the slice of pending results after publishing it; only their number is. The system entry, tool documentation and thinking tags of the payload are left out.
- KiroPayload.EnsureAlternating: where it inserts turns into a list that does not alternate is not stated, because such a list never reaches it.
- KiroCompletion.Complete: id, model, signature and thinking source of the record are left out; numbers of usage events are reals.
- EndpointTester.ExtractStructuredResponse: the reader works on characters of its own language, and trims and folds case by their rules; the model is exact for ASCII text.
- ReadBack.AnthropicReadBack: a stream with a number beyond what a decoder's numbers carry, such as a token count above 2^53, is outside its precondition.
- Case folding is ASCII, while the source folds Unicode letters; conversion of large floating-point numbers to integers is not modelled.
- The OpenAI chat and completions streams and their reading back, where the reader trims every chunk.
- Conversion of OpenAI requests, model-name resolution, content classification by error strings, quota payload scraping.
- The background refresh loop of Codex tokens, whose worker outlives its timeout.
- HTTP clients, OAuth and device flows, files, logger, tray, tunnel, user interface and bindings.
