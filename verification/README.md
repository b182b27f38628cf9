# Protocol conversion, verified

This project models the streaming converters of `relaykit/relayconvert` and the driver that chains
them, and proves what they must keep over whole streams. A converter takes an unbounded run of
upstream events (OpenAI Chat chunks, Responses events, Claude events or Gemini parts) and emits the
event grammar of another protocol: it allocates block, item and tool indexes, re-identifies tool
calls, buffers arguments until a call can be started, catches up with authoritative snapshots, and
closes everything once.

Each machine appears twice. A class has the fields of the program's state and methods that update
them in place; every method is proved to emit, and to leave behind, what a step function says. The
run theorems are about that function: they hold for all finite runs without an error, ended by the
finalizer or a terminal event, however they are cut into chunks.

How the files fit together:

- `Basics`, `Text`, `Utf8`, `InsertionSort`: optional values, trimming and decimal printing, UTF-8 as
  Go decodes it (RFC 3629, sections 3 and 4), sorted key lists.
- `ChatDto`, `ResponsesDto`: the parsed events, as far as the machines look at them.
- `Pipeline`: any number of stages of any kind; the driver's interleaving and early return are the
  composition of the stages.
- `ClaudeTrace`: the Claude stream grammar as an automaton, and what acceptance means.
- `ChatToClaude`, with `...Grammar`, `...Tools`, `...Starts`, `...Speech`, and `ClaudeConvertInfo`: Chat
  to Claude.
- `ResponsesToClaude`, with `...Grammar`, `...Delivery`, `...Routing`, `...Starts`, `...State`: Responses
  to Claude.
- `ClaudeToChat` and `ClaudeRoundTrip`: Claude to Chat, and Chat to Claude and back.
- `ToolKeys`, `ResponsesToChat`, with `...Actions`, `...Arguments`, `...Names`, `...Identity`, `...Order`,
  `...State`: Responses to Chat, with its aliased tool keys, pending buffers and sent-argument cursors.
- `ResponsesTrace`, `ChatToResponses`, with `...Lifecycle`, `...State`: Chat to Responses, with hosted
  tools, failure, and the terminal response.
- `RoundTrip`: Chat to Responses and back.
- `PartialArguments`, `ArgumentPath`, `PartialCalls`, `GeminiToolIndexes`: Gemini arguments that arrive
  piece by piece, and the indexes of the calls.
- `ChatToGemini`, with `...Calls`, `...State`: accumulated calls emitted at once.
- `Citations`, `Grounding`, `GroundingStream`: byte offsets to character offsets.
- `GeminiHistory`: ids for Gemini histories that have none.
- `Reasoning`, `ClaudeThinking`, `GeminiThinking`: the reasoning intent, its two carriers, and the
  thinking budgets and levels it is rendered to.
- `Sse`: frames on the wire, along the WHATWG HTML Living Standard, sections 9.2.5 and 9.2.6.

Where a property that one would expect is false of the code, the project proves exactly when it
holds, and where useful names an input:

- An empty Chat stream comes out of Chat to Claude, and out of the finalizer of Chat to Responses,
  without its opening event; `OutputIsComplete` and `OutputLives` say that this is the only case.
- A Responses to Chat snapshot that does not extend what was sent leaves sent and gathered arguments
  apart (`SnapshotSyncs`, at an input `SnapshotIsMissed`).
- A Responses to Claude block is delivered its snapshot once, however often it is repeated, exactly if
  nothing goes beyond it (`SnapshotsDeliverOnce`).
- Responses to Chat makes one tool call for each item exactly if every event about an item that has a
  call carries a name the item is known by, and arguments that wait to the end are all there is of
  their item (`CallsMatchItems`).
- Arguments that reach Responses to Chat before their item wait under the name they carry, and can
  change places when the item takes them over. `ArgumentsComeInOrder` says exactly when a client gets
  them in order, and `AnnouncedIsInOrder` for an item that is announced by all its names at once: when
  an item event carries the whole arguments, or those with an output index came before those without
  (at an input `AsideOrderIsLost`).
- A Chat finish reason survives the trip through Responses exactly when it is length, content_filter,
  tool_calls with calls, or stop without (`FinishIsKept`). It survives the trip through Claude exactly
  when it is one of the four both tables name, or a word neither knows other than the empty one and
  null (`FinishComesBack`, `FinishReasonsComeBack`; at the input null, `NullIsLost`).
- A citation is cut out of the text exactly if the cited text is valid UTF-8 (`SpanIsExact`). Text that
  was decoded from JSON always is, so the condition only matters to callers that build citations
  themselves.
- The comment on `NormalizeGeminiThinkingConfig` promises a config in the dialect of the model;
  rewriting it again is silent except for a budget below -1 and a model that is not in the table,
  which is reported every time (`RewritingIsIdempotent`, `ReportedAgain`).
- That comment names one error, a budget and a level together for a model that is not in the table.
  Rewriting also fails on level words nobody knows and, for most models with levels, on a blank one
  (`NormalizeFails`).
- A manual Claude budget derived from a percentage is that percentage only while the product fits in
  64 bits (`ShareIsExactUnlessWrapped`, `ShareCanWrap`); its bounds hold all the same.
- A bare effort for a Claude model without adaptive thinking is sent as it is, whether the model takes
  it or not (`OutputEffortIsTaken`, `BareEffortIsNotTaken`).
- In a Gemini history without ids responses are matched in order only while none comes before its
  call (`ResponsesAnswerInOrder`, `EarlyResponseIsLost`).
- The writer does not split data at line feeds, and the reader drops carriage returns at the end of a
  line: `ReadInvertsWrite` says which frames survive (`LineFeedIsLost`).

Generated ids are parameters (a function of the block index for Claude tool ids). Strings are
sequences of units; only `Utf8` and the modules on top of it look at bytes. Numbers are unbounded
except where the program's width shows: the 64-bit product of the Claude budget and the limits on
`max_tokens`.

## Model

| member | source | states |
|---|---|---|
| Pipeline.StreamIsComposition | relaykit/relayconvert/response_registry.go:326-403 | For any number of stages and any stages at all, converting chunk by chunk and then finalizing stage by stage gives, values and failures alike, what results from feeding each stage's whole output (chunk outputs, then finalizer outputs) to the next |
| Pipeline.ExecuteConcat | relaykit/relayconvert/response_registry.go:607-631 | Running values through all stages in two portions is running them at once, the states being kept between: interleaving the stages changes nothing |
| Pipeline.ExecuteNothing | relaykit/relayconvert/response_registry.go:625-629 | Nothing in means nothing out and no state changed, so the early return on an empty list is only a shortcut |
| Pipeline.ResponseStream.FeedStage | relaykit/relayconvert/response_registry.go:613-624 | One stage over a list of values, stopping at the first error, moves its state and gathers its outputs as the composition says |
| Pipeline.ResponseStream.ExecuteSteps | relaykit/relayconvert/response_registry.go:607-631 | The driver loop with its early return equals running the values through all remaining stages; the stages before are untouched |
| Pipeline.ResponseStream.ConvertChunk | relaykit/relayconvert/response_registry.go:352-357 | Converting one chunk is executing all stages on it |
| Pipeline.ResponseStream.FinalizeStream | relaykit/relayconvert/response_registry.go:378-402 | Finalizing stage by stage, each finalizer output going through the later stages, yields what the composition prescribes |
| ClaudeTrace.CompleteFrame | relaykit/relayconvert/internal/oai_chat/to_claude_messages_resp.go:111-447 | In a complete Claude stream the first event is the only message_start, the last two are the only message_delta and the only message_stop |
| ClaudeTrace.CompleteBalances | relaykit/relayconvert/internal/oai_chat/to_claude_messages_resp.go:121-127 | In a complete Claude stream every block index is started at most once and stopped exactly as often |
| ClaudeTrace.DeltaInsideBlock | relaykit/relayconvert/internal/oai_chat/to_claude_messages_resp.go:132-136 | Every delta hits a block that was started, is not stopped, and was started with the kind of the delta |
| ClaudeTrace.SignedStop | relaykit/relayconvert/internal/oai_responses/to_claude_messages_stream_resp.go:364-388 | In the signed dialect a stop of a thinking block is preceded by its signature, of another block is not, and a signature is followed right away by the stop of its block |
| ChatToClaudeGrammar.OutputIsComplete | relaykit/relayconvert/internal/oai_chat/to_claude_messages_resp.go:111-447 | The whole output of a Chat stream is a complete Claude message if and only if the stream has a chunk |
| ChatToClaudeTools.FragmentsRouteById | relaykit/relayconvert/internal/oai_chat/to_claude_messages_resp.go:264-286 | Within one tool phase, fragments with ids reach one block exactly when the ids are equal; a fragment without id goes on with the last block at its index, and begins a block that nothing was routed to when there is none |
| ChatToClaudeTools.OutputDeliversTools | relaykit/relayconvert/internal/oai_chat/to_claude_messages_resp.go:247-340 | In the whole output each block that received fragments starts under their first id (or a generated one) and first name and delivers all their arguments in order; a block nobody named never starts and delivers nothing |
| ChatToClaudeStarts.OnlyTouchedToolsStart | relaykit/relayconvert/internal/oai_chat/to_claude_messages_resp.go:247-340 | In the whole output every block that is started as a tool is one that fragments were routed to |
| ChatToClaudeSpeech.OutputSpeaks | relaykit/relayconvert/internal/oai_chat/to_claude_messages_resp.go:341-391 | The non-tool deltas of the output are, in order, for each live chunk its reasoning or else its text, nothing of either when it carries tool calls, and then its citations |
| ChatToClaudeSpeech.OutputStopReason | relaykit/relayconvert/internal/oai_chat/to_claude_messages_resp.go:215-236 | Every output ends with the stop reason of the last finish reason a live chunk carried, end_turn if there was none, and message_stop |
| ClaudeConvertState.ClaudeStreamToolCall.constructor | relaykit/relayconvert/convmeta/meta.go:75-81 | A new record has its block index and nothing else |
| ClaudeConvertState.ClaudeStreamToolCall.Start | relaykit/relayconvert/internal/oai_chat/to_claude_messages_resp.go:59-83 | Emits the block's start and all buffered arguments; the buffer is empty afterwards |
| ClaudeConvertState.ClaudeStreamToolCall.StartIfNamed | relaykit/relayconvert/internal/oai_chat/to_claude_messages_resp.go:48-86 | Starts the block exactly when it is named and not started, generating an id if none came |
| ClaudeConvertState.ClaudeStreamToolCall.Receive | relaykit/relayconvert/internal/oai_chat/to_claude_messages_resp.go:287-335 | Takes over the first id and name, then buffers, starts or forwards the fragment as the routed tool must |
| ClaudeConvertState.ClaudeConvertInfo.constructor | relaykit/relayconvert/convmeta/meta.go:58-70 | A fresh stream state has nothing open |
| ClaudeConvertState.ClaudeConvertInfo.StopOpenBlocks | relaykit/relayconvert/internal/oai_chat/to_claude_messages_resp.go:21-46 | Emits exactly the stops of the started blocks that are open |
| ClaudeConvertState.ClaudeConvertInfo.StartPendingToolBlocks | relaykit/relayconvert/internal/oai_chat/to_claude_messages_resp.go:48-86 | Starts every named tool that is not started, in order, and nothing outside a tool phase |
| ClaudeConvertState.ClaudeConvertInfo.FindTool | relaykit/relayconvert/internal/oai_chat/to_claude_messages_resp.go:270-279 | Finds the record by id, else by index unless that one has another id |
| ClaudeConvertState.ClaudeConvertInfo.RouteTool | relaykit/relayconvert/internal/oai_chat/to_claude_messages_resp.go:270-286 | Finds or appends the record of a delta and makes it the active one at its index |
| ClaudeConvertState.ClaudeConvertInfo.ApplyToolDelta | relaykit/relayconvert/internal/oai_chat/to_claude_messages_resp.go:264-336 | One tool_calls entry changes the records and emits events as the routing and delivery functions say |
| ClaudeConvertState.ClaudeConvertInfo.ApplyToolDeltas | relaykit/relayconvert/internal/oai_chat/to_claude_messages_resp.go:264-340 | All entries of a chunk in order |
| ClaudeConvertState.ClaudeConvertInfo.CloseBlocks | relaykit/relayconvert/internal/oai_chat/to_claude_messages_resp.go:128-131 | Starts what can be started, then stops all that is open |
| ClaudeConvertState.ClaudeConvertInfo.CloseAndAdvance | relaykit/relayconvert/internal/oai_chat/to_claude_messages_resp.go:137-154 | Closes and moves to the first index no block has used |
| ClaudeConvertState.ClaudeConvertInfo.OpenBlock | relaykit/relayconvert/internal/oai_chat/to_claude_messages_resp.go:345-376 | Opens a text or thinking block unless one of the kind is open |
| ClaudeConvertState.ClaudeConvertInfo.EnterTools | relaykit/relayconvert/internal/oai_chat/to_claude_messages_resp.go:249-263 | Begins a tool phase at the first free index unless one is open |
| ClaudeConvertState.ClaudeConvertInfo.ToolPart | relaykit/relayconvert/internal/oai_chat/to_claude_messages_resp.go:247-340 | The tool_calls branch of a chunk |
| ClaudeConvertState.ClaudeConvertInfo.ProsePart | relaykit/relayconvert/internal/oai_chat/to_claude_messages_resp.go:341-390 | The reasoning or else the text of a chunk, as one delta in a block of its kind |
| ClaudeConvertState.ClaudeConvertInfo.CitationPart | relaykit/relayconvert/internal/oai_chat/to_claude_messages_resp.go:155-184 | Citations go to the open text block or to a new one |
| ClaudeConvertState.ClaudeConvertInfo.OpenMessage | relaykit/relayconvert/internal/oai_chat/to_claude_messages_resp.go:185-213 | message_start exactly for the first chunk sent |
| ClaudeConvertState.ClaudeConvertInfo.Conclude | relaykit/relayconvert/internal/oai_chat/to_claude_messages_resp.go:401-412 | Closes everything, then message_delta and message_stop, and marks the stream done |
| ClaudeConvertState.ClaudeConvertInfo.Finishing | relaykit/relayconvert/internal/oai_chat/to_claude_messages_resp.go:393-414 | A finish reason ends the message only once usage is known |
| ClaudeConvertState.ClaudeConvertInfo.StreamResponse | relaykit/relayconvert/internal/oai_chat/to_claude_messages_resp.go:111-418 | One chunk, counted and converted: output and new state are those of the step function the run theorems are about; a done stream emits nothing |
| ClaudeConvertState.ClaudeConvertInfo.Finalize | relaykit/relayconvert/internal/oai_chat/to_claude_messages_resp.go:420-447 | Ends a stream that is not done, and does nothing otherwise |
| ResponsesToClaudeGrammar.OutputIsComplete | relaykit/relayconvert/internal/oai_responses/to_claude_messages_stream_resp.go:82-180 | Every error-free run, the empty one included, ended by a terminal event or the finalizer, comes out as a complete signed Claude message |
| ResponsesToClaudeDelivery.DeltasAreSentValue | relaykit/relayconvert/internal/oai_responses/to_claude_messages_stream_resp.go:311-362 | After every step each block's value is the text it was given, its deltas are that value if it is started and nothing if not, and a non-empty text or thinking block is started |
| ResponsesToClaudeDelivery.OutputDelivers | relaykit/relayconvert/internal/oai_responses/to_claude_messages_stream_resp.go:332-388 | The whole output delivers to every block exactly the text due to it: all it was given, or nothing for a tool never named |
| ResponsesToClaudeDelivery.SnapshotTakesEffect | relaykit/relayconvert/internal/oai_responses/to_claude_messages_stream_resp.go:319-330 | At any point of an error-free stream, a done or item event makes its snapshot the text of the block it is routed to, and what all deltas sent for that block add up to, if and only if the block is open and the text so far (none for a new block) is a prefix of the snapshot; otherwise the text stays |
| ResponsesToClaudeDelivery.TextGrows | relaykit/relayconvert/internal/oai_responses/to_claude_messages_stream_resp.go:311-330 | Whatever events follow in an error-free stream, snapshots and the terminal response included, the text of a block after them extends the text before: nothing is taken back |
| ResponsesToClaudeDelivery.SnapshotsDeliverOnce | relaykit/relayconvert/internal/oai_responses/to_claude_messages_stream_resp.go:311-502 | A block that gets a text as a snapshot before it is closed is delivered exactly that text, whatever items announced empty, partial snapshots and repeats by text.done, item.done and completed came with it, if and only if no delta and no snapshot that is taken goes beyond it; a tool nobody named is delivered nothing |
| ResponsesToClaudeDelivery.EchoesAddNothing | relaykit/relayconvert/internal/oai_responses/to_claude_messages_stream_resp.go:311-502 | A block whose snapshots carry no more than its deltas said before them, the empty ones of an announcement included, and that ends when all was said, is delivered its deltas and nothing more |
| ResponsesToClaudeRouting.EventsShareBlocks | relaykit/relayconvert/internal/oai_responses/to_claude_messages_stream_resp.go:219-268 | When the output index and item id an event carries stand for one item, any two events or terminal output items with a name share a block exactly if they are about one item, if and only if every event carries a name its item was met by; an event without a name goes on with the block of the last event of its kind or begins a new one |
| ResponsesToClaudeStarts.BlocksStart | relaykit/relayconvert/internal/oai_responses/to_claude_messages_stream_resp.go:257-309 | For every error-free run and every block of it: a text or thinking block is started as such; a tool block is started at the first event that stirs it (a snapshot, a delta, its end) once an item has named it, else at the end of the message, under that name and the last call id its items carried by then, or without one the first id of their own, or the item id of its events; never if no item named it |
| ResponsesToClaudeStarts.BlocksStartAsAnnounced | relaykit/relayconvert/internal/oai_responses/to_claude_messages_stream_resp.go:257-309 | So text and thinking blocks are started as such, without condition, and a tool block whose items carry one name and one id (their call id, or without one their own) is started under these if any item announced it, and never otherwise |
| ResponsesToClaudeStarts.OutputStopReason | relaykit/relayconvert/internal/oai_responses/to_claude_messages_stream_resp.go:486-502 | Every output ends with the stop reason of its terminal response: refusal or max_tokens if that is incomplete, else tool_use exactly if a tool block was started |
| ResponsesToClaudeStreamState.ResponsesClaudeStreamBlock.Describe | relaykit/relayconvert/internal/oai_responses/to_claude_messages_stream_resp.go:257-279 | Item identifiers and names that the event carries are taken over, others kept |
| ResponsesToClaudeStreamState.ResponsesToClaudeStreamState.constructor | relaykit/relayconvert/internal/oai_responses/to_claude_messages_stream_resp.go:44-52 | A fresh state has no blocks and has sent nothing |
| ResponsesToClaudeStreamState.ResponsesToClaudeStreamState.FindBlock | relaykit/relayconvert/internal/oai_responses/to_claude_messages_stream_resp.go:242-255 | Finds a block by output index, else by item id, else by the current block of its kind |
| ResponsesToClaudeStreamState.ResponsesToClaudeStreamState.EnsureBlock | relaykit/relayconvert/internal/oai_responses/to_claude_messages_stream_resp.go:219-240 | Finds or appends the block and describes it; null exactly when the item changed its kind |
| ResponsesToClaudeStreamState.ResponsesToClaudeStreamState.EnsureMessageStart | relaykit/relayconvert/internal/oai_responses/to_claude_messages_stream_resp.go:197-217 | message_start once |
| ResponsesToClaudeStreamState.ResponsesToClaudeStreamState.StartBlock | relaykit/relayconvert/internal/oai_responses/to_claude_messages_stream_resp.go:281-309 | Starts a block once, a tool only when it is named |
| ResponsesToClaudeStreamState.ResponsesToClaudeStreamState.FlushBlock | relaykit/relayconvert/internal/oai_responses/to_claude_messages_stream_resp.go:332-362 | Starts the block if possible and sends all of the value that was not sent |
| ResponsesToClaudeStreamState.ResponsesToClaudeStreamState.AppendDelta | relaykit/relayconvert/internal/oai_responses/to_claude_messages_stream_resp.go:94-104 | A delta extends the value, set apart from a finished reasoning part, and is flushed |
| ResponsesToClaudeStreamState.ResponsesToClaudeStreamState.MergeFinalValue | relaykit/relayconvert/internal/oai_responses/to_claude_messages_stream_resp.go:319-330 | A snapshot replaces the value only if it extends it; then it is flushed |
| ResponsesToClaudeStreamState.ResponsesToClaudeStreamState.AppendAnnotations | relaykit/relayconvert/internal/oai_responses/to_claude_messages_stream_resp.go:438-466 | Sends the citations not sent before |
| ResponsesToClaudeStreamState.ResponsesToClaudeStreamState.StopBlock | relaykit/relayconvert/internal/oai_responses/to_claude_messages_stream_resp.go:364-388 | Flushes, signs a thinking block, and stops a started block once |
| ResponsesToClaudeStreamState.ResponsesToClaudeStreamState.ApplyOutputItems | relaykit/relayconvert/internal/oai_responses/to_claude_messages_stream_resp.go:474-485 | The output items of a terminal response in order |
| ResponsesToClaudeStreamState.ResponsesToClaudeStreamState.Conclude | relaykit/relayconvert/internal/oai_responses/to_claude_messages_stream_resp.go:486-500 | Stops all blocks in order and ends the message |
| ResponsesToClaudeStreamState.ResponsesToClaudeStreamState.Finish | relaykit/relayconvert/internal/oai_responses/to_claude_messages_stream_resp.go:468-502 | The terminal snapshot, then the end; nothing if already done |
| ResponsesToClaudeStreamState.ResponsesToClaudeStreamState.ConvertChunk | relaykit/relayconvert/internal/oai_responses/to_claude_messages_stream_resp.go:82-173 | One event: output, error and new state are those of the step function the run theorems are about |
| ResponsesToClaudeStreamState.ResponsesToClaudeStreamState.Finalize | relaykit/relayconvert/internal/oai_responses/to_claude_messages_stream_resp.go:175-180 | Ends a stream that no terminal event ended |
| ToolKeys.RenderInjective | relaykit/relayconvert/internal/oai_responses/to_oai_chat_stream_resp.go:623-642 | Different tool keys are different strings, so keys can be compared as values |
| ToolKeys.Sort | relaykit/relayconvert/internal/oai_responses/to_oai_chat_stream_resp.go:572 | Puts the keys of a set in the order of their strings, each once |
| ResponsesToChatActions.OutputPlays | relaykit/relayconvert/internal/oai_responses/to_oai_chat_stream_resp.go:85-131 | The tool chunks of a whole output are those of the stream's tool events and one final flush |
| ResponsesToChatArguments.IndexesAreDense | relaykit/relayconvert/internal/oai_responses/to_oai_chat_stream_resp.go:347-520 | In every error-free stream, whatever aliases its events use, tool indexes are dense, first appear in order, and every tool is sent |
| ResponsesToChatArguments.NothingStaysPending | relaykit/relayconvert/internal/oai_responses/to_oai_chat_stream_resp.go:551-605 | After the finalizer no argument buffer is left |
| ResponsesToChatArguments.SnapshotSyncs | relaykit/relayconvert/internal/oai_responses/to_oai_chat_stream_resp.go:307-317 | After a snapshot, sent and gathered arguments agree if and only if the snapshot extends what was sent |
| ResponsesToChatArguments.SnapshotIsMissed | relaykit/relayconvert/internal/oai_responses/to_oai_chat_stream_resp.go:307-317 | An item that carries "ab" and later "x" leaves the client with "ab" |
| ResponsesToChatArguments.ArgumentsAreSent | relaykit/relayconvert/internal/oai_responses/to_oai_chat_stream_resp.go:474-520 | After every step of a stream whose snapshots extend what was sent, each cursor is at the end of its arguments and the emitted fragments concatenate to them |
| ResponsesToChatArguments.OutputSendsArguments | relaykit/relayconvert/internal/oai_responses/to_oai_chat_stream_resp.go:522-605 | The same for the whole output, finalizer included |
| ResponsesToChatIdentity.CallsMatchItems | relaykit/relayconvert/internal/oai_responses/to_oai_chat_stream_resp.go:347-472 | In every error-free stream whose events name their items consistently, by output index, item id or call id, there are as many Chat tool calls as items if and only if every event about an item that has a call carries a name the item is known by, and what waits to the end is all there is of its item |
| ResponsesToChatIdentity.ItemsAreSentOnce | relaykit/relayconvert/internal/oai_responses/to_oai_chat_stream_resp.go:307-605 | In such a stream Chat tool calls and items correspond one to one, and each call is sent what its item is given, whatever its snapshots: deltas once the item is known by a name they carry, before that when it becomes known, a snapshot as far as it is longer than what was sent |
| ResponsesToChatOrder.ArgumentsComeInOrder | relaykit/relayconvert/internal/oai_responses/to_oai_chat_stream_resp.go:319-397 | If snapshots also extend what was gathered, each call is sent exactly the arguments received for its item if and only if the last event that brought the item waiting arguments, or replaced them, carried all arguments or added what had waited in the order it came |
| ResponsesToChatOrder.AnnouncedIsInOrder | relaykit/relayconvert/internal/oai_responses/to_oai_chat_stream_resp.go:383-397 | For an item whose first item event gives it every name its deltas use, that is the case if and only if an item event from then on carries arguments, or what was received before it is its deltas with an output index followed by those without |
| ResponsesToChatOrder.AnnouncedArgumentsArrive | relaykit/relayconvert/internal/oai_responses/to_oai_chat_stream_resp.go:319-397 | In the output such an item has one call, which is sent exactly the arguments received if and only if that holds |
| ResponsesToChatOrder.ItemOnlyArgumentsArrive | relaykit/relayconvert/internal/oai_responses/to_oai_chat_stream_resp.go:391-396 | Arguments that come before their item under its id alone are what its one call is sent, as in the test that drains them when the output index arrives |
| ResponsesToChatOrder.AsideOrderIsLost | relaykit/relayconvert/internal/oai_responses/to_oai_chat_stream_resp.go:383-396 | Arguments under the id alone, then some under the output index alone, then the item: the one call of the output is sent the second before the first |
| ResponsesToChatStreamState.ResponsesStreamTool.constructor | relaykit/relayconvert/internal/oai_responses/to_oai_chat_stream_resp.go:38-48 | A new record has its key, index and call id and nothing else |
| ResponsesToChatStreamState.ResponsesStreamTool.Send | relaykit/relayconvert/internal/oai_responses/to_oai_chat_stream_resp.go:474-517 | The next chunk of a tool: what was not sent of its arguments, its name once, or nothing |
| ResponsesToChatStreamState.ResponsesToChatStreamState.constructor | relaykit/relayconvert/internal/oai_responses/to_oai_chat_stream_resp.go:50-63 | A fresh state has no tools and has sent nothing |
| ResponsesToChatStreamState.ResponsesToChatStreamState.FindToolForEvent | relaykit/relayconvert/internal/oai_responses/to_oai_chat_stream_resp.go:410-430 | Finds by output index, else item id, else the key of the item |
| ResponsesToChatStreamState.ResponsesToChatStreamState.LocateTool | relaykit/relayconvert/internal/oai_responses/to_oai_chat_stream_resp.go:359-376 | Finds an item's tool under its key, its item id or its call id |
| ResponsesToChatStreamState.ResponsesToChatStreamState.Attach | relaykit/relayconvert/internal/oai_responses/to_oai_chat_stream_resp.go:383-397 | Makes the event's identifiers lead to the tool and hands over what was kept aside for them |
| ResponsesToChatStreamState.ResponsesToChatStreamState.EnsureToolForEvent | relaykit/relayconvert/internal/oai_responses/to_oai_chat_stream_resp.go:347-408 | Finds or creates the item's tool and describes it |
| ResponsesToChatStreamState.ResponsesToChatStreamState.EnsureFallbackToolForEvent | relaykit/relayconvert/internal/oai_responses/to_oai_chat_stream_resp.go:432-472 | Finds or creates a tool for an event without item |
| ResponsesToChatStreamState.ResponsesToChatStreamState.EnsureStart | relaykit/relayconvert/internal/oai_responses/to_oai_chat_stream_resp.go:158-167 | The opening chunk once |
| ResponsesToChatStreamState.ResponsesToChatStreamState.ToolDelta | relaykit/relayconvert/internal/oai_responses/to_oai_chat_stream_resp.go:474-520 | Sends a tool's next chunk if there is anything to say |
| ResponsesToChatStreamState.ResponsesToChatStreamState.ToolItem | relaykit/relayconvert/internal/oai_responses/to_oai_chat_stream_resp.go:307-317 | A snapshot replaces the gathered arguments, then the tool is sent |
| ResponsesToChatStreamState.ResponsesToChatStreamState.ToolArgumentsDelta | relaykit/relayconvert/internal/oai_responses/to_oai_chat_stream_resp.go:319-334 | A delta goes to its tool or is kept aside |
| ResponsesToChatStreamState.ResponsesToChatStreamState.FlushPendingTool | relaykit/relayconvert/internal/oai_responses/to_oai_chat_stream_resp.go:336-345 | arguments.done sends what its tool has not sent |
| ResponsesToChatStreamState.ResponsesToChatStreamState.FlushAllPendingTools | relaykit/relayconvert/internal/oai_responses/to_oai_chat_stream_resp.go:551-605 | Every key in string order gets its buffered arguments and is sent |
| ResponsesToChatStreamState.ResponsesToChatStreamState.TerminalOutputChunks | relaykit/relayconvert/internal/oai_responses/to_oai_chat_stream_resp.go:182-222 | Output items of the terminal response: tools again, text and reasoning only if none was streamed |
| ResponsesToChatStreamState.ResponsesToChatStreamState.TextDelta | relaykit/relayconvert/internal/oai_responses/to_oai_chat_stream_resp.go:169-180 | Text is passed on as it comes |
| ResponsesToChatStreamState.ResponsesToChatStreamState.ReasoningDelta | relaykit/relayconvert/internal/oai_responses/to_oai_chat_stream_resp.go:283-305 | Reasoning parts are set apart |
| ResponsesToChatStreamState.ResponsesToChatStreamState.Finalize | relaykit/relayconvert/internal/oai_responses/to_oai_chat_stream_resp.go:522-549 | Flushes, opens if nothing was sent, and gives one finish reason; a second call does nothing |
| ResponsesToChatStreamState.ResponsesToChatStreamState.ConvertEvent | relaykit/relayconvert/internal/oai_responses/to_oai_chat_stream_resp.go:85-131 | One event: output, error and new state are those of the step function the run theorems are about |
| ResponsesTrace.CompleteFrame | relaykit/relayconvert/internal/oai_chat/to_oai_responses_stream_resp.go:356-383 | In a complete Responses stream response.created is first and only once and one terminal event is last |
| ResponsesTrace.ItemsLive | relaykit/relayconvert/internal/oai_chat/to_oai_responses_stream_resp.go:538-700 | The k-th added item has output index k, is done exactly once after it was added, and is the k-th item of the terminal response |
| ResponsesTrace.AboutAnnounced | relaykit/relayconvert/internal/oai_chat/to_oai_responses_stream_resp.go:392-536 | Every event about an item comes after the item was added |
| ChatToResponsesLifecycle.OutputLives | relaykit/relayconvert/internal/oai_chat/to_oai_responses_stream_resp.go:119-383 | With a stream id, every run of chunks and hosted calls ended by Fail is complete, and one ended by Finalize is complete if and only if there was any input |
| ChatToResponsesStreamState.ChatToResponsesStreamState.constructor | relaykit/relayconvert/internal/oai_chat/to_oai_responses_stream_resp.go:92-104 | A fresh state has announced nothing |
| ChatToResponsesStreamState.ChatToResponsesStreamState.NextIndex | relaykit/relayconvert/internal/oai_chat/to_oai_responses_stream_resp.go:688-693 | Allocates the next output index and records the item in order |
| ChatToResponsesStreamState.ChatToResponsesStreamState.EnsureCreated | relaykit/relayconvert/internal/oai_chat/to_oai_responses_stream_resp.go:356-365 | response.created once |
| ChatToResponsesStreamState.ChatToResponsesStreamState.StartText | relaykit/relayconvert/internal/oai_chat/to_oai_responses_stream_resp.go:405-422 | Announces the message item once |
| ChatToResponsesStreamState.ChatToResponsesStreamState.AppendTextDelta | relaykit/relayconvert/internal/oai_chat/to_oai_responses_stream_resp.go:392-403 | Text is gathered and passed on |
| ChatToResponsesStreamState.ChatToResponsesStreamState.AppendAnnotationDelta | relaykit/relayconvert/internal/oai_chat/to_oai_responses_stream_resp.go:424-447 | Annotations are gathered and passed on, or an error if malformed |
| ChatToResponsesStreamState.ChatToResponsesStreamState.StartReasoning | relaykit/relayconvert/internal/oai_chat/to_oai_responses_stream_resp.go:451-464 | Announces the reasoning item once |
| ChatToResponsesStreamState.ChatToResponsesStreamState.AppendReasoningDelta | relaykit/relayconvert/internal/oai_chat/to_oai_responses_stream_resp.go:449-474 | Reasoning is gathered and passed on |
| ChatToResponsesStreamState.ChatToResponsesStreamState.AnnounceCall | relaykit/relayconvert/internal/oai_chat/to_oai_responses_stream_resp.go:482-509 | Announces the call at a Chat index unless it is known |
| ChatToResponsesStreamState.ChatToResponsesStreamState.AppendToolCallDelta | relaykit/relayconvert/internal/oai_chat/to_oai_responses_stream_resp.go:476-536 | A fragment fills its call, or fails if the call is done or changes its id or name |
| ChatToResponsesStreamState.ChatToResponsesStreamState.CloseText | relaykit/relayconvert/internal/oai_chat/to_oai_responses_stream_resp.go:541-558 | Completes the message item once |
| ChatToResponsesStreamState.ChatToResponsesStreamState.CloseReasoning | relaykit/relayconvert/internal/oai_chat/to_oai_responses_stream_resp.go:559-581 | Completes the reasoning item once |
| ChatToResponsesStreamState.ChatToResponsesStreamState.SortedTools | relaykit/relayconvert/internal/oai_chat/to_oai_responses_stream_resp.go:702-713 | The calls in the order of their Chat indexes, each once |
| ChatToResponsesStreamState.ChatToResponsesStreamState.CloseCalls | relaykit/relayconvert/internal/oai_chat/to_oai_responses_stream_resp.go:582-602 | Completes every open call in that order |
| ChatToResponsesStreamState.ChatToResponsesStreamState.CloseHosted | relaykit/relayconvert/internal/oai_chat/to_oai_responses_stream_resp.go:603-635 | Completes hosted calls the provider left open, as incomplete or failed |
| ChatToResponsesStreamState.ChatToResponsesStreamState.DoneDeltaEvents | relaykit/relayconvert/internal/oai_chat/to_oai_responses_stream_resp.go:538-637 | Completes everything announced |
| ChatToResponsesStreamState.ChatToResponsesStreamState.ApplyFinishReason | relaykit/relayconvert/internal/oai_chat/to_oai_responses_stream_resp.go:639-644 | The finish reason sets the status |
| ChatToResponsesStreamState.ChatToResponsesStreamState.ApplyChoices | relaykit/relayconvert/internal/oai_chat/to_oai_responses_stream_resp.go:327-352 | The choices of a chunk in order, up to the first error |
| ChatToResponsesStreamState.ChatToResponsesStreamState.ConvertChunk | relaykit/relayconvert/internal/oai_chat/to_oai_responses_stream_resp.go:309-354 | One chunk: output, error and new state are those of the step function the run theorem is about |
| ChatToResponsesStreamState.ChatToResponsesStreamState.StartHostedTool | relaykit/relayconvert/internal/oai_chat/to_oai_responses_stream_resp.go:119-208 | Announces a hosted call, or fails |
| ChatToResponsesStreamState.ChatToResponsesStreamState.CompleteHostedTool | relaykit/relayconvert/internal/oai_chat/to_oai_responses_stream_resp.go:210-272 | Completes a hosted call, announcing it first if need be, or fails |
| ChatToResponsesStreamState.ChatToResponsesStreamState.FinalResponse | relaykit/relayconvert/internal/oai_chat/to_oai_responses_stream_resp.go:646-675 | The terminal response holds the items in the order of their output indexes |
| ChatToResponsesStreamState.ChatToResponsesStreamState.Finalize | relaykit/relayconvert/internal/oai_chat/to_oai_responses_stream_resp.go:367-383 | Completes what is open and sends the terminal event once |
| ChatToResponsesStreamState.ChatToResponsesStreamState.Fail | relaykit/relayconvert/internal/oai_chat/to_oai_responses_stream_resp.go:277-307 | Completes what is open as failed and sends response.failed once |
| RoundTrip.StreamComesBack | relaykit/relayconvert/internal/oai_chat/to_oai_responses_stream_resp.go:309-383 | A single-choice Chat stream whose calls are introduced under distinct trimmed ids with names and in which nothing follows the finish reason comes back from Chat to Responses to Chat with the same text, reasoning and ordered calls (id, name, arguments) and one finish reason |
| RoundTrip.FinishIsKept | relaykit/relayconvert/internal/oai_responses/to_oai_chat_stream_resp.go:531-536 | That finish reason is the original one if and only if it is length or content_filter, or tool_calls with calls, or stop without |
| ClaudeToChat.ToolsAreDenseAndConserved | relaykit/relayconvert/internal/claude_messages/to_oai_chat_resp.go:139-207 | Over every error-free run the tool blocks get the tool indexes 0, 1, 2 by first appearance, and the parts emitted at each index add up to what was sent for its block; no other index is used |
| ClaudeToChat.ClaudeToChatStreamState.constructor | relaykit/relayconvert/internal/claude_messages/to_oai_chat_resp.go:132-137 | A fresh state knows no block |
| ClaudeToChat.ClaudeToChatStreamState.ConvertChunk | relaykit/relayconvert/internal/claude_messages/to_oai_chat_resp.go:139-207 | One event: output, error and new state are those of the step function; an error leaves the state alone |
| ClaudeRoundTrip.AcceptedConverts | relaykit/relayconvert/internal/claude_messages/to_oai_chat_resp.go:181-199 | A stream in the Claude grammar is never refused |
| ClaudeRoundTrip.TraceToolsArrive | relaykit/relayconvert/internal/claude_messages/to_oai_chat_resp.go:34-121 | In a stream of the Claude grammar the k-th tool block comes out at index k with its id, name and whole arguments, and nothing else at any index |
| ClaudeRoundTrip.ToolsComeBack | relaykit/relayconvert/internal/claude_messages/to_oai_chat_resp.go:153-206 | Chat to Claude to Chat: the calls that come back are exactly those ever named, each once, numbered in the order in which their blocks are started, each with its id (or the generated one), name and all fragments in order, and no other index holds anything |
| ClaudeRoundTrip.SpeechArrives | relaykit/relayconvert/internal/claude_messages/to_oai_chat_resp.go:75-101 | The text and the reasoning of a Claude stream come out in order and complete, a signature as a line break |
| ClaudeRoundTrip.SpeechComesBack | relaykit/relayconvert/internal/claude_messages/to_oai_chat_resp.go:34-121 | Chat to Claude to Chat keeps the text and reasoning the first converter speaks |
| ClaudeRoundTrip.FinishReasonsComeBack | relaykit/relayconvert/internal/claude_messages/to_oai_chat_resp.go:102-108 | Chat to Claude to Chat: the finish reasons the client is given are one, the last live one through both tables, or none when that is null |
| ClaudeRoundTrip.FinishComesBack | relaykit/reasonmap/reasonmap.go:9-46 | Chat to Claude to Chat: the client is given the finish reason of the stream and no other if and only if it is stop, length, content_filter or tool_calls, or is a word that neither table knows, not empty and not null |
| ClaudeRoundTrip.NullIsLost | relaykit/relayconvert/internal/claude_messages/to_oai_chat_resp.go:105-107 | A stream that ends with the finish reason null, which neither table knows, gives the client no finish reason |
| PartialArguments.SetSucceeds | relaykit/relayconvert/internal/gemini_chat/to_oai_chat_resp.go:653-699 | A set succeeds if and only if every step of the path finds nothing or a container of its kind |
| PartialArguments.SetThenGet | relaykit/relayconvert/internal/gemini_chat/to_oai_chat_resp.go:653-662 | The path reads back the new value, or the old string with the fragment appended |
| PartialArguments.SetKeepsOthers | relaykit/relayconvert/internal/gemini_chat/to_oai_chat_resp.go:663-699 | Every path that is neither a prefix nor an extension reads what it did, absent and null being one |
| PartialArguments.SetsCommute | relaykit/relayconvert/internal/gemini_chat/to_oai_chat_resp.go:653-699 | Sets at independent paths commute, failures included |
| PartialArguments.PathGathers | relaykit/relayconvert/internal/gemini_chat/to_oai_chat_resp.go:517-535 | After any number of updates a path that none crosses holds what its own updates gather in order |
| PartialArguments.ArgumentsStayObject | relaykit/relayconvert/internal/gemini_chat/to_oai_chat_resp.go:530-534 | Updates below the root keep an object an object, so the replaced-arguments error is unreachable |
| ArgumentPath.ScanMember | relaykit/relayconvert/internal/gemini_chat/to_oai_chat_resp.go:555-560 | The scan for the end of a dot member |
| ArgumentPath.ScanDigits | relaykit/relayconvert/internal/gemini_chat/to_oai_chat_resp.go:587-590 | The scan over the digits of an index |
| ArgumentPath.ScanQuoted | relaykit/relayconvert/internal/gemini_chat/to_oai_chat_resp.go:628-646 | The scan for the closing quote of a quoted member |
| ArgumentPath.ScanSelector | relaykit/relayconvert/internal/gemini_chat/to_oai_chat_resp.go:554-609 | One turn of the parser loop |
| ArgumentPath.ParsePath | relaykit/relayconvert/internal/gemini_chat/to_oai_chat_resp.go:547-611 | The offset loop gives what the recursive grammar gives, and ends |
| ArgumentPath.ParseInvertsPrint | relaykit/relayconvert/internal/gemini_chat/to_oai_chat_resp.go:547-611 | Printing a path of plain dot members and array indexes after $ and parsing it gives it back; a path with an index above 4095 is refused |
| ArgumentPath.ParsedIsIndexable | relaykit/relayconvert/internal/gemini_chat/to_oai_chat_resp.go:321-321 | No parsed path is empty or has a larger index, whatever was parsed |
| PartialCalls.PartialToolCalls.constructor | relaykit/relayconvert/internal/gemini_chat/to_oai_chat_resp.go:323-340 | No call is open at first |
| PartialCalls.PartialToolCalls.AppendPartialFunctionCall | relaykit/relayconvert/internal/gemini_chat/to_oai_chat_resp.go:499-545 | One part of a call: kept, completed or refused, the other candidates untouched |
| PartialCalls.PartialToolCalls.AddOne | relaykit/relayconvert/internal/gemini_chat/to_oai_chat_resp.go:517-535 | One partial argument is applied, skipped or refused |
| PartialCalls.PartsMakeOneCall | relaykit/relayconvert/internal/gemini_chat/to_oai_chat_resp.go:473-545 | A call in any number of parts is completed by its last part with all updates applied in order to an empty object, and other candidates are left alone |
| PartialCalls.PartsAgreeOnId | relaykit/relayconvert/internal/gemini_chat/to_oai_chat_resp.go:505-516 | Every part of a completed call names no id and name or those of the call |
| GeminiToolIndexes.IndexesFollowIds | relaykit/relayconvert/internal/gemini_chat/to_oai_chat_resp.go:381-403 | Over a whole stream, within each candidate tool indexes are dense and first appear in order, and two calls share an index if and only if they carry the same non-empty id |
| GeminiToolIndexes.ToolIndexes.constructor | relaykit/relayconvert/internal/gemini_chat/to_oai_chat_resp.go:323-340 | No index is given at first |
| GeminiToolIndexes.ToolIndexes.StableIndex | relaykit/relayconvert/internal/gemini_chat/to_oai_chat_resp.go:387-402 | A call gets the index of its id within its candidate, or the next one, and the maps remember it |
| ChatToGeminiCalls.FragmentsRoute | relaykit/relayconvert/internal/oai_chat/to_gemini_chat_resp.go:401-448 | Within a choice, fragments with ids go to one tool exactly when the ids are equal, others go on with the tool last active at their index or begin a new one when there is none, and tools are numbered by first appearance |
| ChatToGeminiCalls.OutputShows | relaykit/relayconvert/internal/oai_chat/to_gemini_chat_resp.go:232-377 | In every stream that is finalized without error each choice shows its text, each accumulated call exactly once and whole in order of first appearance, and exactly one finish reason |
| ChatToGeminiCalls.OutputEnds | relaykit/relayconvert/internal/oai_chat/to_gemini_chat_resp.go:294-303 | Each seen choice ends with its own first finish reason in Gemini's terms, or with STOP if it had none, and with no other |
| ChatToGeminiCalls.FinalizerEndsInOrder | relaykit/relayconvert/internal/oai_chat/to_gemini_chat_resp.go:330-365 | The finalizer ends exactly the choices that appeared and had no finish reason, one candidate each with STOP, in strictly increasing order of their indexes |
| ChatToGeminiCalls.DeadErrors | relaykit/relayconvert/internal/oai_chat/to_gemini_chat_resp.go:401-448 | The errors for a changed id and for data after completion inside appendToolCallDelta are unreachable |
| ChatToGeminiStreamState.ChatToGeminiStreamState.constructor | relaykit/relayconvert/internal/oai_chat/to_gemini_chat_resp.go:41-49 | A fresh state has seen no choice |
| ChatToGeminiStreamState.ChatToGeminiStreamState.AppendToolCallDelta | relaykit/relayconvert/internal/oai_chat/to_gemini_chat_resp.go:401-448 | A fragment is routed and gathered, or refused |
| ChatToGeminiStreamState.ChatToGeminiStreamState.AppendToolCallDeltas | relaykit/relayconvert/internal/oai_chat/to_gemini_chat_resp.go:274-281 | The fragments of a choice in order, up to the first error |
| ChatToGeminiStreamState.ChatToGeminiStreamState.FinishChoice | relaykit/relayconvert/internal/oai_chat/to_gemini_chat_resp.go:450-474 | All pending calls at once, or an error and none of them |
| ChatToGeminiStreamState.ChatToGeminiStreamState.ConvertChoice | relaykit/relayconvert/internal/oai_chat/to_gemini_chat_resp.go:263-306 | One choice of a chunk on the records of its index |
| ChatToGeminiStreamState.ChatToGeminiStreamState.ConvertChunk | relaykit/relayconvert/internal/oai_chat/to_gemini_chat_resp.go:232-320 | One chunk: candidates, error and new state are those of the step function the run theorems are about |
| ChatToGeminiStreamState.ChatToGeminiStreamState.UnfinishedChoices | relaykit/relayconvert/internal/oai_chat/to_gemini_chat_resp.go:329-347 | The choices that still have to end, each once |
| ChatToGeminiStreamState.ChatToGeminiStreamState.Finalize | relaykit/relayconvert/internal/oai_chat/to_gemini_chat_resp.go:324-377 | Ends every choice left, in the order of the indexes; a second call does nothing |
| InsertionSort.SortedMembers | relaykit/relayconvert/internal/oai_chat/to_gemini_chat_resp.go:347 | Sorting keeps the members |
| InsertionSort.SortedDistinct | relaykit/relayconvert/internal/oai_chat/to_gemini_chat_resp.go:347 | Sorting repeats nothing |
| InsertionSort.SortedIncreases | relaykit/relayconvert/internal/oai_chat/to_gemini_chat_resp.go:347 | A sorted list without repetition increases strictly |
| Utf8.EncodeInvertsRunes | relaykit/relayconvert/internal/oai_chat/citations.go:65-66 | Encoding the runes of a byte string gives it back if and only if it is valid UTF-8 |
| Utf8.RunesAfterValid | relaykit/relayconvert/internal/claude_messages/to_oai_chat_resp.go:256-258 | Rune decoding is additive after valid text |
| Utf8.RunesAtBoundary | relaykit/relayconvert/internal/claude_messages/citations.go:33-36 | Rune decoding is additive, valid or not, wherever the second part does not begin with a continuation byte |
| Utf8.IndexIsFirst | relaykit/relayconvert/internal/gemini_chat/grounding.go:345 | The search finds the first occurrence, and none only if there is none |
| Utf8.SelfSynchronising | relaykit/relayconvert/internal/gemini_chat/grounding.go:345-351 | Valid text occurs in valid text only between two characters |
| Citations.ClaudeCitationsToChat | relaykit/relayconvert/internal/claude_messages/citations.go:12-51 | The citations of a block as annotations, those without url dropped |
| Citations.ConvertText | relaykit/relayconvert/internal/claude_messages/to_oai_chat_resp.go:252-264 | The loop with its running offset gives the text of all blocks and each block's annotations at the offset of the blocks before it |
| Citations.ChatAnnotationsToClaude | relaykit/relayconvert/internal/oai_chat/citations.go:11-54 | Url annotations as citations, the cited text taken from the indexes when it is not given |
| Citations.OffsetIsCount | relaykit/relayconvert/internal/claude_messages/to_oai_chat_resp.go:256-258 | Over valid blocks the running offset is the rune count of the text so far |
| Citations.SpanIsExact | relaykit/relayconvert/internal/claude_messages/citations.go:30-38 | Cutting the whole text at the computed indexes gives the cited text if and only if the cited text is valid UTF-8, whatever the block and the later text are, after valid earlier text |
| Citations.CitationsComeBack | relaykit/relayconvert/internal/oai_chat/citations.go:56-67 | With the copies of the cited text dropped, the indexes alone bring all citations of a message back |
| Grounding.LocateRenderedGeminiParts | relaykit/relayconvert/internal/gemini_chat/grounding.go:335-354 | Every text part is found at its first occurrence at or after the end of the last part found, and not found only if there is none |
| Grounding.LocatedInOrder | relaykit/relayconvert/internal/gemini_chat/grounding.go:335-354 | Located parts equal their slices of the rendered text and stand in order without overlapping |
| Grounding.GroundingRangeIsExact | relaykit/relayconvert/internal/gemini_chat/grounding.go:356-367 | A range is computed if and only if the request begins and ends between characters, and then it cuts exactly the requested bytes of the part out of the rendered text |
| GroundingStream.RangeStaysExact | relaykit/relayconvert/internal/gemini_chat/grounding.go:264-283 | A range found in a stream cuts exactly the requested bytes out of the rendered text, and still does whatever is rendered later |
| GroundingStream.PieceRangeIsFound | relaykit/relayconvert/internal/gemini_chat/grounding.go:257-283 | When all pieces are whole characters, every request between characters inside one rendered piece is answered |
| GroundingStream.GroundingStreamCandidate.constructor | relaykit/relayconvert/internal/gemini_chat/grounding.go:137-139 | Nothing is rendered at first |
| GroundingStream.GroundingStreamCandidate.AppendContent | relaykit/relayconvert/internal/gemini_chat/grounding.go:141-179 | Records where each piece of each part is rendered; every span stays true and in order, and whole if all pieces are |
| GroundingStream.GroundingStreamCandidate.GroundingPartIndex | relaykit/relayconvert/internal/gemini_chat/grounding.go:229-246 | The named part if it was rendered, or the only rendered part, in whatever order the map is visited |
| GroundingStream.GroundingStreamCandidate.GroundingRuneRange | relaykit/relayconvert/internal/gemini_chat/grounding.go:248-284 | The loop over the spans; the range is exact for good, and found for every request inside one whole piece |
| GeminiHistory.MadeUpIdsAreNew | relaykit/relayconvert/internal/gemini_chat/to_oai_chat_req.go:226-291 | Over a whole history no id is made up twice and none is an explicit id of any part anywhere |
| GeminiHistory.FreeNumber | relaykit/relayconvert/internal/gemini_chat/to_oai_chat_req.go:281-291 | The id search ends, by the finite set of reserved ids, at the least free number |
| GeminiHistory.ResponsesAnswerInOrder | relaykit/relayconvert/internal/gemini_chat/to_oai_chat_req.go:255-269 | In a history without ids the k-th response of a function gets the id of its k-th call if and only if responses never outrun calls of that function; a nameless response counts for the function whose call has waited longest |
| GeminiHistory.EarlyResponseIsLost | relaykit/relayconvert/internal/gemini_chat/to_oai_chat_req.go:255-269 | A response before its call gets call_1 and the call then gets call_2 |
| GeminiHistory.FunctionCallHistory.constructor | relaykit/relayconvert/internal/gemini_chat/to_oai_chat_req.go:226-244 | Reserves exactly the explicit ids of all parts |
| GeminiHistory.FunctionCallHistory.NewFallbackID | relaykit/relayconvert/internal/gemini_chat/to_oai_chat_req.go:281-291 | The loop gives the least free id from the counter on, reserves it and moves past it |
| GeminiHistory.FunctionCallHistory.Add | relaykit/relayconvert/internal/gemini_chat/to_oai_chat_req.go:246-253 | A call gets its id or a made-up one and is pending |
| GeminiHistory.FunctionCallHistory.Match | relaykit/relayconvert/internal/gemini_chat/to_oai_chat_req.go:255-269 | A response gets its id, that of the first pending call it may answer, or a made-up one |
| GeminiHistory.FunctionCallHistory.RemovePendingByID | relaykit/relayconvert/internal/gemini_chat/to_oai_chat_req.go:271-279 | Removes the first pending call with the id |
| GeminiHistory.ConvertCalls | relaykit/relayconvert/internal/gemini_chat/to_oai_chat_req.go:73-149 | The ids that all calls and responses of a request leave with |
| Reasoning.NormalIsFixpoint | relaykit/relayconvert/reasoning/intent.go:153-209 | Normalizing leaves exactly the intents whose controls agree alone, and reports nothing about them |
| Reasoning.NormalizeIsIdempotent | relaykit/relayconvert/reasoning/intent.go:153-209 | Normalizing succeeds exactly on known words; its result is normal and normalizing again changes and reports nothing |
| Reasoning.StrongestControlDecides | relaykit/relayconvert/reasoning/intent.go:149-152 | A budget decides before an effort and effort none before a mode; what decided is kept |
| Reasoning.EffectiveEffortMeans | relaykit/relayconvert/reasoning/intent.go:654-672 | A normal intent has an effective effort exactly if it has strength, and none exactly if thinking is off |
| Reasoning.PrimaryWins | relaykit/relayconvert/reasoning/intent.go:290-352 | The merge is normal and keeps what the primary states |
| Reasoning.SuffixWins | relaykit/relayconvert/reasoning/intent.go:217-281 | The model name decides on or off and any strength it states, a bare enable takes its strength from the fields, and the result is normal |
| Reasoning.ChatRouteIsExact | relaykit/relayconvert/reasoning/intent.go:361-475 | Applying an intent to a Chat request and reading it back gives exactly its normalized mode, effort, budget and visibility without a report |
| Reasoning.ResponsesRouteIsExact | relaykit/relayconvert/reasoning/intent.go:480-555 | The Responses route keeps mode, effort and budget exactly; an unset visibility flag becomes true exactly when thinking is asked for, and no other changes |
| Reasoning.GeneralOpenAIRequest.ApplyToOpenAIChat | relaykit/relayconvert/reasoning/intent.go:452-475 | Writes the effort and the state of the normal form, or nothing and an error |
| Reasoning.OpenAIResponsesRequest.ApplyToOpenAIResponses | relaykit/relayconvert/reasoning/intent.go:480-511 | Writes the reasoning member and the state of the normal form, or nothing and an error |
| ClaudeThinking.ManualBudgetInBounds | relaykit/relayconvert/reasoning/claude.go:236-284 | Every manual budget is at least 1024 and below the max_tokens that goes out, even where the multiplication wraps; max_tokens is raised exactly when missing or at most 1024 |
| ClaudeThinking.RequestedBudgetIsKept | relaykit/relayconvert/reasoning/claude.go:236-278 | For every request with a budget that is rendered to manual thinking, the budget is kept exactly when within the bounds, else moved to the nearest one, and the change is reported exactly then; raising max_tokens makes room for any budget below a thousand million |
| ClaudeThinking.ShareIsExactUnlessWrapped | relaykit/relayconvert/reasoning/claude.go:279-283 | For every request without a budget, or with a dynamic one, that is rendered to manual thinking, the budget is the percentage of max_tokens that its effort stands for, at least 1024, if and only if the product fits in 64 bits |
| ClaudeThinking.ShareCanWrap | relaykit/relayconvert/reasoning/claude.go:279-283 | High effort, 80 percent, of the largest max_tokens is rendered to a budget of 1024 |
| ClaudeThinking.NormalizedEffortIsTaken | relaykit/relayconvert/reasoning/claude.go:345-363 | The effort table moves every effort to one the model takes and leaves exactly those alone |
| ClaudeThinking.OutputEffortIsTaken | relaykit/relayconvert/reasoning/claude.go:126-313 | For every request, the effort sent is one the model takes if and only if it is not the case that an effort the model does not take is given alone, without mode or budget, for a model without adaptive thinking |
| ClaudeThinking.BareEffortIsNotTaken | relaykit/relayconvert/reasoning/claude.go:126-313 | The effort max alone is sent as it is to a model that does not take it |
| ClaudeThinking.ThinkingSuitsModel | relaykit/relayconvert/reasoning/claude.go:35-313 | The form of thinking rendered is one the model's capabilities allow |
| GeminiThinking.LevelIsTaken | relaykit/relayconvert/reasoning/gemini.go:492-521 | The level table moves every effort to a level the model takes and leaves those alone |
| GeminiThinking.RenderIsNative | relaykit/relayconvert/reasoning/gemini.go:72-213 | Every rendered config is in the model's dialect: a budget is -1, or 0 where thinking can be turned off, or within the model's range; levels are ones the model takes |
| GeminiThinking.RenderLabelFits | relaykit/relayconvert/reasoning/gemini.go:115-212 | The effort reported with a rendered config is that of its budget or its level |
| GeminiThinking.NormalizeLabelFits | relaykit/relayconvert/reasoning/gemini.go:241-242 | The effort returned by rewriting is the label of what is now in the config |
| GeminiThinking.EffortSurvivesBudget | relaykit/relayconvert/reasoning/gemini.go:479-490 | An effort turned into a budget reads back as itself if and only if it is none, low, medium or high |
| GeminiThinking.NormalizeIsNative | relaykit/relayconvert/reasoning/gemini.go:247-386 | Rewriting that succeeds leaves a config in the model's dialect |
| GeminiThinking.NormalizeFails | relaykit/relayconvert/reasoning/gemini.go:247-386 | Rewriting fails, and with which error, exactly on a level word nobody knows that is read, on a budget and a level together for a model that is not in the table, and on a blank level for a model whose levels do not cover it |
| GeminiThinking.NativeIsFixpoint | relaykit/relayconvert/reasoning/gemini.go:287-386 | Rewriting a config in the model's dialect changes nothing, and reports nothing unless the model is unknown and the budget below -1 |
| GeminiThinking.RewritingIsIdempotent | relaykit/relayconvert/reasoning/gemini.go:236-246 | Rewriting twice gives the config and label of rewriting once, with no further report if and only if it is not a budget below -1 for an unknown model |
| GeminiThinking.ReportedAgain | relaykit/relayconvert/reasoning/gemini.go:292-294 | A config for which the second rewriting reports again |
| GeminiThinking.RenderedStays | relaykit/relayconvert/reasoning/gemini.go:72-386 | What is rendered is left as it is, without a report, when it is rewritten |
| GeminiThinking.NormalizeGeminiThinkingConfig | relaykit/relayconvert/reasoning/gemini.go:247-386 | Rewrites the config in place, or drops it, with the effort, reports and error of the rewriting function |
| Sse.ReadInvertsWrite | internal/protocol/sse.go:41-128 | For any writes whose comments are single lines that fit the buffer, reading gives back exactly the frames in order, comments dropped, if and only if no event name and no data has a line feed or ends in a carriage return and every line fits the buffer |
| Sse.PlainIsExact | internal/protocol/sse.go:104-107 | A single data frame comes back as it was if and only if its data has no line feed, does not end in a carriage return and fits the buffer |
| Sse.LineFeedIsLost | internal/protocol/sse.go:104-107 | Data of two lines comes back as its first |
| Sse.Reader.constructor | internal/protocol/sse.go:30-34 | Reads from the start of the stream |
| Sse.Reader.Next | internal/protocol/sse.go:41-91 | The loop over scanner lines gives the next frame, the end or an error, and leaves the rest; errors stay |
| Sse.Writer.WriteData | internal/protocol/sse.go:104-107 | Appends a data frame |
| Sse.Writer.WriteEvent | internal/protocol/sse.go:111-117 | Appends a named frame |
| Sse.Writer.WriteDone | internal/protocol/sse.go:120-122 | Appends the end sentinel |
| Sse.Writer.WriteComment | internal/protocol/sse.go:125-128 | Appends a comment |

## Left out

- Usage and billing numbers: a chunk carries usage or not, which is all that ends a Claude message; the numbers, their merging, and the usage-only responses of the other converters are not modelled.
- Diagnostics of the pipeline driver, registration tables, format inference and the coercions between response types.
- JSON: events, annotations and arguments are modelled as parsed; quoted path members are decoded by a parameter; a tool's arguments are text.
- Steps that fail: what a converter had gathered when it hit an error is dropped and its state is then no longer used; the run theorems are about error-free runs. A malformed annotation is an error the models of Chat to Responses and Responses to Claude can report, but what it leaves behind is not described further.
- Annotations in Responses to Chat and in the two round trips; the deduplication of grounding annotations by key, and web search queries.
- ResponsesBufferedAccumulator, which collects a stream for non-streaming clients.
- Non-streaming conversions, apart from the text and citations of a Claude message.
- GeminiToChatStreamState apart from partial calls, tool indexes and grounding: its text and its finish chunks.
- Sequence numbers, item statuses and the opaque payloads of hosted tools in Chat to Responses events.
- Records that Chat to Responses, Chat to Gemini and the Gemini partial calls reach through pointers are values in maps and lists here, and the JSON tree of partial arguments is rebuilt rather than written in place: aliasing between a record and its maps is not captured there, as it is for Chat to Claude, Responses to Chat and Responses to Claude.
- Text conservation in Chat to Claude: when a chunk carries reasoning and text, or tools and text, only one is emitted; OutputSpeaks says which.
- Density of Claude block indexes: a tool nobody names takes an index and never starts.
- Chat to Responses does not refuse text after a finish reason; the round trip assumes there is none.
- RoundTrip.StreamComesBack: for streams of a single choice without annotations, whose calls carry a trimmed id and name on their first fragment and distinct ids, and with nothing after the finish reason.
- The send counter that the driver keeps for Chat to Claude is part of the converter's state here.
- Reasoning: FromClaude, the family defaults for Claude and Gemini, and the comparison of two Gemini strengths; adapter percentages are real numbers, so neither rounding of floats nor NaN is modelled.
- ResponsesToChatIdentity.ItemsAreSentOnce: streams in which every tool event carries some identifier (without one it is dropped) and argument events without an output index carry no item, as in the protocol.
- ResponsesToChatOrder.ArgumentsComeInOrder: a snapshot that does not extend what was gathered is covered by ItemsAreSentOnce and SnapshotSyncs, not by this condition.
- ResponsesToClaudeRouting.EventsShareBlocks: which of the two an event without a name does depends on whether the block is closed by then; that is not stated.
- Citations.AnnotationIndex: a JSON number outside the range of a 64-bit integer is no index here, while Go leaves its conversion to the platform.
- Sse.ReadInvertsWrite: comments with a line feed are not covered.
- Sse.Writer: the underlying writer does not fail here. Sse.Reader: read errors other than a line that is too long are not modelled.
- HTTP serving, administration, configuration, logging, clocks and media.
