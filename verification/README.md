# Verification of codex-shim

This project models the stateful core of codex-shim, a proxy that lets Codex and Claude clients talk to
other model providers, and proves what its users rely on. One module models one component.

- `AnthropicStream` translates chat-completion chunks into an Anthropic Messages event stream, and
  `ResponsesStream` translates chat chunks and Cursor events into a Responses API event stream. Both are
  classes with the source's fields; what they write is a trace. `ResponsesLayout` ties the state's records to the
  announced items, and `ResponsesOutput` collects and sorts the final output. `AnthropicClient` and `ResponsesClient` are
  strict clients: they rebuild the message from the events and reject any event that breaks the protocol.
  The theorems say that decoding what was emitted gives what folding the chunks gives. `ToolNames` tells tool
  names apart and resolves them.
- `CursorTurn` has the parser and the collector of Cursor runs and compares collected with streamed turns.
- `ToolIds`, `InputItems` and `InputPipeline` canonicalise call ids, repair unpaired calls and outputs and
  clear ids. `CachePaths`, `LruIndex` and `ConversationCache` are the two-level conversation cache with its
  incremental index of a directory. `Replay` puts the two together: a conversation replayed from snapshots.
- `BridgeLog`, `Bridge`, `BridgeRun` and `BridgeRegistry` are the Cursor bridge: calls that run concurrently,
  modelled as tasks that take one step between two awaits under any schedule, over shared jobs and an explicit
  lock, and the registry of sessions with its index of calls.
- `NousAuth` is the rotation of single-use refresh tokens (section 6 of RFC 6749, with rotation as in its
  section 10.4) with a disk, locks and a portal that may fail at every step.
- `ConfigLines` and `CliConfig` install the shim in a configuration file and restore it.

A method that loops or changes state is proved against a definition of what it means, and lemmas say what
that definition implies. A main result over all runs is the contract of a method that drives a fresh object
through any input (`Translate`, `Converse`, `Serve`, `RunSchedule`, `RunRegistry`, `RunCalls`,
`InstallAndRestore`, `InstallEditRestore`).

Where the code does less than its documentation says, the exact condition is proved:

- A tool search behind a namespace (`a.tool_search`) is announced but left out of the final output; its second
  fragment, like a tool search named with outer spaces and without complete arguments, leaves the turn without a
  terminal event (`ResponsesStream.Translate` and the examples beside it).
- An item id leads back to its call id unless the suffix starts with `call_` (`ToolIds.ItemIdLeadsBack`).
- Aligning separates a function call and its output whose shared call id is blank (`InputItems.AlignKeepsPairs`).
- Repair puts no call before an output that precedes its own call (`InputPipeline.RepairOrders`).
- Cached conversations get mixed up when two keys share a file name, and a put that is not terminal is lost
  with the memory (`ConversationCache.CurrentMeans` and the two examples beside it). `latest` is documented as
  the most recently stored snapshot; it is the most recently used one.
- A completed report in the middle of a Cursor segment splits a streamed message but not the collected one
  (`CursorTurn.SameUnlessSplit`).
- A configuration value that repeats its own key, or a blank feature value, is not restored
  (`CliConfig.InstallAndRestore`). When the features header has been deleted from an installed file, a restore puts it
  on the line of the last assignment, which gets another value (`CliConfig.InstallEditRestore` and
  `CliConfig.GluedHeaderExample`).
- An answer of the token endpoint whose date of expiry overflows is dropped after the exchange, and the replaced
  token is posted again (`NousAuth.RunCalls` and `NousAuth.OverflowExample`).

Inputs of the model are: model names, ids, times, file sizes and modification times, random ids, which
callers assume to be fresh, and every failure of disk, lock, network and portal, down to the outcome of each write attempt. Digests, the test for
web searches, the JSON parser that decides whether arguments are complete and the word characters outside ASCII are
parameters.

## Model

| member | source | states |
|---|---|---|
| AnthropicStream.Translate | codex_shim/server.py:5115-5336 | main result: for all chunks, however tool fragments are split and interleaved, and any calls of `finish`/`fail`, a client that rejects every breach of the block grammar accepts the events, ends with every block stopped and the verdict of the first ending, and has exactly the concatenated text, thinking and, in order, the tool uses that folding the chunks gives |
| AnthropicStream.StopMeans | codex_shim/translate.py:2103-2110 | the stop reason is that of the last finish reason: a tool use exactly for `tool_calls` and `function_call`, a lack of tokens exactly for `length`, a refusal exactly for `content_filter`, and the end of the turn otherwise |
| AnthropicStream.ToolIdMeans | codex_shim/server.py:5254-5292 | a call has the id of the fragment that names it; if neither that one nor any of the call's before it has an id, one is made from its index |
| ChatUpstream.FirstNameMeans | codex_shim/server.py:5254-5275 | a call's name is that of the first of its fragments that has any |
| ChatUpstream.NamedOrderMeans | codex_shim/server.py:5254-5275 | the named calls are listed once each, and what is named later comes after what has been named so far |
| AnthropicStream.AnthropicMessagesStreamState.Start | codex_shim/server.py:5115-5132 | a fresh state announces the message, after which the client is listening and nothing has been said |
| AnthropicStream.AnthropicMessagesStreamState.WriteChatDelta | codex_shim/server.py:5134-5152 | each chunk adds its content, reasoning and tool fragments to what the client has been told, and nothing else; a truthy finish reason sets the stop reason |
| AnthropicStream.AnthropicMessagesStreamState.WriteToolDeltas | codex_shim/server.py:5151-5152 | the fragments of a chunk are taken in order and leave text and thinking alone |
| AnthropicStream.AnthropicMessagesStreamState.TextDelta | codex_shim/server.py:5196-5210 | text goes to the open text block, or to a new one at the next free index |
| AnthropicStream.AnthropicMessagesStreamState.CloseText | codex_shim/server.py:5212-5217 | the text block is stopped once, and no other block changes |
| AnthropicStream.AnthropicMessagesStreamState.ReasoningDelta | codex_shim/server.py:5219-5241 | thinking goes to the open thinking block, or to a new one at the next free index |
| AnthropicStream.AnthropicMessagesStreamState.CloseReasoning | codex_shim/server.py:5243-5252 | the thinking block is stopped once, and no other block changes |
| AnthropicStream.AnthropicMessagesStreamState.ToolDelta | codex_shim/server.py:5254-5292 | a fragment goes to the call of its upstream index and to no other: afterwards every call's block holds exactly the arguments sent for it so far |
| AnthropicStream.AnthropicMessagesStreamState.WriteCall | codex_shim/server.py:5275-5292 | a call's block starts when the call has a name, after the plain blocks are stopped, and then carries all its arguments |
| AnthropicStream.AnthropicMessagesStreamState.OpenTool | codex_shim/server.py:5294-5313 | a call's block takes the next free index, the call's id or one made from its index, and its name or `tool` |
| AnthropicStream.AnthropicMessagesStreamState.EmitArguments | codex_shim/server.py:5281-5292 | what has been sent of a call's arguments catches up with what has arrived, with nothing repeated |
| AnthropicStream.AnthropicMessagesStreamState.CloseTool | codex_shim/server.py:5315-5336 | a call is stopped exactly once; one that never had a name is shown then, with all its arguments |
| AnthropicStream.AnthropicMessagesStreamState.CloseCalls | codex_shim/server.py:5161-5164 | after `finish` every call is shown and stopped, after `fail` those that were open, in the order of their first names and then of their indices |
| AnthropicStream.AnthropicMessagesStreamState.ClosePlain | codex_shim/server.py:5157-5160 | both endings first stop the text and thinking blocks and leave the calls as they are |
| AnthropicStream.AnthropicMessagesStreamState.Finish | codex_shim/server.py:5154-5175 | the first ending stops every block before one `message_delta` and `message_stop`; any later ending writes nothing |
| AnthropicStream.AnthropicMessagesStreamState.Fail | codex_shim/server.py:5177-5194 | the first ending stops every block before one error event; any later ending writes nothing |
| ResponsesStream.Translate | codex_shim/server.py:5385-6574 | main result: for all chunks whose calls are named whole by their first fragment and not again, and any calls of `finish`/`fail`: a turn gets no terminal event exactly when some call is stuck. Otherwise the strict client accepts the events (consecutive item indices, done at most once and with exactly the streamed text) and one verdict, which is `completed` only when every announced item is done and the arguments of every call could be read (not blank, and taken by the parser) at some point of the stream; a call's item is done only with arguments that can be read, and is not left open once what was streamed for it can be; and the final output says all text and reasoning and has one entry for each announced item but one for each call that strayed. The verdict is the one the chunks call for and the output says the chunks' calls as well if and only if no call's resolved name is that of a tool search or an MCP tool and every tool search named with outer spaces got complete arguments |
| ResponsesStream.SearchNamesFail | codex_shim/server.py:5807-5834 | `a.tool_search` is not kept and, with a second fragment, stuck |
| ResponsesStream.PaddedFails | codex_shim/server.py:5829-5834 | a tool search named with outer spaces and without arguments is stuck |
| ResponsesStream.DottedSearchExample | codex_shim/server.py:6545-6550 | a turn with `a.tool_search` ends, and its output has one item less than was announced |
| ResponsesStream.DottedIsNotStuck | codex_shim/server.py:5807-5834 | one fragment of `a.tool_search` is a call that strayed and is not stuck |
| ResponsesStream.DottedTwiceExample | codex_shim/server.py:5514-5534 | with a second fragment of `a.tool_search` a turn has no terminal event |
| ResponsesStream.PaddedSearchExample | codex_shim/server.py:5514-5534 | a turn with ` tool_search ` and without arguments has no terminal event |
| ToolNames.DottedSearchStrays | codex_shim/translate.py:87-102 | a tool search behind a namespace resolves to the tool search, for every namespace that does not begin with `mcp` and every table without the dotted name |
| ResponsesLayout.KeptMeans | codex_shim/server.py:5643-5754 | every call is kept exactly when none has strayed and none is stuck |
| ResponsesOutput.WaitingIsStuck | codex_shim/server.py:5807-5834 | a call has a tool search without an output index exactly when its first name has outer spaces and its arguments never became complete, or it strayed to a tool search and has a second fragment |
| ResponsesLayout.ShownAsNamed | codex_shim/server.py:5643-5754 | without names with outer spaces the calls are announced in the order in which they are first named |
| ResponsesLayout.FiledTake | codex_shim/server.py:5643-5754 | every fragment leaves every call in the dictionaries that its names point to |
| ResponsesLayout.OwnedTake | codex_shim/server.py:5643-5754 | strayed or not, every announced call has its record in a dictionary under its index, no dictionary refers to another call's record, and a record is closed exactly once its arguments are complete |
| ResponsesOutput.StrayedAreMissing | codex_shim/server.py:6536-6571 | as many items are missing from the output as calls have strayed |
| ResponsesOutput.StrayedOut | codex_shim/server.py:6545-6550 | the own record of a call that strayed is passed over |
| ResponsesOutput.MissingStrayed | codex_shim/server.py:6536-6571 | nothing else is missing: an announced item without an entry is the own record of a call that strayed |
| ResponsesOutput.EntriesApart | codex_shim/server.py:6536-6571 | no two of the collected pairs have the same output index, whether calls strayed or not |
| ResponsesOutput.ReportedOnce | codex_shim/server.py:6534-6571 | sorting the collected pairs by index, in whatever order the dictionaries list them, gives each index once and in order |
| ResponsesOutput.ByIndexIncreases | codex_shim/server.py:6570-6571 | sorting pairs of different indices keeps exactly the pairs and makes the indices increase |
| ResponsesStream.ReasoningDeltaChunks | codex_shim/server.py:4969-4980 | the pieces of a reasoning text rejoin to it, none is empty, and all but the last have exactly 80 characters |
| ResponsesClient.StreamedAppend | codex_shim/server.py:6279-6287 | a delta on the last item of its channel is text said last, and extends the last message only |
| ResponsesStream.ResponsesStreamState.Start | codex_shim/server.py:5385-5386 | a fresh state announces the response; every announced item is then accounted for by a record |
| ResponsesStream.ResponsesStreamState.OpenMessage | codex_shim/server.py:6116-6143 | a message item is announced empty at the next index |
| ResponsesStream.ResponsesStreamState.CloseMessage | codex_shim/server.py:6145-6178 | an open message is settled and done with exactly the text its deltas spelled, once; the texts of all messages stay as they are |
| ResponsesStream.ResponsesStreamState.ReopenMessageSegment | codex_shim/server.py:6184-6190 | after a closed message the next one is a new item |
| ResponsesStream.ResponsesStreamState.TextDelta | codex_shim/server.py:6270-6287 | text extends the open message or starts a new one after the last; no other message and no reasoning changes |
| ResponsesStream.ResponsesStreamState.EmitReasoningDeltas | codex_shim/server.py:5621-5634 | the deltas of a reasoning text add exactly that text to its item |
| ResponsesStream.ResponsesStreamState.OpenReasoning | codex_shim/server.py:6394-6437 | a reasoning item is announced at the next index and streams its initial text |
| ResponsesStream.ResponsesStreamState.AppendReasoning | codex_shim/server.py:5636-5641 | more reasoning goes to its item, also after the item is done, and is said last when no later reasoning item exists |
| ResponsesStream.ResponsesStreamState.CloseReasoning | codex_shim/server.py:6439-6459 | a reasoning item is done once, with the text of its record |
| ResponsesStream.ResponsesStreamState.AppendArguments | codex_shim/server.py:6352-6392 | arguments reach the item of their call only; a tool search keeps its own until it is done |
| ResponsesStream.ResponsesStreamState.CloseCall | codex_shim/server.py:6352-6392 | a call's item is done once, with exactly the arguments that were streamed for it, which can be read |
| ResponsesStream.ResponsesStreamState.CloseOpenReasoning | codex_shim/server.py:5516-5518 | no reasoning block is left open and no call's record changes |
| ResponsesStream.ResponsesStreamState.TakeArguments | codex_shim/server.py:5733-5754 | a call is closed by the very fragment that completes its arguments |
| ResponsesStream.ResponsesStreamState.ChatToolSearchDelta | codex_shim/server.py:5807-5862 | a tool search is announced when it has its plain name or complete arguments and waits until then, with all its arguments; the other calls are left alone |
| ResponsesStream.ResponsesStreamState.OpenToolSearch | codex_shim/server.py:5836-5862 | the open reasoning is closed and the item announced without arguments at the next index |
| ResponsesStream.ResponsesStreamState.ChatMcpToolDelta | codex_shim/server.py:5889-5983 | an MCP call takes its fragment in and leaves the other calls alone; its call id is made from its item id |
| ResponsesStream.ResponsesStreamState.OpenTool | codex_shim/server.py:6313-6350 | a plain call is announced after the open message is done, with canonical ids unless it is a web search |
| ResponsesStream.ResponsesStreamState.ChatPlainToolDelta | codex_shim/server.py:5703-5754 | a plain call takes its fragment in and leaves the other calls alone |
| ResponsesStream.ResponsesStreamState.RouteToolDelta | codex_shim/server.py:5680-5754 | a fragment goes to the dictionary of the name its call goes by, which for a later fragment of a plain call is the resolved one |
| ResponsesStream.ResponsesStreamState.ChatToolDelta | codex_shim/server.py:5643-5754 | after every fragment each call is where its names point to and, while none has strayed, its record says exactly what the fragments of its index said |
| ResponsesStream.ResponsesStreamState.ChatReasoningDelta | codex_shim/server.py:5636-5641 | the reasoning of a chat stream stays in one item |
| ResponsesStream.ResponsesStreamState.WriteChatDelta | codex_shim/server.py:5590-5619 | each chunk adds its content, reasoning and fragments to what the client has been told, and nothing else |
| ResponsesStream.ResponsesStreamState.CloseTurnItems | codex_shim/server.py:5514-5534 | before a terminal event the message and the reasoning are done; sorting raises exactly when a tool search has no output index |
| ResponsesStream.ResponsesStreamState.ChatOutput | codex_shim/server.py:6531-6574 | the final output says all text and reasoning and has one item for each that was announced but one for each call that strayed; while none has strayed, the items are in index order and say what the chunks said |
| ResponsesStream.ResponsesStreamState.OutputItems | codex_shim/server.py:6573-6574 | the messages of the output are those that were streamed, even when reasoning blocks were overwritten in their dictionary |
| ResponsesStream.ResponsesStreamState.SilentMeans | codex_shim/server.py:5438-5441 | with the message and the reasoning closed, a turn has neither visible output nor an open item exactly when its chunks brought no call and no visible text |
| ResponsesStream.ResponsesStreamState.OpenMeans | codex_shim/server.py:5497-5512 | at the end an item is left open exactly when some announced item is not done; while no call has strayed, exactly when some call's arguments never became complete |
| ResponsesStream.ResponsesStreamState.Fail | codex_shim/server.py:5388-5415 | one failed terminal event after everything closed, or none if sorting raises; a second ending writes nothing |
| ResponsesStream.ResponsesStreamState.Finish | codex_shim/server.py:5417-5474 | one terminal event, with the verdict that the items, the finish reasons and the upstream end marker call for, `completed` only when every item is done, or none if sorting raises; a second ending writes nothing |
| ResponsesStream.ResponsesStreamState.End | codex_shim/server.py:5397-5427 | of any sequence of endings the first decides the verdict, unless they all raise |
| ResponsesOutput.CollectedFull | codex_shim/server.py:6531-6571 | while no call has strayed, sorting the collected pairs by output index gives exactly one entry for each announced index, with the streamed texts, and the calls in the order of their announcements |
| ResponsesOutput.DoneMeans | codex_shim/server.py:5497-5512 | with the message and the reasoning done, every announced item is done exactly when every call's record is closed |
| ResponsesOutput.CompleteMeans | codex_shim/server.py:5497-5512 | while no call has strayed or waits, every call's record is closed exactly when the arguments of every call have been complete |
| ResponsesOutput.OpenCallMeans | codex_shim/server.py:4983-5004 | a call's record is closed exactly when some fragment completed its arguments, and an open one has incomplete arguments |
| ResponsesLayout.EverCompleteMeans | codex_shim/server.py:4983-5004 | some fragment completed a call's arguments exactly when its name is not empty and at some point what had arrived was not blank and was taken by the parser |
| ResponsesLayout.ToldTake | codex_shim/server.py:5643-5754 | whatever becomes of other calls, a call's own record has the arguments of all its fragments, or of the first one if it strayed, and is closed only if they could be read at some point |
| ResponsesLayout.DoneByEvent | codex_shim/server.py:6352-6392 | when no done event of a call carries arguments that cannot be read, no item of a call is done with such |
| ResponsesOutput.DoneReadable | codex_shim/server.py:5497-5512 | when every announced item is done, the arguments of every call could be read at some point, strayed or not |
| ResponsesOutput.OpenUnreadable | codex_shim/server.py:4983-5004 | what has been streamed for a named call whose item is not done cannot be read |
| ResponsesLayout.VerdictMeans | codex_shim/server.py:5417-5474 | `completed` exactly for a turn that was to finish, named no error, said something, has every item done, no finish reason `length`, and an end marker or a finish reason `stop` or `tool_calls`; an incomplete one lacks tokens exactly for `length`; silence and errors fail |
| ResponsesLayout.ErrorReasonMeans | codex_shim/server.py:5476-5483 | a reason is an error exactly if it is in the list, in small letters or large ones, and the provider's goes first |
| ResponsesLayout.SaidCallMeans | codex_shim/server.py:5703-5983 | a plain call is announced under its canonical id with the name and namespace that the table gives, or its bare name, a web search under its own id, a tool search without a name, an MCP call with its server's namespace, each with all its arguments |
| ToolNames.McpNameMeans | codex_shim/mcp_search.py:121-141 | `mcp__<server>__<tool>` names the tool of the server, for every server without underscores |
| ToolNames.McpDottedMeans | codex_shim/mcp_search.py:144-158 | `mcp__<server>.<tool>` names the same |
| ResponsesLayout.ChatTake | codex_shim/server.py:5643-5754 | while no call has strayed, taking in a fragment keeps every announced call's record in agreement with its fragments |
| ResponsesLayout.FeedDone | codex_shim/server.py:6352-6392 | the done events of a record are accepted and settle its item with the record's text |
| ResponsesOutput.CollectedSays | codex_shim/server.py:6536-6571 | whatever became of the reasoning records, the reported messages are the announced ones in order, with all their text; the reasoning of a chat stream is reported as it was streamed |
| CursorTurn.StreamAndCollect | codex_shim/server.py:6607-6655 | main result: the same Cursor events streamed and collected: the strict client accepts the stream, and both outputs have the same messages if and only if no message was split by a completed report |
| CursorTurn.SameUnlessSplit | codex_shim/cursor_passthrough.py:977-1033 | streamed and collected messages agree exactly when no text follows a completed report inside a segment; a split leaves the streamed list longer for good |
| CursorTurn.NoSplitBeforeTheEnd | codex_shim/cursor_passthrough.py:1108-1194 | a run reported completed only at its end, as the runner does, splits no message |
| CursorTurn.SplitExample | codex_shim/server.py:6654-6655 | text, a completed report and more text: two streamed messages, one collected |
| CursorTurn.ParseAndStream | codex_shim/cursor_passthrough.py:826-958 | main result: for all lines of an agent's output the streamed and the collected messages are both the texts of its segments |
| CursorTurn.Parse | codex_shim/cursor_passthrough.py:836-941 | the text deltas of every segment spell the segment's text, and no line makes a completed event |
| CursorTurn.CumulativeTexts | codex_shim/cursor_passthrough.py:949-958 | when each text of a segment continues the one before, the segment's text is the last of them |
| CursorTurn.SeparateTexts | codex_shim/cursor_passthrough.py:949-958 | when no text of a segment continues what has been said in it, the segment's text is all of them in a row |
| CursorTurn.FinalTextExample | codex_shim/cursor_passthrough.py:836-941 | two growing texts and the final line that repeats the last of them are one message |
| CursorTurn.CursorStreamParser.DeltaForSegment | codex_shim/cursor_passthrough.py:949-958 | the segment before, with the delta after it, is the segment after; an empty delta is never sent |
| CursorTurn.CursorStreamParser.FeedEvents | codex_shim/cursor_passthrough.py:836-941 | a line yields text only if it advances the segment by that text, and ends the segment exactly when it is a boundary or a started tool |
| CursorTurn.ApplyText | codex_shim/server.py:6613-6619 | text extends the open message or starts the next one, after thinking and reasoning are closed |
| CursorTurn.ApplyCursorStreamEvent | codex_shim/server.py:6607-6655 | each event changes the streamed messages as `ShowEvent` says and nothing else about them |
| CursorTurn.CursorResponseCollector.Consume | codex_shim/cursor_passthrough.py:977-1010 | each event changes the collected messages as `GatherEvent` says and nothing else about them |
| CursorTurn.CursorResponseCollector.BuildOutput | codex_shim/cursor_passthrough.py:1019-1027 | the output is what has been collected, the unfinished message and the text of every tool that has not completed, in this order, or just the fallback text when there is nothing of that |
| CursorTurn.UnfinishedMeans | codex_shim/cursor_passthrough.py:1021-1024 | each tool with a visible text is reported as interrupted after all its text, in order, and no other |
| CursorTurn.CursorResponseCollector.FlushMessage | codex_shim/cursor_passthrough.py:1029-1033 | the unfinished message becomes the last finished one |
| CursorTurn.CursorResponseCollector.FlushThinking | codex_shim/cursor_passthrough.py:1012-1017 | buffered thinking becomes a reasoning item unless it is blank, and no message changes |
| CursorTurn.ToolActivityIsOneText | codex_shim/cursor_passthrough.py:988-1010 | a tool's start, an interruption and its completion become one reasoning item, unless blank, at the end of the collected items |
| CursorTurn.ApplySegmentEnd | codex_shim/server.py:6621-6624 | the end of a segment settles the open message and says nothing |
| ResponsesStream.ResponsesStreamState.OpenCursorToolActivity | codex_shim/server.py:6192-6199 | a tool's start announces a reasoning item with its text |
| ResponsesStream.ResponsesStreamState.CloseCursorActivity | codex_shim/server.py:6217-6254 | an activity that is open is closed, any other is left alone, and no message changes |
| ResponsesStream.ResponsesStreamState.InterruptCursorToolActivities | codex_shim/server.py:6256-6268 | an interruption gives the message to exactly the open tool activities and closes them; no other block and no message changes |
| ResponsesStream.ResponsesStreamState.AppendCursorThinkingActivity | codex_shim/server.py:6227-6248 | thinking changes no message, and never goes to a closed block |
| ResponsesStream.ResponsesStreamState.AppendCursorToolActivity | codex_shim/server.py:6201-6215 | tool activity changes no message |
| ToolIds.CanonicalIsFixed | codex_shim/tool_translate.py:20-35 | a canonical call id is its own canonical form and names the same pair of ids |
| ToolIds.PrefixIsNormal | codex_shim/tool_translate.py:20-35 | a call id with its prefix stays as it is, so that two of them stay apart; an id without a prefix gets the prefix, and the prefix of an item id is replaced |
| ToolIds.ItemIdLeadsBack | codex_shim/tool_translate.py:20-35 | an item id leads back to its pair of ids exactly when the suffix does not itself start with `call_` |
| ToolIds.DoubledPrefixExample | codex_shim/tool_translate.py:20-35 | the item made for `call_call_x` leads to `x` |
| InputItems.AlignIsStable | codex_shim/responses_input_pipeline.py:154-183 | aligning an aligned item changes nothing, ids included |
| InputItems.AlignKeepsPairs | codex_shim/responses_input_pipeline.py:154-183 | a call and an output with one non-empty call id still pair after aligning, exactly unless the id is blank and the call is a function call |
| InputItems.BlankIdExample | codex_shim/responses_input_pipeline.py:154-183 | a function call and its output with the call id ` ` do not pair any more after aligning |
| InputItems.AlignKeepsSharing | codex_shim/tool_translate.py:38-71 | items that shared a visible call id share its canonical form |
| InputItems.ClearLeavesNoLookup | codex_shim/responses_input_pipeline.py:293-326 | clearing touches the id only, leaves no id in persisted form and, on a stateless replay, no id but a fresh one on a tool call; otherwise an id that is not in persisted form stays |
| InputItems.AlignTouchesIds | codex_shim/tool_translate.py:38-71 | aligning keeps kind and fields: an item that is no object, and the id of any other item than a function call or an output, stay as they are; the id of a function call is an item id and its call id the canonical form of its call id or id; an output loses its id exactly if that begins with `call_` or `fc_` or is its own call id |
| InputItems.SentAgain | codex_shim/responses_input_pipeline.py:154-183 | what is sent for an item that was sent for another one is what is sent for that one: the same kind, fields and canonical call id |
| InputItems.PersistedMeans | codex_shim/responses_input_pipeline.py:39 | an id with one underscore is in persisted form exactly when at least 32 hexadecimal digits follow it |
| InputItems.EssenceOfCleared | codex_shim/responses_input_pipeline.py:297-326 | clearing an aligned item rewrites its id only |
| InputPipeline.RepairClosesPairs | codex_shim/responses_input_pipeline.py:83-222 | main result: after both repairs a call id has a call exactly when it has an output, deleting the added items recovers the input, and exactly one item is added for each distinct unpaired id |
| InputPipeline.RepairOnlyWhenNeeded | codex_shim/responses_input_pipeline.py:83-222 | the repairs change a list exactly when its calls and outputs do not pair up |
| InputPipeline.RepairIsStable | codex_shim/responses_input_pipeline.py:83-222 | repairing a repaired list, with any name resolver, changes nothing |
| InputPipeline.SyntheticMatches | codex_shim/responses_input_pipeline.py:60-82 | the call made for an orphan output is one that the output answers, and the output made for a call is one that answers it |
| InputPipeline.RepairOrders | codex_shim/responses_input_pipeline.py:97-137 | after the repairs every output follows a call with its id, exactly if in the input no output came before its own call |
| InputPipeline.OutputFirstExample | codex_shim/responses_input_pipeline.py:97-137 | an output in front of its call is left there |
| InputPipeline.WithCallsKeys | codex_shim/responses_input_pipeline.py:83-137 | inserting calls keeps the given items and all outputs and gives every output's id a call |
| InputPipeline.WithCallsCount | codex_shim/responses_input_pipeline.py:83-137 | exactly one call is added for each distinct id outside the known ones |
| InputPipeline.WithOutputsAdds | codex_shim/responses_input_pipeline.py:186-222 | inserting outputs keeps the given items and all calls, gives every call's id an output, and adds one for each distinct unanswered id |
| InputPipeline.PreparingKeeps | codex_shim/responses_input_pipeline.py:329-361 | whatever is prepared keeps the given items in order and up to ids, adds only synthetic items, one for each id that aligning left unpaired, and ends with calls and outputs paired |
| InputPipeline.PreparingSends | codex_shim/responses_input_pipeline.py:329-361 | every given item is sent, in order, with its kind, its fields and its canonical call id |
| InputPipeline.TagsDoNotMatter | codex_shim/responses_input_pipeline.py:154-326 | what the loops produce depends on the items alone, not on which of them were synthetic before |
| InputPipeline.AlignResponsesToolCallIds | codex_shim/responses_input_pipeline.py:154-183 | the loop aligns every item in place and order |
| InputPipeline.SynthesizeOrphanToolCalls | codex_shim/responses_input_pipeline.py:83-137 | the loop with its set of seen ids inserts exactly the calls that the definition by position asks for |
| InputPipeline.SynthesizeMissingToolOutputs | codex_shim/responses_input_pipeline.py:186-222 | the loop with its set of answered ids inserts exactly the outputs that the definition by position asks for |
| InputPipeline.ClearPersistedLookupIds | codex_shim/responses_input_pipeline.py:297-326 | length, order and everything but ids stay; the count is that of the ids cleared; no lookup id is left |
| InputPipeline.PrepareItems | codex_shim/responses_input_pipeline.py:329-361 | the composed passes compute the specified preparation, leave no lookup id and, with repair, pair calls and outputs |
| Replay.Converse | codex_shim/responses_input_pipeline.py:225-361 | main result: a chain of turns over the real cache, across restarts, evictions and files that cannot be removed: as long as each turn hits the stored snapshot, what goes upstream is d1,o1,…,dn, item by item with kind, fields and canonical call id, with only synthetic items besides, and with none exactly when calls and outputs have paired up in every turn; and every turn hits when every turn says something, its snapshot fits and every file to be removed is removed |
| Replay.ReplaySendsHistory | codex_shim/server.py:2546-2564 | for any chain of turns what is sent upstream holds every item of the history and the new input, in order, with its kind, its fields and its canonical call id |
| Replay.SnapshotHoldsHistory | codex_shim/server.py:2546-2564 | every stored snapshot holds every item of the history, in order, as it was said or as it was sent |
| Replay.ReplayKeepsHistory | codex_shim/server.py:2546-2564 | for any chain of turns the forwarded input embeds the whole history and the new input, and its extra items are synthetic |
| Replay.SnapshotKeepsHistory | codex_shim/server.py:2546-2564 | every stored snapshot embeds the whole history, and its extra items are synthetic |
| Replay.ExactWhenPaired | codex_shim/server.py:2546-2564 | nothing has ever been added to the snapshots exactly when calls and outputs paired up in every turn; then the snapshot is the history up to ids |
| Replay.ForwardedExactWhenPaired | codex_shim/server.py:2546-2564 | what goes upstream has nothing added exactly when calls and outputs paired up in every turn and with the new input; then it is the history and the new input up to ids |
| Replay.PromptAnswersPair | codex_shim/responses_input_pipeline.py:83-222 | when each turn answers exactly the calls of the turn before, calls and outputs pair up in every turn |
| Replay.ExpandCachedInput | codex_shim/responses_input_pipeline.py:225-290 | expansion ends with the new input; a hit puts in front what was last put under the previous response, a miss falls back to the latest snapshot or to the new input alone |
| Replay.BuildTurnCacheItems | codex_shim/server.py:2546-2564 | on a hit the stored items are the prepared snapshot and input followed by the output |
| Replay.ServeTurn | codex_shim/server.py:2611-2625 | a turn that hits the previous snapshot forwards the prepared history and stores the next snapshot of the chain |
| Replay.SendTurn | codex_shim/responses_input_pipeline.py:329-361 | what is sent has no lookup id and pairs calls with outputs, and on a hit is the prepared snapshot and input |
| Replay.AlignedKeys | codex_shim/responses_input_pipeline.py:154-183 | which call ids pair up after aligning depends only on what the items say apart from their ids |
| LruIndex.TouchedMeans | codex_shim/chatgpt_conversation_cache.py:250-254 | the touched entry becomes the last one, and nothing else moves; a key that is not there changes nothing |
| LruIndex.StoredMeans | codex_shim/chatgpt_conversation_cache.py:244-248 | the stored entry becomes the last one, in place of an earlier one of its key, and nothing else moves |
| LruIndex.SurvivorsFit | codex_shim/chatgpt_conversation_cache.py:303-314 | after eviction no session is over its cap, the total is within the limit, and the most recent entry stays if it fits alone |
| LruIndex.NewestKeepsRecent | codex_shim/chatgpt_conversation_cache.py:303-310 | the session cap keeps an entry exactly when fewer than the cap more recent ones belong to its session |
| LruIndex.FittingIsLongest | codex_shim/chatgpt_conversation_cache.py:311-314 | the byte limit leaves the longest suffix of the LRU order that fits |
| LruIndex.NewestDropsOldest | codex_shim/chatgpt_conversation_cache.py:305-310 | dropping the oldest entry of an over-full session does not change what the cap keeps |
| LruIndex.NewestOneMore | codex_shim/chatgpt_conversation_cache.py:304-310 | capping session after session, in any order, amounts to capping all of them |
| CachePaths.FixedKeysApart | codex_shim/chatgpt_conversation_cache.py:69-81 | keys that sanitizing leaves alone never share a file |
| CachePaths.FixedPath | codex_shim/chatgpt_conversation_cache.py:240-242 | a key's file is the one from which a rebuilt index reads that key exactly when sanitizing leaves the key alone |
| CachePaths.PlainIdsAreFixed | codex_shim/chatgpt_conversation_cache.py:69-77 | ids of up to 200 letters, digits and inner underscores or hyphens are left alone |
| CachePaths.SanitizedStaysInside | codex_shim/chatgpt_conversation_cache.py:69-81 | whatever a session or response is called, its part of the path has at most 200 characters, is not empty, has no separator and no two dots in a row, and begins and ends with neither a dot nor an underscore |
| CachePaths.SharedFile | codex_shim/chatgpt_conversation_cache.py:69-77 | `a/b` and `a_b` have one file |
| ConversationCache.Serve | codex_shim/chatgpt_conversation_cache.py:133-217 | main result: in every run, across evictions, restarts and failures, each operation moves memory, index and files as defined, on the index in memory or a fresh listing; memory and puts stay within their limits; what a load, `latest` or a put uses becomes the most recent entry, and nothing else moves but the oldest ones that make room; a load answers the entry in memory or else what the file holds, and `latest` what a load of the last listed key of the session does; a load whose file is current answers what was last put under the key, and one that reads the file answers the items of the put that last wrote it, which is the key's own last put exactly if the file is current; and after operations whose keys sanitizing leaves alone and whose files are removed, a rebuild finds the index as it is |
| ConversationCache.CurrentMeans | codex_shim/chatgpt_conversation_cache.py:142-184 | a file is current exactly when the put that last wrote it is the key's own last put, or neither was ever put |
| ConversationCache.SoundIsCurrent | codex_shim/chatgpt_conversation_cache.py:142-184 | a file is always current when every put of the key writes it and no other key's put does |
| ConversationCache.PutFits | codex_shim/chatgpt_conversation_cache.py:165-184 | after a put that wrote its file every session is within 1024 entries, the total within the limit, and the own entry the most recent one if it fits alone |
| ConversationCache.OwnFileStays | codex_shim/chatgpt_conversation_cache.py:303-328 | in a tidy run a put that fits alone does not remove the file it has written |
| ConversationCache.IndexRebuilds | codex_shim/chatgpt_conversation_cache.py:256-282 | an index that agrees with the directory is found again by a rebuild |
| ConversationCache.ServeOne | codex_shim/chatgpt_conversation_cache.py:133-217 | one operation: the state it leaves, its answer, what it makes recent, and what it keeps |
| ConversationCache.GetRecent | codex_shim/chatgpt_conversation_cache.py:133-163 | after a load that answers, the key is the last one in memory, as far as that has room, and in the index, and the other entries stand as they stood |
| ConversationCache.PutRecent | codex_shim/chatgpt_conversation_cache.py:165-184 | after a put that stores its items these are the last entry in memory, unless the entry does not fit on disk alone |
| ConversationCache.LatestRecent | codex_shim/chatgpt_conversation_cache.py:186-202 | when `latest` finds a listed key, that is the session's last one in the index and becomes the last one in memory and index |
| ConversationCache.LatestFinds | codex_shim/chatgpt_conversation_cache.py:186-202 | `latest` answers what a load of the last listed key of the session does or, when none is listed, the session's last entry in memory |
| ConversationCache.MostRecentIsLast | codex_shim/chatgpt_conversation_cache.py:193-200 | the most recently used key of a session is that of its last entry: no later one is of the session |
| ConversationCache.RecentStaysExample | codex_shim/chatgpt_conversation_cache.py:244-254 | with room for two: store a, store b, load a, store c keeps a and c |
| ConversationCache.CurrentAgrees | codex_shim/chatgpt_conversation_cache.py:142-184 | a current file holds what was last put under the key |
| ConversationCache.SharedFileExample | codex_shim/chatgpt_conversation_cache.py:240-242 | a second key with the same file takes the first one's conversation away after a restart |
| ConversationCache.UnfinishedTurnExample | codex_shim/chatgpt_conversation_cache.py:177-179 | a put that was not terminal is lost with the memory |
| ConversationCache.ChatgptConversationCache.Get | codex_shim/chatgpt_conversation_cache.py:133-163 | a hit in memory or else the key's file; the entry becomes the most recent one in memory and index; right as far as the file is current |
| ConversationCache.ChatgptConversationCache.Put | codex_shim/chatgpt_conversation_cache.py:165-184 | memory, index and files afterwards, for terminal and other puts, failing or not: the entry stored, the survivors of the stored list kept, the files of the lost keys removed unless stuck; a tidy run stays tidy |
| ConversationCache.ChatgptConversationCache.Latest | codex_shim/chatgpt_conversation_cache.py:186-202 | the most recently used conversation of the session, on disk or else in memory, and the state that reading it leaves |
| ConversationCache.ChatgptConversationCache.PruneUntil | codex_shim/chatgpt_conversation_cache.py:204-217 | the index, loaded or listed first, is cut to the longest suffix within the limit; the lost keys leave memory and files |
| ConversationCache.ChatgptConversationCache.RestartAndReindex | codex_shim/chatgpt_conversation_cache.py:256-282 | in a tidy run a new process rebuilds the same key and size for every entry, oldest file first |
| ConversationCache.ChatgptConversationCache.EnsureIndex | codex_shim/chatgpt_conversation_cache.py:256-282 | the rebuilt index lists exactly the files, oldest first, with exact totals and counts |
| ConversationCache.ChatgptConversationCache.Remember | codex_shim/chatgpt_conversation_cache.py:244-248 | the memory is the most recent entries within its cap, the new one last |
| ConversationCache.ChatgptConversationCache.Touch | codex_shim/chatgpt_conversation_cache.py:250-254 | the entry becomes the most recent one in memory and on disk; nothing is lost |
| ConversationCache.ChatgptConversationCache.NoteDisk | codex_shim/chatgpt_conversation_cache.py:293-301 | total and session counts stay those of a recount |
| ConversationCache.ChatgptConversationCache.DropDisk | codex_shim/chatgpt_conversation_cache.py:316-328 | total and session counts stay those of a recount, and index, memory and file go together |
| ConversationCache.ChatgptConversationCache.CapSessions | codex_shim/chatgpt_conversation_cache.py:303-310 | the loops over sessions leave the most recent 1024 entries of each |
| ConversationCache.ChatgptConversationCache.DropUntil | codex_shim/chatgpt_conversation_cache.py:311-314 | the loop leaves the longest suffix within the limit |
| ConversationCache.ChatgptConversationCache.Evict | codex_shim/chatgpt_conversation_cache.py:303-314 | both loops together leave the specified survivors and drop exactly the other keys everywhere |
| ConversationCache.FindRecent | codex_shim/chatgpt_conversation_cache.py:193-200 | searching backwards finds the key of the last entry of a session: no later one is of the session |
| BridgeLog.DeliveredOnce | codex_shim/cursor_bridge.py:799-805 | in a sound log no job is delivered twice |
| BridgeLog.StatusMovesForward | codex_shim/cursor_bridge.py:494-501 | a job moves only from pending to ready to consumed, one step at a time |
| BridgeLog.AnswerStays | codex_shim/cursor_bridge.py:789-797 | the first output ingested for a job is its answer for good |
| Bridge.OneCaller | codex_shim/cursor_bridge.py:918-975 | no two callers, waiting or polling, hold a result of the same job |
| BridgeRun.RunSchedule | codex_shim/cursor_bridge.py:807-979 | main result: under every schedule of invocations, ingested outputs, waits and polls, with timeouts and cancellations at every await, every action changes log, jobs, tasks and flags as defined without the dictionaries; in every state each delivery hands out the first output ingested for its job, its caller holds exactly that result, no job is delivered twice, statuses are what the log says and no two callers hold a result of the same job; a poll returns one result for each job that it moves from ready to consumed, in the order of the jobs, leaves none ready and reports those pending; both dictionaries hold exactly the jobs not yet consumed, and the waiter count is the number of waiting callers |
| BridgeRun.StepTask | codex_shim/cursor_bridge.py:807-979 | every step between two awaits does what is defined and keeps the session sound |
| BridgeRun.ActionHolds | codex_shim/cursor_bridge.py:807-979 | whatever happens, each delivered result is held by its caller, with the job's ids, tool and output |
| BridgeRun.ActionPolls | codex_shim/cursor_bridge.py:952-960 | a poll returns one result for each job that it moves from ready to consumed, in the order of the jobs, leaves none ready and reports those pending |
| BridgeRun.ReadyPayloadsAre | codex_shim/cursor_bridge.py:952-957 | what a poll collects is one result for each ready job, in the order of the jobs |
| BridgeRun.LogTellsSchedule | codex_shim/cursor_bridge.py:789-797 | the outputs in the log are exactly those that the schedule ingests, in order, and every call the schedule begins is a task |
| BridgeRun.DictionariesFind | codex_shim/cursor_bridge.py:786-805 | the dictionaries find exactly the jobs that have not been consumed |
| BridgeRun.IngestOne | codex_shim/cursor_bridge.py:789-797 | an output completes its call exactly if the call's job is pending, and changes no other job |
| Bridge.CallIdsApart | codex_shim/cursor_bridge.py:827 | a call id belongs to one call of one bridge |
| Bridge.WaitersMeans | codex_shim/cursor_bridge.py:890-933 | the count is that of the tasks that are blocked in a wait or a poll, or have been woken and are after the lock |
| Bridge.JobAdded | codex_shim/cursor_bridge.py:826-837 | registering a job keeps both dictionaries one-to-one with the jobs not yet consumed |
| Bridge.JobAnswered | codex_shim/cursor_bridge.py:789-797 | ingesting an output makes only the pending job of that call ready |
| Bridge.JobTaken | codex_shim/cursor_bridge.py:799-805 | consuming a ready job delivers its answer and removes it from both dictionaries |
| Bridge.CursorBridgeSession.BeginInvoke | codex_shim/cursor_bridge.py:807-815 | an invocation with unusable arguments ends at once and creates nothing |
| Bridge.CursorBridgeSession.RunInvoke | codex_shim/cursor_bridge.py:817-867 | a job is created exactly for an allowed invocation with somewhere to write its call; otherwise nothing stays registered |
| Bridge.CursorBridgeSession.RegisterJob | codex_shim/cursor_bridge.py:826-862 | the new job is pending under fresh ids in both dictionaries |
| Bridge.CursorBridgeSession.WithdrawJob | codex_shim/cursor_bridge.py:863-867 | without a stream and a collector the job leaves no trace but its number |
| Bridge.CursorBridgeSession.FinishEmit | codex_shim/cursor_bridge.py:841-852 | however writing the call ends, the lock is free again and the job stays registered |
| Bridge.CursorBridgeSession.CompleteCall | codex_shim/cursor_bridge.py:789-797 | true exactly for the first output of a pending job, which becomes ready with it; no other job changes |
| Bridge.CursorBridgeSession.BeginWait | codex_shim/cursor_bridge.py:879-888 | a wait finds its job or ends at once; nothing happens to any job |
| Bridge.CursorBridgeSession.TakeJob | codex_shim/cursor_bridge.py:918-923 | with the lock, a ready job is handed to this caller and to nobody else; a consumed one is unknown |
| Bridge.CursorBridgeSession.ConsumeJob | codex_shim/cursor_bridge.py:799-805 | a delivery carries the job's answer, once |
| Bridge.CursorBridgeSession.CollectJobs | codex_shim/cursor_bridge.py:952-960 | a poll hands out every ready job, oldest first, leaves none ready and reports the number pending |
| Bridge.CursorBridgeSession.ResumeWait | codex_shim/cursor_bridge.py:895-918 | a waiter wakes for a result or a timeout and stays counted only while it waits |
| Bridge.CursorBridgeSession.Cancel | codex_shim/cursor_bridge.py:924-925 | a cancelled call gives up its place among the waiters and the lock, and takes no result |
| BridgeRegistry.CursorBridgeRegistry.SessionOfCall | codex_shim/cursor_bridge.py:1138-1148 | the call index, with the scan behind it, finds exactly the session that looking at all sessions finds; at most expired sessions without outstanding calls are closed on the way |
| BridgeRegistry.RunRegistry | codex_shim/cursor_bridge.py:981-1167 | main result: registrations, actions of the sessions, turns that bring outputs, lookups and closings, in any order, do what is defined without the index of calls: each output of a turn is handed to the session that owns its call, if there is one, and every remaining session is exactly as after the outputs that it was handed; in every state a call has one owner and every session delivers its results once |
| BridgeRegistry.LogsGrow | codex_shim/cursor_bridge.py:1127-1158 | the outputs of a turn extend the log of each session by exactly those that it is handed, in order, and change nothing of a session that is handed none |
| BridgeRegistry.CursorBridgeRegistry.OwnersMade | codex_shim/cursor_bridge.py:836-838 | an outstanding call is one of its session's own, and the index knows no other session for it |
| BridgeRegistry.CursorBridgeRegistry.OwnersSeen | codex_shim/cursor_bridge.py:1138-1148 | the dictionaries own exactly the calls of jobs that have not been consumed, each in one session |
| BridgeRegistry.CursorBridgeRegistry.ByIndex | codex_shim/cursor_bridge.py:1141-1142 | the fast path returns the owner or nothing, and never closes it |
| BridgeRegistry.CursorBridgeRegistry.IngestOutputs | codex_shim/cursor_bridge.py:1127-1158 | each output of a turn goes to the session that owns its call, each session is as after the outputs handed to it, and the count is that of the completed calls |
| BridgeRegistry.CursorBridgeRegistry.ActOn | codex_shim/cursor_bridge.py:836-838 | an action changes its own session only, and the step that makes a job indexes its call |
| BridgeRegistry.CursorBridgeRegistry.Scan | codex_shim/cursor_bridge.py:1142-1146 | the scan alone finds an owner exactly when there is one |
| BridgeRegistry.CursorBridgeRegistry.OneOwner | codex_shim/cursor_bridge.py:1138-1148 | no two sessions own a call |
| BridgeRegistry.CursorBridgeRegistry.IngestOutput | codex_shim/cursor_bridge.py:1127-1158 | an output is handed to the session that owns its call and completes it exactly if the job was pending; a session that does not own the call at most logs it; no other session changes, and the registry stays valid |
| BridgeRegistry.CursorBridgeRegistry.Register | codex_shim/cursor_bridge.py:988-1000 | a session is listed under its id, in place of any other, and all calls keep their owners |
| BridgeRegistry.CursorBridgeRegistry.Get | codex_shim/cursor_bridge.py:1094-1101 | a session is returned unless it is unknown, or expired with nothing outstanding and then closed |
| BridgeRegistry.CursorBridgeRegistry.Close | codex_shim/cursor_bridge.py:1160-1167 | a closed session, its calls and its agent are gone, and no other session is touched |
| BridgeRegistry.CursorBridgeRegistry.IntroducesUserIntent | codex_shim/cursor_bridge.py:1033-1042 | true exactly when some fingerprint has been seen by no session |
| BridgeRegistry.CursorBridgeRegistry.CancelLiveAgents | codex_shim/cursor_bridge.py:1044-1075 | no agent of the key stays alive except the excluded one, no other agent is touched, and the count is that of the agents that were alive |
| NousAuth.RunCalls | codex_shim/nous_auth.py:104-291 | main result: for all calls in one process over any initial files, with disk, locks and portal failing in any way: no refresh token is posted again once its post has brought a replacement, if and only if nothing is posted after a replacement that was dropped because its date of expiry overflowed; and as long as none was dropped, unless an answer was lost the portal's token is the one in memory or in `auth.json`, and with nothing in memory both files carry it; after a call that can write what waits in memory, nothing does |
| NousAuth.OverflowExample | codex_shim/nous_auth.py:199-201 | an answer with a new token and a lifetime beyond the last date: the next refresh posts the replaced token again |
| NousAuth.NousOAuth.ReuseMeans | codex_shim/nous_auth.py:154-247 | a token is reused exactly when something is posted after a dropped replacement |
| NousAuth.NousOAuth.ExchangeAndKeep | codex_shim/nous_auth.py:180-247 | an overflowing date of expiry escapes after the exchange and leaves files and memory as they were; any other answer is kept |
| NousAuth.NousOAuth.Refresh | codex_shim/nous_auth.py:120-151 | with a pair waiting in memory nothing is posted; otherwise, with the lock and readable files, exactly the stored token is; when the answer rotates the token and one write attempt goes through, it succeeds, nothing waits and both files carry the answer's tokens |
| NousAuth.NousOAuth.RefreshLocked | codex_shim/nous_auth.py:154-247 | one exchange of the stored token if there is one; it succeeds when the answer rotates the token and one write attempt goes through, and then both files carry the answer's tokens; an overflowing date of expiry raises |
| NousAuth.NousOAuth.TakeAnswer | codex_shim/nous_auth.py:193-247 | after an answer the pair is on disk or in memory, with the newest tokens; true exactly when one write attempt goes through and the answer brought an access token, and then both files carry the tokens and the rest of `auth.json` is kept |
| NousAuth.NousOAuth.PersistRotated | codex_shim/nous_auth.py:250-275 | true exactly when one of the attempts goes through; then both files carry the pair and nothing waits, and otherwise the pair waits |
| NousAuth.NousOAuth.AtomicWritePair | codex_shim/nous_auth.py:460-492 | true exactly when the write goes through, and then both files carry the pair; the shared file never gets the new pair before `auth.json` |
| NousAuth.NousOAuth.CommitShared | codex_shim/nous_auth.py:455-457 | a staged file is used up by the move even when setting its mode fails; true exactly when both succeed |
| NousAuth.NousOAuth.FlushPendingPersist | codex_shim/nous_auth.py:278-291 | a retry posts nothing and never loses the waiting pair; with the lock and one attempt that goes through both files carry it and nothing waits |
| NousAuth.NousOAuth.RefreshOnStartup | codex_shim/nous_auth.py:104-117 | after one success nothing is posted again |
| NousAuth.NousOAuth.ResolveApiKey | codex_shim/nous_auth.py:69-95 | the newest access token, wherever it is kept; with nothing in memory, what the two files hold |
| NousAuth.NousOAuth.Exchange | codex_shim/nous_auth.py:351-378 | the portal replaces only its current token, and the new one has never been replaced; an answer may also repeat the posted token or bring none |
| CliConfig.InstallAndRestore | codex_shim/cli.py:976-1024 | main result: one or more installations and a restore give back every assignment if and only if every managed value is stripped and does not repeat its own key and no managed feature is blank |
| CliConfig.RoundTrip | codex_shim/cli.py:1506-1526 | putting the kept values back gives the original assignments exactly when every kept value is stripped and does not repeat its own key and no kept feature is blank |
| CliConfig.RestorableMeans | codex_shim/cli.py:1987-1994 | writing a stored value back leaves it as it is exactly when it is stripped and its part before its first `=` is not its key |
| CliConfig.LostValues | codex_shim/cli.py:1987-1994 | `model = model = x` and a blank feature value are lost |
| CliConfig.BesideOwn | codex_shim/cli.py:1506-1526 | beside assignments of no managed key the kept values come back as they were exactly when they are restorable |
| ConfigLines.EditOutside | codex_shim/cli.py:1977-2085 | replacing lines outside of the blocks leaves the earlier values in the blocks as they are and replaces just those lines in what is unmanaged |
| ConfigLines.UnmanagedConcat | codex_shim/cli.py:1977-1984 | lines that end outside of a block keep what is unmanaged of them, whatever follows |
| CliConfig.InstallEditRestore | codex_shim/cli.py:1506-1526 | main result: installations and edits outside of the managed blocks, in any order after a first installation, and a restore: what the blocks keep is put back into what the last file denotes outside of them, exactly unless the features header is glued to the last line: a visible feature value is kept, no features header is left outside of the blocks, and what is left of the file ends with a newline or is nothing but kept top-level values. If no edit left a managed key assigned, the result has the edited assignments and the managed ones as before the first installation, exactly when those are restorable and no header is glued |
| CliConfig.GluedHeaderExample | codex_shim/cli.py:2208-2211 | over `foo = 1` and a features section that assigned `false`: after the line with the header has been deleted, a restore writes `foo = 1[features]` and the kept value before any section |
| CliConfig.GluedDenotes | codex_shim/cli.py:2210-2211 | a glued header heads no section: the section has no assignment, the assignment it is glued to has another value, and the new one stands in that assignment's section |
| CliConfig.GluesMeans | codex_shim/cli.py:1520-1525 | the condition on the file is exactly that of the last step: a feature value to put back, and a text that is not blank, ends with a newline and has no features header |
| CliConfig.RestoreMeetsEdits | codex_shim/cli.py:1506-1526 | what the user assigned to a top-level key outside of the blocks stays, a kept feature value that is not blank replaces the user's, and every other assignment stays |
| CliConfig.InstallForgets | codex_shim/cli.py:985-991 | an installation goes on keeping every kept top-level value exactly unless some managed key, but not all the kept ones, is assigned outside of the blocks |
| CliConfig.ChangeKeeps | codex_shim/cli.py:982-1009 | as long as no managed key is assigned outside of the blocks, installations and edits keep what the first installation kept |
| CliConfig.InstallCodexConfig | codex_shim/cli.py:976-1024 | an installed file sets the shim's values, denotes the other assignments unchanged, keeps the earlier values in its blocks, and without its blocks denotes the unmanaged assignments and has a features header |
| CliConfig.RestoreCodexConfig | codex_shim/cli.py:1506-1526 | a restored file denotes what the file denotes outside the blocks, plus the kept top-level values it lacks and the kept feature values, exactly unless the features header is glued to the last line; then it is that text |
| CliConfig.KeptAgain | codex_shim/cli.py:982-1009 | installing over an installation keeps what the first one kept |
| CliConfig.RemoveManagedConfig | codex_shim/cli.py:1977-1984 | every finished block is removed, leaving an empty line, and from an unfinished one on everything; the text then ends as it did, or with the newline before the block |
| CliConfig.ApplyManagedFeatures | codex_shim/cli.py:1929-1952 | the block goes inside a features section, and around it the assignments are unchanged |
| CliConfig.UpsertKeyInSection | codex_shim/cli.py:2176-2211 | afterwards the section assigns the value to the key, and every other assignment is as before, exactly unless there is no header of the section and the text is not blank and ends with a newline; then the header is glued to the last line |
| CliConfig.ExtractTopLevelKeys | codex_shim/cli.py:2027-2039 | what is extracted is what the file denotes for the keys before its first section |
| CliConfig.ExtractSectionKeys | codex_shim/cli.py:2125-2138 | what is extracted is what the file denotes for the keys in the section |
| CliConfig.RemoveTopLevelKeys | codex_shim/cli.py:2012-2024 | only the keys' lines before the first section are gone, and with them just their assignments; the text ends as it did |
| CliConfig.RemoveKeysFromSection | codex_shim/cli.py:2141-2156 | only the keys' lines in the section are gone, and with them just their assignments; the text ends as it did |
| CliConfig.RemoveSection | codex_shim/cli.py:2105-2118 | only the section's lines are gone, and with them just its assignments; the text ends as it did |
| CliConfig.RestoreMissingTopLevelKeys | codex_shim/cli.py:2088-2102 | kept values are written in front, in the restore order, for the keys the file does not assign, and for no other |
| CliConfig.RestoreFeaturesKeys | codex_shim/cli.py:2159-2173 | kept feature values that are not blank are assigned in the features section, exactly unless there is one and its header is glued to the last line |
| CliConfig.FeaturesHaveAssignments | codex_shim/cli.py:1960-1974 | true exactly when the file denotes something in the features section |
| ConfigLines.BlockRemoved | codex_shim/cli.py:1977-1984 | a block between unmanaged lines leaves one blank line |
| ConfigLines.RemoveBlock | codex_shim/cli.py:1977-1984 | removing one finished block changes nothing of what removing all leaves, the end of the text included |
| ConfigLines.LinesWithoutDenote | codex_shim/cli.py:2012-2024 | without the keys' lines of a section just their assignments are missing |
| ConfigLines.LinesOutsideDenote | codex_shim/cli.py:2105-2118 | without a section's lines just its assignments are missing |
| ConfigLines.PreviousOutside | codex_shim/cli.py:2042-2085 | earlier values are looked for only inside managed blocks |

## Left out

- ResponsesStream.Translate: covers chat streams in which each call's first fragment carries its whole name, apart from outer spaces, and no later fragment carries any: streams that send a name in pieces or repeat it are left out. A deferred name has no output index until it is resolved, and its resolving fragment is appended twice. Custom tool calls, the Anthropic-upstream half, synthetic function calls and usage counts are not modelled.
- ResponsesStream.ResponsesStreamState.AppendReasoning: a delta may follow the item's done event, as in the code, so agreement with the done event is stated for the deltas before it.
- ResponsesStream.ResponsesStreamState.CloseTurnItems: has no loops over calls, because the fragment that completes a call's arguments has closed it already; custom tool calls, whose completeness is decided only at the end, are not modelled.
- ResponsesStream.ResponsesStreamState.Response: leaves the order within each dictionary open, which does not change the sorted list; item ids are not part of the items.
- ResponsesStream.ResponsesStreamState.InterruptCursorToolActivities: leaves the order of the activities open.
- AnthropicStream.Translate: leaves out the usage numbers in the terminal event.
- CursorTurn.StreamAndCollect: compares the messages; reasoning items differ by design, and a tool activity whose call id is used twice loses its first record in the streamed output. Markdown renderings are inputs.
- Replay.Converse: starts from an empty directory, serves one session whose response ids are distinct and left alone by sanitizing, and no write fails; the body sanitizing of the ChatGPT passthrough is not modelled. Conversations whose input is not a list are left out.
- InputPipeline.PrepareItems: the texts of warnings and the audit of compaction input are left out; fields other than type and ids are texts.
- ConversationCache.Serve: runs are sequential; with several threads the file is written outside the lock. Files hold what was written to them: unreadable or foreign files are not modelled.
- ConversationCache.ChatgptConversationCache.RestartAndReindex: holds in tidy runs, in which all keys are left alone by sanitizing and every file to be removed is removed; `Serve` states it on the operations of a run.
- ConversationCache.ChatgptConversationCache.CapSessions: leaves the order of the sessions open, which does not change the result.
- BridgeRun.RunSchedule: jobs are records in a list that tasks refer to by position, so aliasing of job objects is not shown; fair queueing for the lock, expiry clocks, the event queue of the agent and the memo of tool names are left out; random job ids are assumed never to repeat.
- BridgeRegistry.RunRegistry: actions of sessions that are no longer registered, the adoption of agents by a later turn and the release of idle sessions are left out; live agents are not part of the pictures that a run compares.
- BridgeRegistry.CursorBridgeRegistry.Register: leaves out the sweep of expired sessions.
- NousAuth.RunCalls: one process that is not killed and alone rotates the token; the reset of the start-up state used by tests, headers, scopes and expiry times, apart from their overflow, are left out, and so is an error on releasing a lock that is itself a timeout. After a lost answer the portal holds a token nobody received.
- CliConfig.InstallAndRestore: lines are empty, white space, comments, section headers or assignments with stripped texts, separated by newlines; keys do not start with a bracket, and a marker of the shim stands alone on its line, without white space around it. The file has no legacy shim section and there is no backup file. Migration of threads is left out.
- CliConfig.InstallEditRestore: neither the first file nor an edit contains a glued features header, which the next installation or restore would separate again (codex_shim/cli.py:1955-1957); a restore is the last step of a run.
- HTTP, WebSocket and event-stream transport, retries, subprocesses, the picker user interface, routing, catalogs, discovery and quota reports: input and output, or mappings that would add only easy members.
