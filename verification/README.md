# Verification of the gateway's hard parts

This project models the hard parts of the gateway's server and proves what they promise over
all inputs, all runs and all crash points:

- **The response path** (`server/src/anthropic/messages.rs`). The provider's event stream
  becomes the block-structured Anthropic stream. `StopFiltering.StopFilter`,
  `ResponseTranslation.ResponseTranslator` and `Assembly.MessageAssembler` are the mutable
  objects of the program; each method is proved against a function on its state
  (`Filtered`, `Translation.Pushed`, `Assembly.Assembled`, ...). The run-level theorems are
  about whole sessions of these functions. `Protocol.Read` is an independent definition of
  the wire protocol: a client that accepts exactly the well-formed streams.
- **The inbound projection** (`history` in the same file). System messages leave the
  conversation and come back as operator notes that never part a tool call from its result.
- **The three takeovers** (`server/src/claude_code/settings.rs`, `ownership.rs`,
  `desktop.rs` and `server/src/codex/config.rs`). Each is a small transactional protocol over
  a document the user also edits, with a receipt that must stay enough to get back. The
  objects `CliHome`, `DesktopHome` and `CodexHome` do their writes in the program's order;
  the state between two writes is the state after a crash. What undoing now would leave
  (`CliTakeover.View`, `Desktop.Undone`, the outcome of a Codex restore) is the conserved
  quantity of whole runs, in which any action may crash.
- **Model assignment** (`server/src/devin/assignment.rs`, `wire.rs`). The message encoding, a
  depth-bounded scan of a message and the choice among what it found;
  `AssignmentProperties.Leads` defines independently, by paths, what a message names.

What each operation computes is also said without its own functions, and the two are proved
equal: `Protocol.Read` and `ClientView.Moves` for the stream, `HistoryContent.Says` for the
projection, `CliOutcome.Unrivalled` and `CodexOutcome.Unclaimed` for what is accepted,
`CodexMode.Wanted` for the guard, `DevinGrammar.Spells` for the encoding, and
`AssignmentProperties.Leads` and `AssignmentHeaders.Speaks` for model assignment.

Text is `seq<char>`, documents are trees and maps, and a file write is one step.
Arguments that come from outside (the clock, fresh ids, the sign-in state, published
catalogs, JSON and UTF-8 decoding) are parameters, so that the theorems hold for all
of them.

Some claims one might expect are false of the code. Each has its exact condition, and an input
that shows it where the condition does not spell one out:

- The cutting of a text into deltas does not matter if and only if the list of stop
  sequences is `Stable`: a list may contain factors of one another as long as no sequence
  that can be reported contains another one that ends before its last character
  (`ChunkIndependentIffStable`, `CuttingCanMatter`). The same holds for the whole
  non-streaming answer (`CuttingDoesNotMatterIff`).
- Block starts come in the order 0, 1, 2, ... if and only if no other block opens while a
  tool call is pending (`StartsInOrderIffOrderly`, `DisorderIsPossible`).
- A session's stream is well-formed if and only if `fail` is not called after the end; the
  program writes its error event there too (`SessionIsWellFormed`, `FailAfterFinishBreaks`).
- With every provider index started once, all argument text of a session of tool events
  arrives if and only if none of it comes after its call and all calls before it have ended
  (`ToolSessionOutputIff`, `LateArgumentsAreDropped`); behind the call's own end alone it
  still arrives (`EndedIsNotTooLate`). With reused indices, `LedgerOutput` says what arrives.
- `settings_conflicts` looks at owned keys only while `env` exists. If the user deletes all
  of `env`, the next apply writes the owned keys again (`UserChangeSurvivesIff`,
  `RemovedEnvIsRewritten`), and the original `env` object is not given back as it was
  (`ApplyConservesIff`).
- A CLI re-apply that crashes between its writes leaves what undo would give unchanged if and
  only if `env` is gone or each owned key has our value, which was not going to change, or its
  original (`CliTakeover.CrashedReapplyIff`). It can fail even if no value was going to change,
  when the user had already set the one being written (`CrashTakesUsersValue`). A crashed
  first takeover never loses anything.
- A Desktop re-apply that crashes behind its receipt write is stuck if and only if it was
  going to change the profile (`DesktopTakeover.CrashedReapplyIff`). One that completes keeps
  what undo would leave if and only if there is an entry list and the applied id is ours or
  the original (`DesktopRuns.StepConservesIff`, `ChosenIdIsLost`).
- A Codex re-apply after a manual revert deletes the old receipt before its last refusal and
  before it writes the new one. Restoring gives the originals back if and only if the step is
  not such a re-apply, with owned fields still ours, that is refused or crashes there or finds
  no file (`StepRestoresIff`, `ReapplyCanLoseFields`).
- The guard gives the user's detail mode back unless the takeover is no longer applied: then a
  tick pays the journal back over a mode chosen since (`TickKeepsWantedIff`).
- A Codex takeover under a blank model is not applied, so the guard pays a leftover journal
  back into the new document (`RoundTripIff`, `BlankModelSpoils`).
- Desktop undo leaves an empty `entries` list where there was none (`DesktopTakeover.RoundTripIff`).
- The path reported with a model reference depends on the order of the fields unless all
  fields with a best candidate agree on their first path (`PathIndependentIff`,
  `PathDependsOnOrder`).
- Forgetting expired tokens is invisible if and only if no call came at or after the expiry
  of a token that would be good again, which takes a clock that goes back
  (`PruningIsInvisibleIff`, `PruningShowsWhenTheClockGoesBack`).

## Model

| member | source | states |
|---|---|---|
| StopMatching.EarliestMeaning | server/src/anthropic/messages.rs:1377-1387 | the match found is leftmost in the whole text and, among the sequences matching there, the one listed first; none is found only if no sequence occurs anywhere |
| StopMatching.PendingMeaning | server/src/anthropic/messages.rs:1390-1406 | the held-back length is that of the longest suffix that begins some sequence |
| StopFiltering.EarliestMatch | server/src/anthropic/messages.rs:1377-1387 | the loop that takes one sequence at a time gives the answer of a left-to-right scan |
| StopFiltering.PendingSuffix | server/src/anthropic/messages.rs:1390-1406 | the loop over the suffixes finds the longest dangerous one |
| StopFiltering.StopFilter.constructor | server/src/anthropic/messages.rs:1346-1352 | an empty buffer and no stop |
| StopFiltering.StopFilter.Push | server/src/anthropic/messages.rs:1354-1370 | new filter state and released text for one delta |
| StopFiltering.StopFilter.Flush | server/src/anthropic/messages.rs:1372-1375 | releases exactly the buffer and keeps the rest of the state |
| StopFiltering.RunInvariant | server/src/anthropic/messages.rs:1354-1375 | after any deltas without a match: sent plus buffer is the whole input, the input contains no sequence, and the buffer is the longest dangerous suffix of the whole input; after a match, what was sent is clean and directly followed by the stop sequence in the input |
| StopFiltering.PushIsBatch | server/src/anthropic/messages.rs:1354-1370 | one push answers as a matcher that sees all text since the last flush, so a sequence split over deltas is never missed or leaked |
| ChunkIndependence.RunIsBatch | server/src/anthropic/messages.rs:1354-1387 | for a stable list, sent text and reported sequence equal the batch answer for every cutting |
| ChunkIndependence.ChunkIndependentIffStable | server/src/anthropic/messages.rs:1354-1387 | the outcome is the same for all cuttings of all texts if and only if the list is stable |
| ChunkIndependence.FactorFreeIsStable | server/src/anthropic/messages.rs:1354-1387 | lists in which no sequence is a factor of another are stable |
| ChunkIndependence.CuttingCanMatter | server/src/anthropic/messages.rs:1377-1387 | `["abcd", "bc"]` is a list for which the cutting shows |
| ResponseTranslation.ResponseTranslator.constructor | server/src/anthropic/messages.rs:806-825 | a new translator has reserved, opened and seen nothing |
| ResponseTranslation.ResponseTranslator.Close | server/src/anthropic/messages.rs:1144-1162 | closes the open block after sending the text still held back |
| ResponseTranslation.ResponseTranslator.CloseKind | server/src/anthropic/messages.rs:1138-1142 | closes only a block of this kind |
| ResponseTranslation.ResponseTranslator.Open | server/src/anthropic/messages.rs:1047-1075 | closes what is open and starts a block at the next index |
| ResponseTranslation.ResponseTranslator.EnsureOpen | server/src/anthropic/messages.rs:1040-1045 | opens a block unless one of this kind is open |
| ResponseTranslation.ResponseTranslator.FlushTool | server/src/anthropic/messages.rs:1077-1105 | delivers a call whole under its reserved index, behind the closing of the open block |
| ResponseTranslation.ResponseTranslator.FlushFinishedTools | server/src/anthropic/messages.rs:1107-1116 | delivers the longest run of ended calls at the front, and no call past one that has not ended |
| ResponseTranslation.ResponseTranslator.RedactedBlocks | server/src/anthropic/messages.rs:1164-1190 | each redacted block of an anthropic replay state passes as a block of its own, in order |
| ResponseTranslation.ResponseTranslator.PushText | server/src/anthropic/messages.rs:868-886 | sends what the filter releases, and on a hit closes the block and remembers the sequence |
| ResponseTranslation.ResponseTranslator.PushTool | server/src/anthropic/messages.rs:921-956 | reserves, buffers or ends the call with this provider index; deltas for unknown calls are dropped |
| ResponseTranslation.ResponseTranslator.Push | server/src/anthropic/messages.rs:848-973 | state and output for every provider event, before and after a stop |
| ResponseTranslation.ResponseTranslator.Finish | server/src/anthropic/messages.rs:975-998 | delivers all reserved calls, closes, and ends the message, once |
| ResponseTranslation.ResponseTranslator.Fail | server/src/anthropic/messages.rs:1000-1007 | one error event of this kind and message, and the translator is finished |
| ProtocolProof.PushedLinked | server/src/anthropic/messages.rs:848-973 | every event keeps the invariant between translator and client: the open block is the one the client is in, each reserved index is started or waits, never both, tools wait in ascending order, and the filter holds exactly the input of the open text block |
| Sessions.SessionIsWellFormed | server/src/anthropic/messages.rs:827-1007 | from its start on, a session is accepted by the protocol reader if and only if it reports no failure after the end; no text block, finished, open or cut off, contains a stop sequence; a finished session starts and stops every index below `nextIndex` exactly once, tools in ascending order |
| Sessions.FailAfterFinishBreaks | server/src/anthropic/messages.rs:1000-1007 | finish and then fail is such a session: the error event follows `message_stop` |
| Sessions.FailureIsTold | server/src/anthropic/messages.rs:1000-1007 | a failure tells its own kind and message, and only adds to what was sent |
| Sessions.SilentAfterEnd | server/src/anthropic/messages.rs:848-852 | after the end, push and finish produce nothing and change nothing |
| Sessions.QuietAfterStop | server/src/anthropic/messages.rs:853-863 | once a stop sequence is set, no text, thinking or signature is ever sent again, whatever follows, and the reported sequence stays |
| Conservation.NothingIsLost | server/src/anthropic/messages.rs:848-998 | the client receives all thinking and all text heard before the stop, in order and without gaps; text after a match ends right before an occurrence of the stop sequence; without a stop nothing is missing |
| Conservation.ToolsAreUndisturbed | server/src/anthropic/messages.rs:921-956 | interleaved text, thinking, stops and opaque blocks change nothing about the tool calls delivered: same calls, order and arguments as in a session of the tool events alone |
| ClientView.OpaqueBlocksPass | server/src/anthropic/messages.rs:1164-1190 | for every event list, before and after a stop: the opaque blocks that reach the client are, in order and unchanged, the entries typed `redacted_thinking` of the block lists of all replay states of kind `anthropic` |
| ClientView.SignaturesPass | server/src/anthropic/messages.rs:905-918 | the signatures that reach the client are, in order, those that came while it was in a thinking block |
| ClientView.BlocksMove | server/src/anthropic/messages.rs:848-973 | for every event list and one more event, told from the client alone: starts open a new block, deltas stay in a block of their kind or open a new one, ends close only their own kind, delivered tools and opaque blocks close whatever is open, a stop closes it for good, and nothing else moves |
| ClientView.FirstStopCounts | server/src/anthropic/messages.rs:853-966 | the sequence reported is that of the first stop event or of the first match in the text, whichever comes first, and never changes |
| StartOrder.OpensMeaning | server/src/anthropic/messages.rs:848-973 | whether a call opens a block other than a tool's can be told before it from event and state: a start, a delta whose kind is not open, or a replay state with a redacted block |
| StartOrder.StartsInOrderIffOrderly | server/src/anthropic/messages.rs:1047-1116 | the starts of a finished message are 0, 1, 2, ... if and only if no call opens another block while a tool call is pending |
| StartOrder.DisorderIsPossible | server/src/anthropic/messages.rs:866-868 | a text block opened while a call is pending takes the later index first |
| ToolLedger.LedgerOutput | server/src/anthropic/messages.rs:921-956 | for any tool events, reused indices, repeated starts and late arguments included, the output is one delivery per call of the ledger in call order; a call is out of reach once it and all before it have ended |
| ToolLedger.LedgerBooks | server/src/anthropic/messages.rs:921-956 | at any time during such a session what was sent is the deliveries of the leading ended calls, and all others wait |
| Interleaving.LedgerAgainstTools | server/src/anthropic/messages.rs:921-956 | if each index starts once, the ledger holds every call with all arguments sent for it as long as no argument text comes behind its call's delivery, and is short of text from then on; nothing else differs |
| Interleaving.ToolSessionOutputIff | server/src/anthropic/messages.rs:921-998 | with each index started once, the output is one delivery per call, in call order, with all arguments sent for it, if and only if no argument text comes after its call and all calls before it have ended; unreported ends do not matter |
| Interleaving.EndsLastIsInTime | server/src/anthropic/messages.rs:943-956 | that is so whenever no call gets arguments after its own end |
| Interleaving.EndedIsNotTooLate | server/src/anthropic/messages.rs:943-956 | but arguments behind their call's own end arrive while an earlier call is open |
| Interleaving.LateArgumentsAreDropped | server/src/anthropic/messages.rs:943-948 | equal calls and equal pieces per call with different outputs: in one list the piece comes behind the delivery |
| Interleaving.InterleavingIndependenceIff | server/src/anthropic/messages.rs:921-998 | for equal call order and equal pieces per call, another list has the same output as one that is in time if and only if it is in time too |
| Assembly.MessageAssembler.constructor | server/src/anthropic/messages.rs:1203-1205 | nothing received |
| Assembly.MessageAssembler.Push | server/src/anthropic/messages.rs:1207-1271 | the fold of one event; it fails only on a block's end with unreadable arguments |
| Assembly.MessageAssembler.Finish | server/src/anthropic/messages.rs:1273-1297 | the blocks in index order, whatever order they arrived in, under the message head or an empty one |
| Assembly.OwnFieldContinues | server/src/anthropic/messages.rs:1216-1250 | deltas continue the text or thinking that a block brought along |
| Refinement.DocumentFollows | server/src/anthropic/messages.rs:1207-1271 | along every well-formed stream the document follows the client's reading, or has met arguments that are not a JSON object |
| Refinement.ResponseIsStreamed | server/src/anthropic/messages.rs:848-1297 | for every event list: the non-streaming answer fails if and only if some delivered argument text is not a JSON object; otherwise entry i is the block streamed under index i, with the concatenation of its deltas and the parse of its full arguments |
| Reports.RunReports | server/src/anthropic/messages.rs:853-863 | usage and finish reason are the last ones reported, before or after a stop |
| Reports.ResponseHead | server/src/anthropic/messages.rs:975-1038 | a non-streaming answer carries the id and model of its start, the stop sequence, a stop reason in which the provider's limit and tool reasons win over that sequence, and the last usage reported, its context total split into input and cache figures |
| TextCutting.SplitDelta | server/src/anthropic/messages.rs:868-886 | for a stable list, a delta cut in two leaves the same translator, and both outputs assemble to the same document, from every reachable state |
| TextCutting.CuttingDoesNotMatter | server/src/anthropic/messages.rs:848-1297 | for a stable list, event lists that differ only in the cutting of adjacent text give the same document |
| TextCutting.CuttingDoesNotMatterIff | server/src/anthropic/messages.rs:848-1297 | the document is the same for all cuttings of all requests if and only if the list of stop sequences is stable |
| History.FlushParts | server/src/anthropic/messages.rs:627-641 | parts become one message, none if there are no parts |
| History.FlushSystem | server/src/anthropic/messages.rs:370-389 | all waiting system texts become one note under the first one's position |
| History.ToolResultMessage | server/src/anthropic/messages.rs:547-612 | text and parts of a tool result, and its refusals |
| History.UserMessage | server/src/anthropic/messages.rs:391-435 | a user message split around its tool results, with consecutive ordinals |
| History.AssistantMessage | server/src/anthropic/messages.rs:437-541 | text, thinking, replay blocks and numbered calls of an assistant message |
| History.Project | server/src/anthropic/messages.rs:293-358 | the whole projection, or its refusal |
| HistoryContent.ToolResultMeaning | server/src/anthropic/messages.rs:547-612 | a tool result is accepted if and only if it names its call and holds no unreadable part; its text is its texts line by line, its parts are its texts and images in order, under its own id and error flag |
| HistoryContent.UserMessageMeaning | server/src/anthropic/messages.rs:391-435 | a user message is accepted if and only if each block is; it becomes the same texts, images and results in the same order, in no more messages than the results require |
| HistoryContent.AssistantMessageMeaning | server/src/anthropic/messages.rs:437-541 | an assistant message is accepted if and only if each call has an id and a name; it becomes one message with its texts line by line, its thinking, its signed and redacted blocks, and its calls, or nothing if it has none of them |
| HistoryContent.TurnCounted | server/src/anthropic/messages.rs:391-435 | ordinals count in twos: parts before the n-th result have 2n, the result itself 2n + 1 |
| HistoryContent.ContentIsKept | server/src/anthropic/messages.rs:293-358 | a request is accepted if and only if it is not empty and each message is acceptable by itself; its projection then says, apart from notes, exactly what its user and assistant messages say, in order, and leading and note texts are exactly its system texts |
| HistoryNotes.OpeningLeads | server/src/anthropic/messages.rs:318-328 | leading are exactly the texts before the first conversation message |
| HistoryNotes.NotesAreInPlace | server/src/anthropic/messages.rs:336-389 | a note stands behind exactly the output of all earlier positions and, if the next conversation message answers tool calls, of that one; system messages without conversation between them share one note |
| HistoryNotes.NotesAreNamed | server/src/anthropic/messages.rs:370-389 | every note has ordinal zero and the position of the first text that waited for it |
| HistoryProperties.IdsAreDistinct | server/src/anthropic/messages.rs:643-651 | the id strings of an accepted conversation are pairwise different, split messages and late notes included |
| HistoryProperties.SystemMessagesDoNotInterfere | server/src/anthropic/messages.rs:293-358 | deleting all system messages from the input deletes exactly the notes from the output, up to ids |
| HistoryProperties.SystemTextsAreKept | server/src/anthropic/messages.rs:293-389 | leading texts, then the texts of the notes, are exactly the non-empty system texts in order |
| HistoryProperties.NoNoteBetweenCallAndResult | server/src/anthropic/messages.rs:330-352 | no note lies between what an assistant message became and the results of the next user message |
| HistoryProperties.CallsAreNumbered | server/src/anthropic/messages.rs:437-541 | in every projected assistant message the call at position k carries index k |
| CliSettings.ValuesCover | server/src/claude_code/settings.rs:540-582 | the values of a valid route are managed keys only: the route's URL under `ANTHROPIC_BASE_URL`, its token under `ANTHROPIC_AUTH_TOKEN`, the attribution header "0", model and name of each family used, nothing for the others |
| CliSettings.DesiredValues | server/src/claude_code/settings.rs:551-601 | refuses exactly the invalid routes and else gives the route's values |
| CliOutcome.ValidRouteIff | server/src/claude_code/settings.rs:551-601 | a route is accepted if and only if its URL and token are good, no model is blank and no family is named twice |
| CliSettings.RestoreOurs | server/src/claude_code/settings.rs:607-622 | record by record, exactly the keys that still hold our value go back to their original, in any order of the records |
| CliSettings.SettingsConflicts | server/src/claude_code/ownership.rs:135-256 | the conflicts found are exactly those that hold: a key helper, a wrong `env`, a foreign value on a guarded key, an owned key changed to something else |
| CliOutcome.OffIff | server/src/claude_code/ownership.rs:268-281 | a switch is off if and only if it is false, null, zero, blank, or "0" or "false" in any case with white space around it |
| CliOutcome.AcceptedIff | server/src/claude_code/ownership.rs:135-256 | an apply is accepted if and only if the program is there, unmanaged, its settings are readable, the receipt is for this file, no helper, endpoint, key or provider switch rivals the gateway, and no owned key was changed to anything but the string being written |
| CliSettings.ForeignValues | server/src/claude_code/ownership.rs:175-233 | the guarded keys with values that are neither ours nor wanted |
| CliSettings.ChangedValues | server/src/claude_code/ownership.rs:236-256 | the owned keys that no longer hold our value, nor the string being written |
| CliSettings.NewRecords | server/src/claude_code/settings.rs:329-352 | kept keys keep their first original, new keys record what the document held before any change |
| CliSettings.CliHome.constructor | server/src/claude_code/settings.rs:30-64 | the files and probes as found |
| CliSettings.CliHome.Apply | server/src/claude_code/settings.rs:266-415 | succeeds exactly without conflicts; receipt first, then settings; a refusal changes nothing |
| CliSettings.CliHome.Undo | server/src/claude_code/settings.rs:417-505 | restores our keys, removes an `env` it created when empty, and drops the receipt; a refusal changes nothing |
| CliTakeover.ApplyConservesIff | server/src/claude_code/settings.rs:315-376 | an apply leaves what undo would give unchanged if and only if no key it writes had been changed away from both our value and the original, and `env` was not removed |
| CliTakeover.StepConservesIff | server/src/claude_code/settings.rs:266-505 | from every readable state, an apply or undo, refused, done or crashed between its writes, conserves the document that undo would give if and only if it is not an apply or a crashed re-apply of the losing kind, told from the state before |
| CliTakeover.ViewIsConstantIff | server/src/claude_code/settings.rs:266-505 | over every run without user edits, crashes included, that document stays the same exactly as long as no action of the losing kind comes |
| CliTakeover.OnlyCrashesLose | server/src/claude_code/settings.rs:266-505 | from a state in which each owned key has our value or the original, no run has a losing action but a re-apply that crashes |
| CliTakeover.RoundTrip | server/src/claude_code/settings.rs:266-505 | after any applies, undos and safe crashes one more undo gives the original JSON object and no receipt; the file itself is back if and only if it existed or was never written |
| CliTakeover.UnmanagedKeysAreTheUsers | server/src/claude_code/settings.rs:355-376 | in every interleaving with edits and crashes, unmanaged variables and all other fields are what the user last wrote |
| CliTakeover.ReplacedValuesAreKept | server/src/claude_code/settings.rs:329-352 | a value that a successful apply replaces was ours or is saved in its record |
| CliTakeover.UserChangeSurvivesIff | server/src/claude_code/ownership.rs:150-256 | a changed owned key survives a successful apply if and only if `env` still exists or the key is not being written |
| CliTakeover.UserChangeSurvivesUndo | server/src/claude_code/settings.rs:447-480 | a changed owned key always survives undo |
| CliTakeover.RemovedEnvIsRewritten | server/src/claude_code/ownership.rs:162-164 | the losing case exists: with `env` deleted the key is written again |
| CliTakeover.CrashedTakeoverIsUndone | server/src/claude_code/settings.rs:394-402 | after a first takeover that crashed between receipt and settings, undo restores the exact state |
| CliTakeover.CrashedReapplyIff | server/src/claude_code/settings.rs:394-402 | after a re-apply that crashed there, undo still gives the same if and only if `env` is gone or each owned key has our value, which was not going to change, or its original |
| CliTakeover.CrashTakesUsersValue | server/src/claude_code/settings.rs:394-402 | it can fail with no value going to change: the user had set the very value, and undo now puts the original over it |
| CliTakeover.CrashedUndoIsFinished | server/src/claude_code/settings.rs:491-505 | an undo that crashed before dropping the receipt is finished by the next one |
| CliTakeover.ApplyEndsInPlace | server/src/claude_code/settings.rs:403-414 | a successful apply is reported as applied under its own route |
| CliOutcome.RouteIsInEffect | server/src/claude_code/settings.rs:315-414 | after an apply of a valid route Claude Code finds the gateway's URL, token and models; every other variable is as before, or back to its original if it was ours |
| CliOutcome.ReadyIffAccepted | server/src/claude_code/settings.rs:221-244 | before a first takeover the status is ready if and only if applying the gateway's values would be accepted |
| CliOutcome.ConflictIff | server/src/claude_code/settings.rs:180-244 | a takeover is in conflict if and only if some written value is not in place or the receipt is for another file |
| CliOutcome.UndoAcceptedIff | server/src/claude_code/settings.rs:417-460 | undo refuses exactly a receipt for another path and settings it cannot read |
| CliTakeover.ApplyIsIdempotent | server/src/claude_code/settings.rs:335-414 | applying the same route again is accepted and changes neither document nor receipt |
| CliTakeover.StaleIff | server/src/claude_code/settings.rs:190-240 | an unedited takeover is stale if and only if the written values differ from the gateway's or the gateway is down |
| Desktop.AddEntry | server/src/claude_code/desktop.rs:651-680 | our entry is renamed in place or appended; all others stay |
| Desktop.RemoveEntry | server/src/claude_code/desktop.rs:500-507 | exactly our entries go, order kept |
| Desktop.DesktopHome.constructor | server/src/claude_code/desktop.rs:29-70 | the files and probes as found |
| Desktop.DesktopHome.Apply | server/src/claude_code/desktop.rs:321-443 | refuses under policy, a running client, a foreign receipt, a malformed table or a modified profile; else receipt, profile, table in this order |
| Desktop.DesktopHome.Undo | server/src/claude_code/desktop.rs:445-546 | keeps a modified profile; else removes entry and profile, gives `appliedId` back if it is still ours, and drops the receipt |
| DesktopTakeover.OthersAreUntouched | server/src/claude_code/desktop.rs:495-541 | in every interleaving with edits and crashes, entries of others and unknown fields are what was last written from outside |
| DesktopTakeover.AppliesKeepTaken | server/src/claude_code/desktop.rs:321-443 | any number of applies is one takeover under the first id, with the first original |
| DesktopTakeover.RoundTripIff | server/src/claude_code/desktop.rs:321-546 | any applies and one undo restore table, profiles and receipt exactly if and only if the table had an entry list |
| DesktopTakeover.CrashedTakeoverIsUndone | server/src/claude_code/desktop.rs:423-441 | undo restores the exact state from both crash points of a first takeover |
| DesktopTakeover.CrashedReapplyIff | server/src/claude_code/desktop.rs:375-441 | behind the receipt write of a re-apply, undo and apply still work if and only if the profile was not going to change or is gone; else undo changes nothing and apply is refused; behind the profile write undo is fine |
| DesktopTakeover.CrashedUndoIsFinished | server/src/claude_code/desktop.rs:495-546 | an undo that crashed behind either of its first two writes is finished by the next one |
| DesktopRuns.StepConservesIff | server/src/claude_code/desktop.rs:321-546 | an apply or undo, refused, done or crashed behind any write, conserves the state that undo would leave if and only if it is not of the losing kind, told from the state before: a takeover under an id in use, an apply without an entry list or over someone else's applied id, or a re-apply crashing with another profile |
| DesktopRuns.UndoneIsConstantIff | server/src/claude_code/desktop.rs:321-546 | over every run without edits, crashes included, that state stays the same exactly as long as no action of the losing kind comes |
| DesktopRuns.RoundTrip | server/src/claude_code/desktop.rs:321-546 | from a table with an entry list, after any applies, undos and harmless crashes one undo restores table, profiles and receipt exactly |
| DesktopRuns.ChosenIdIsLost | server/src/claude_code/desktop.rs:321-443 | a re-apply over an id chosen in Desktop since makes undo give the older original instead |
| DesktopRuns.BlockedRun | server/src/claude_code/desktop.rs:321-470 | while Desktop runs, or under a policy or without Desktop and without a takeover, no run of actions writes anything |
| DesktopRuns.FirstAcceptedIff | server/src/claude_code/desktop.rs:321-375 | otherwise a first takeover is accepted if and only if the table is readable and its entries are a list |
| DesktopRuns.UndoAcceptedIff | server/src/claude_code/desktop.rs:445-495 | undo refuses exactly a receipt for another table, a running Desktop and, unless the profile was edited, a table it cannot read |
| DesktopRuns.ProfileIsInEffect | server/src/claude_code/desktop.rs:375-443 | after an apply our profile is written, our entry is listed under our name and applied, and the receipt knows the profile |
| CodexConfig.RestoreOwned | server/src/codex/config.rs:555-584 | all owned fields and our provider entry as in the reference, everything else as in the document |
| CodexConfig.CodexHome.constructor | server/src/codex/config.rs:229-258 | config, receipt and journal as found |
| CodexConfig.FieldConflicts | server/src/codex/config.rs:151-176 | exactly the owned fields, the provider entry included, that differ from the published ones |
| CodexConfig.CodexHome.Inspect | server/src/codex/config.rs:596-634 | applied means our route and a model that was published; in conflict means neither that nor the original route, or without a receipt somebody else's route |
| CodexOutcome.AppliedIff | server/src/codex/config.rs:498-539 | applied means the published provider, catalog and provider entry, and a model that is the published one or in the published catalog |
| CodexOutcome.ConflictIff | server/src/codex/config.rs:596-634 | with a receipt, in conflict means neither applied nor back to the original routing |
| CodexOutcome.NothingDiffersIff | server/src/codex/config.rs:151-176 | no field is reported if and only if all owned fields and our provider entry are as published |
| CodexConfig.CodexHome.WriteDetailTarget | server/src/codex/config.rs:371-387 | the detail mode is the target; a missing file stays missing |
| CodexConfig.CodexHome.RestoreOrphanClientMode | server/src/codex/config.rs:389-398 | a leftover journal is paid back and cleared |
| CodexConfig.CodexHome.EnsureLocalMode | server/src/codex/config.rs:413-471 | one guard tick: new detail mode and new journal in every combination of status, sign-in and journal |
| CodexConfig.CodexHome.DropGlobalLimits | server/src/codex/config.rs:827-871 | the legacy limits leave receipt and config together, or nothing changes |
| CodexOutcome.LimitsLeave | server/src/codex/config.rs:827-871 | dropping the limits is refused exactly over a foreign routing; both limits leave config and receipt, nothing else changes, and the status stays |
| CodexConfig.CodexHome.RepublishCatalog | server/src/codex/config.rs:895-945 | receipt and config point to the new catalog |
| CodexOutcome.NewCatalogIff | server/src/codex/config.rs:895-945 | config and receipt point to the new catalog and nothing else changes; an applied takeover stays applied if and only if the receipt or the new catalog has its model |
| CodexConfig.CodexHome.Apply | server/src/codex/config.rs:635-743 | first takeover, repeated apply, re-apply after a manual revert with rebased originals, and each refusal |
| CodexOutcome.PublishedTop | server/src/codex/config.rs:692-701 | model, provider, catalog and disabled web search are published under their names, and the legacy limits are gone |
| CodexOutcome.PublishedEntry | server/src/codex/config.rs:703-709 | our provider entry carries the route's URL and token and the fixed settings under their names |
| CodexTakeover.PublishedRest | server/src/codex/config.rs:692-709 | all other top-level fields, providers and desktop settings are as before |
| CodexOutcome.FirstAcceptedIff | server/src/codex/config.rs:635-691 | a first takeover is accepted if and only if the route is complete and the document selects no other provider, base URL or profile and has no entry of ours |
| CodexOutcome.AcceptedIff | server/src/codex/config.rs:650-691 | what is in conflict is refused and left alone; what is neither applied nor in conflict is accepted unless somebody else claims the document |
| CodexOutcome.TakenIsInPlace | server/src/codex/config.rs:692-742 | a first takeover is in place under its own route, and ticks keep it there |
| CodexOutcome.SwitchedModelIff | server/src/codex/config.rs:522-539 | with the model switched in the client it stays applied if and only if the model is the published one or in the published catalog |
| CodexOutcome.ReappliedIff | server/src/codex/config.rs:653-676 | while it is applied, exactly its own route is accepted again, and nothing changes, accepted or not |
| CodexConfig.CodexHome.Restore | server/src/codex/config.rs:744-789 | whole rollback or owned fields back, then the original detail mode, then journal and receipt gone |
| CodexOutcome.OrphanIsPaidBack | server/src/codex/config.rs:744-750 | without a receipt, restoring does what an idle tick does: a leftover journal is paid back and cleared |
| CodexRuns.AllWrites | server/src/codex/config.rs:635-743 | an apply with all of its writes done is the whole apply |
| CodexRuns.StepRestoresIff | server/src/codex/config.rs:413-945 | after any step, complete or crashed between any two of its writes, restoring gives the owned fields and the provider entry back if and only if the step is not a re-apply after a manual revert, with owned fields differing from the originals, that stops behind the removal of the receipt or finds no file |
| CodexTakeover.RestoreRecovers | server/src/codex/config.rs:744-789 | restore returns the owned fields and removes our provider entry, keeps the rest as found, and takes the receipt's detail mode |
| CodexRuns.OwnedFieldsAreRecovered | server/src/codex/config.rs:413-945 | over whole runs of takeovers, restores, republishes, limit drops, ticks, edits and crashes without the losing re-apply, one restore gives every owned field and the provider entry as the user last had them outside a takeover, and keeps everything else as found |
| CodexRuns.ReapplyCanLoseFields | server/src/codex/config.rs:673-690 | the losing re-apply: the route is reverted by hand, a profile selected, and the apply is refused or crashes, and our `web_search` stays in a file that had none |
| CodexTakeover.CrashedRestoreIsFinished | server/src/codex/config.rs:764-789 | however many of its writes a crashed restore did, the next one ends with the same document |
| CodexRoundTrip.RoundTripIff | server/src/codex/config.rs:413-789 | a first takeover, any ticks under any sign-in states, and restore give back the very files if and only if a blank model did not let a leftover journal spoil a missing file or a detail mode that is not a string |
| CodexRoundTrip.BlankModelSpoils | server/src/codex/config.rs:389-398 | the spoiled case, with a numeric detail mode |
| CodexGuard.TickReachesFixedPoint | server/src/codex/config.rs:413-471 | one tick reaches a state that the same tick leaves alone |
| CodexGuard.CrashedTickIsHealed | server/src/codex/config.rs:413-471 | a crash between the two writes of a tick is invisible after the next tick, even with the sign-in state flipped |
| CodexGuard.TickKeepsJournal | server/src/codex/config.rs:188-210 | the guard never writes a journal in both the old and the new form |
| CodexMode.SignedOutIsNotWork | server/src/codex/config.rs:446-471 | while applied and signed out, a tick turns `STEPS_PROSE` into `STEPS_COMMANDS`, with a journal that gives `STEPS_PROSE` back, and leaves any other mode |
| CodexMode.SignedInIsWanted | server/src/codex/config.rs:426-445 | while applied and signed in, a tick ends in the wanted mode, the one in place or the one remembered behind the local mode, and keeps no journal |
| CodexMode.TickKeepsWantedIff | server/src/codex/config.rs:389-471 | a tick keeps the wanted mode if and only if it does not pay an unapplied journal back over another mode, or find a journal about another mode |
| CodexMode.ModeIsTheUsers | server/src/codex/config.rs:413-471 | over every run of ticks, signed in or out, with choices of the user in between: a tick signed in ends in the mode the user chose last, with an empty journal and everything else unchanged, and a tick signed out not in `STEPS_PROSE` |
| CodexMode.TicksGiveBack | server/src/codex/config.rs:413-471 | after any ticks one tick signed in gives config, receipt and journal back exactly |
| DevinWire.EncodeVarint | server/src/devin/wire.rs:250-256 | appends the seven-bit groups, lowest first |
| DevinWire.DecodeVarint | server/src/devin/wire.rs:258-274 | the amount and the offset behind it, or the refusal of a truncated, unterminated or too wide integer |
| DevinWire.DecodeEncoded | server/src/devin/wire.rs:250-274 | an encoded 64-bit amount is read back at any place of any message |
| DevinWire.SerializeField | server/src/devin/wire.rs:95-117 | appends head and value of one field |
| DevinWire.SerializeFields | server/src/devin/wire.rs:93-119 | refuses exactly the lists with a field number zero |
| DevinWire.ParseValue | server/src/devin/wire.rs:62-88 | a value of each wire type, or the refusal of a truncated or unknown one |
| DevinWire.ParseFields | server/src/devin/wire.rs:53-91 | all fields of a message, or its refusal |
| DevinWire.RoundTrip | server/src/devin/wire.rs:53-119 | reading what was written gives the same fields, for all lists of fields that can be written |
| DevinWire.ParsedIsSerializable | server/src/devin/wire.rs:53-119 | whatever can be read fits the machine types and can be written again in no more space |
| DevinWire.RewritingKeepsFields | server/src/devin/wire.rs:53-119 | reading and writing a message again keeps its fields, even if its integers were not in the shortest form |
| DevinGrammar.ParsedIff | server/src/devin/wire.rs:53-91 | a message is read as some fields if and only if it spells them in the format: heads of number and type code, integers of at most ten bytes, not only the shortest; any other message is refused |
| DevinGrammar.WrittenSpells | server/src/devin/wire.rs:93-119 | what is written spells its fields in that format |
| Assignment.AssignmentTokenResponse | server/src/devin/assignment.rs:263-270 | never refused: one field holding the written assignment |
| AssignmentProperties.TokenResponseIsReadable | server/src/devin/assignment.rs:263-270 | a reader finds one nested message, and in it token, model and harness |
| Assignment.Scanner.NameOf | server/src/devin/assignment.rs:231-238 | a known uid names itself, else only a token-shaped live token names its model |
| Assignment.AssignmentSessions.constructor | server/src/devin/assignment.rs:52-63 | no token issued |
| Assignment.AssignmentSessions.Issue | server/src/devin/assignment.rs:65-81 | the new token, and the unexpired ones |
| Assignment.AssignmentSessions.UidForToken | server/src/devin/assignment.rs:83-94 | the model of a live token; pruning does not change what is live now |
| Assignment.AssignmentSessions.Clear | server/src/devin/assignment.rs:96-102 | no token is left |
| Assignment.AssignmentSessions.Prune | server/src/devin/assignment.rs:105-109 | exactly the unexpired tokens stay |
| Assignment.Scanner.ScanField | server/src/devin/assignment.rs:219-259 | the candidates of one field in scan order, with the shared path put back |
| Assignment.Scanner.ScanFields | server/src/devin/assignment.rs:211-261 | appends all candidates of a message in scan order and ends by depth |
| Assignment.FindModelReference | server/src/devin/assignment.rs:128-193 | a header that is or carries a live token decides alone; else the choice among the message's candidates; each error |
| AssignmentHeaders.HeadersDecide | server/src/devin/assignment.rs:128-155 | the first header that cannot be read, is a live token, or carries one behind `Bearer ` decides alone, whatever the message says, with its own answer; if there is none, an unreadable message is refused and any other answers by its candidates |
| AssignmentNames.TokenShape | server/src/devin/assignment.rs:200-209 | a token has the form 8-4-4-4-12 of hexadecimal digits, and everything of that form counts |
| AssignmentNames.NamesIff | server/src/devin/assignment.rs:219-238 | a value names a known model itself, or else the model of the live token that it is |
| AssignmentProperties.CandidateMeaning | server/src/devin/assignment.rs:211-261 | the scan finds exactly the values that a path of at most six field numbers leads to, with the priority of their depth and number |
| AssignmentProperties.ResolvedMeaning | server/src/devin/assignment.rs:167-193 | the candidates reported are the uids that share the best priority, in ascending order; ambiguous if and only if two of them differ; else the reference is one of the best |
| AssignmentProperties.OrderIndependence | server/src/devin/assignment.rs:156-193 | permuting the top-level fields changes neither uid nor ambiguity nor candidates |
| AssignmentPaths.PathIndependentIff | server/src/devin/assignment.rs:167-193 | the reported path is the same for every order of the top-level fields if and only if the reference is ambiguous or all fields with a best candidate agree on the path of their first one |
| AssignmentPaths.ResolvedPath | server/src/devin/assignment.rs:167-193 | the reported path is that of the first best candidate in the order of the scan |
| AssignmentPaths.PathDependsOnOrder | server/src/devin/assignment.rs:187-193 | two fields naming one model show that the reported path does depend on the order |
| AssignmentProperties.ShallowestWins | server/src/devin/assignment.rs:242-249 | the best candidates are exactly the shallowest ones, and field 21 of the message alone if it names a model |
| AssignmentProperties.ModelFieldWins | server/src/devin/assignment.rs:242-249 | if field 21 names models, they are all of the candidates |
| AssignmentTokens.PruningIsInvisibleIff | server/src/devin/assignment.rs:65-109 | over every run of calls, forgetting expired tokens is invisible at a time if and only if, for each token that would be good then, nothing was cleared and no call came at or after its expiry since its last issue |
| AssignmentTokens.PruningIsInvisible | server/src/devin/assignment.rs:65-109 | so while the clock does not go back, exactly the issued, uncleared and unexpired tokens resolve |
| AssignmentTokens.PruningShowsWhenTheClockGoesBack | server/src/devin/assignment.rs:105-109 | with a clock that goes back, a pruned token is forgotten although it would be good again |

## Left out

- CodexRuns.OwnedFieldsAreRecovered: for runs without the losing re-apply; `StepRestoresIff` says exactly which step that is.
- CodexTakeover.CrashedRestoreIsFinished: compares documents; a config file that was missing may come back empty.
- CodexConfig.CodexHome.Apply: the refusals on a concurrent change are left out; what they leave behind is the state of a crash at the same place, which `CodexRuns` covers.
- CodexConfig.CodexHome.RepublishCatalog: writing the new catalog file and removing the old one.
- CodexConfig.CodexHome.Inspect: rendered and redacted texts of the conflicts, and the message.
- CliSettings.CliHome.Apply: the refusal on a concurrent change behind the receipt write; it leaves the state of a crash there, which the runs of `CliTakeover` cover.
- CliTakeover.ApplyIsIdempotent: asks that the base URL is among the desired values and owned keys are managed ones, which `ValuesCover` shows of every route.
- Desktop.DesktopHome.Apply: route validation, which comes before and yields the profile, and the refusals on a concurrent change, which leave the states of a crash at the same places; the runs of `DesktopRuns` cover these.
- Desktop.DesktopHome.Undo: the check that the profile lies in the library directory, which the path written by apply does.
- Interleaving.InterleavingIndependenceIff: for lists in which each index starts once; `ToolLedger.LedgerOutput` describes all others.
- Assignment.FindModelReference: one clock value for all lookups of a request.
- AssignmentProperties.OrderIndependence: all lookups of one request see the same time; a token that expires while a message is being scanned is not covered.
- File and process I/O: temporary files, backups, permissions, registry, policy and process probes. A write is one atomic step, and the re-reads that refuse an update after a concurrent change are not modelled.
- JSON and TOML text, formatting and key order. Equality of two TOML texts is equality of documents; `model_providers` and `desktop` are tables, and an absent and an empty `desktop` table are one; `capabilities.remote_compaction` is one key.
- Hashes stand for their contents; a receipt's list of key records is a map, and receipts of another version are not modelled.
- The ordered map of pending tools is a sequence in key order; the provider index kept with an open block is always 0 and is left out.
- Texts of refusals, conflict messages, notices that do not block, and status texts; refusals carry at most their kind.
- White space is ASCII, and lower-casing too.
- URL parsing is a flag of the route; uuid generation is a parameter.
- Status of the Desktop takeover, sign-in detection, catalog file writing, shell variables and policy messages.
- Image decoding and download, tool definitions, model lookup, token estimates, pings and byte framing of the stream.
- Connect envelopes, frames and gzip of `server/src/devin/wire.rs`.
- DevinWire.RoundTrip: for fields of the program's machine types, which the type of a field guarantees there.
- Listeners, locks, control routes, CORS, diagnostics, network clients, migrations and the front end: plumbing around these cores.
