# Verified model of SolCode's stateful cores

SolCode is a coding agent written in Go. This project models the parts of it that hold
state over a whole run, or that must agree with something simpler, and proves what they
are for.

| file | models |
|---|---|
| `CheckpointStore.dfy`, `CheckpointFiles.dfy`, `CheckpointCallers.dfy` | numbered checkpoints, capture and rewind of the workspace, and what the callers of the store do |
| `Messages.dfy`, `PendingTools.dfy`, `Transcript.dfy`, `TranscriptStore.dfy`, `SessionRecord.dfy` | the transcript record of a sub-agent: archive, context references, tool-call recovery |
| `ToolCeiling.dfy`, `Lifecycle.dfy`, `RunLedger.dfy`, `RunSteps.dfy`, `StaleAnswers.dfy` | the ledger of runs over several processes: start, resume, checkpoint, cancel, complete, archive, close, crash |
| `SelectFork.dfy`, `Mailbox.dfy` | what a fork starts from; the mailbox of detached runs |
| `ForkStore.dfy`, `ForkFiles.dfy` | immutable fork snapshots on disk |
| `Wire.dfy`, `ResponsesMessage.dfy`, `ResponsesStream.dfy`, `ResponsesFaithful.dfy`, `ResponsesReads.dfy` | the Responses event stream and its message |
| `ResponsesHistory.dfy`, `ResponsesRequest.dfy` | conversation history as Responses input |
| `ChatStream.dfy`, `ChatMessage.dfy` | the Chat Completions stream and its message |
| `SubagentTrace.dfy`, `Subagents.dfy`, `SubagentFamily.dfy`, `SubagentEmitter.dfy` | what an ACP client sees of sub-agents |
| `Terminal.dfy`, `Conn.dfy` | ownership of a client terminal; JSON-RPC request and response correlation |
| `LineRanges.dfy` | changed-line ranges |
| `Gather.dfy`, `Sorting.dfy`, `Strings.dfy`, `Wrappers.dfy` | shared vocabulary |

**Form.** What the program updates in place is a class (`CheckpointFiles.Store`,
`SessionRecord.SessionRecord`, `SubagentEmitter.Emitter`, `ForkFiles.FileStore`,
`Mailbox.Notifications`) or a method with the loops the program has. Each method is proved
equal to a function on values, and the theorems are about that function. What runs
concurrently (the run ledger, the terminal runner, the connection) is a state machine
whose steps are the sections that run without interruption; the theorems hold for every
interleaving.

**Where the code falls short of its purpose.** Four results are exact conditions rather
than unconditional guarantees, each with concrete cases that fail:

- A capture takes the number of entries as its index and a drop does not renumber. A
  capture after an inner entry was dropped can overwrite another file's body
  (`CheckpointStore.ReusedIndexLosesAFile`), and dropping a temporary file that never had a
  body can remove another file's body (`TemporaryFileLosesABody`). A capture harms nobody
  if and only if it overwrites no body that is still read (`CaptureHarmlessIff`), a drop if
  and only if no other entry reads a body under the dropped index (`DropHarmlessIff`), and
  a capture is harmless together with all drops after it if and only if its index is free
  or shared among files that never existed (`CaptureAndDropsHarmlessIff`). A caller avoids
  both by capturing no new path in a turn after dropping one that was not captured last
  (`CheckpointCallers.CallersGetThePast`).
- A compacted checkpoint that repeats a pure tool-result message makes two places of the
  context share one reference, and completing the second rewrites the first
  (`Transcript.RepeatedResultBreaksRefinement`; exact condition in `ApplyExactIff`).
  Checkpoints that are not compacted may repeat whatever they like.
- Archiving through a process whose registry entry is about an older run copies the newest
  run's id into the entry but not its result. That process then answers for the newest run
  with the older run's result, whether the newest run has ended
  (`StaleAnswers.AnswersWithOlderResult`) or died without one
  (`StaleAnswers.AnswersForALostRun`). A step keeps every answer true if and only if it is
  not such an archive (`RunLedger.AnswersStayTrueIff`).
- Merging ranges leaves every overlap answer unchanged if and only if the symbol does not
  end before it starts (`LineRanges.MergingIsHarmlessIff`).

**Premises.** Rewind, from the restored turn on and whatever came before it: a capture
carries what the path held when the newest turn began, every change is captured before the
next turn begins, and the numbering of bodies allows the capture or drop. A change may come
before or after its capture, and a path recorded since the restored turn began needs no more
care. Ledger: saves and lock releases succeed; its theorems hold for every sequence of steps,
except that answers stay what they were while no archive is stale, and a resume keeps the
earlier messages while compacted checkpoints do not repeat a pure tool result. Names under
which fork snapshots are stored are collision-free hashes.

## Model

| member | source | states |
|---|---|---|
| CheckpointStore.RewindIsThePast | internal/checkpoint/store.go:468-555 | after any run whatever a turn begins; over any steps from there on that keep to the premises (captures, drops, edits, new turns with pruning, restarts, rewinds), restoring that turn while it is retained gives the whole workspace as it was when the turn began, if and only if every path changed since the newest turn began is recorded since that turn |
| CheckpointStore.NewTurnIsRestorable | internal/checkpoint/store.go:84-110 | the same from any state whose turn numbers are a block |
| CheckpointStore.TurnStaysExact | internal/checkpoint/store.go:84-152 | once what is recorded since a turn is what the turn started with, that stays so over every such run until the turn is pruned, and entries stay distinct with readable bodies |
| CheckpointStore.BeginExactIff | internal/checkpoint/store.go:84-110 | the next turn's beginning keeps a retained turn exact if and only if every changed path is recorded |
| CheckpointStore.CaptureExactIff | internal/checkpoint/store.go:114-152 | a fitting capture keeps a turn exact if and only if it carries what the path held when the newest turn began, or the path is recorded already |
| CheckpointStore.RestoredIff | internal/checkpoint/store.go:482-555 | an exact turn restores to its whole start if and only if every changed path is recorded |
| CheckpointStore.RewindSettles | internal/checkpoint/store.go:468-555 | where no change was left to record for a turn, going back to it or to a newer one leaves none either |
| CheckpointStore.RewindsCompose | internal/checkpoint/store.go:468-555 | after a rewind an older exact turn is still exact; a newer one is exact if and only if every path that differs between the two starts was captured again from the newer turn on |
| CheckpointStore.TurnNumbers | internal/checkpoint/store.go:84-110 | whatever steps are made, turn numbers are never reused and the retained ones are a gap-free block of the newest |
| CheckpointStore.PruningLeavesNothing | internal/checkpoint/store.go:557-570 | whatever steps are made, every stored body belongs to a retained turn |
| CheckpointStore.RetainIsAsAsked | internal/checkpoint/store.go:55-73 | a store keeps as many turns as its process asked for, or 50 |
| CheckpointStore.FirstReadableCounts | internal/checkpoint/store.go:504-526 | of several entries for one path the first that can be read counts |
| CheckpointStore.NewestIsABlock | internal/checkpoint/store.go:557-570 | pruning keeps an upward-closed set of turns, as many as the limit allows |
| CheckpointStore.ExecKeeps | internal/checkpoint/store.go:114-193 | while captures and drops fit, every run keeps the newest turn's paths distinct, its bodies readable and its captured set in step with its list |
| CheckpointStore.CaptureHarmlessIff | internal/checkpoint/store.go:131-150 | a capture leaves the snapshots of all other paths of the turn as they were if and only if it overwrites no body that an entry still reads |
| CheckpointStore.DropHarmlessIff | internal/checkpoint/store.go:172-191 | a drop leaves the snapshots of all other paths as they were if and only if no other entry reads a body under a dropped index |
| CheckpointStore.EveryDropFitsIff | internal/checkpoint/store.go:178-187 | while all bodies are there, every drop is harmless if and only if no two entries, one of them with a body, share an index |
| CheckpointStore.CaptureAndDropsHarmlessIff | internal/checkpoint/store.go:138-187 | a capture is harmless together with every later drop if and only if its index is free, or shared only among files that never existed |
| CheckpointStore.DropKeepsOrder | internal/checkpoint/store.go:157-193 | and after a harmless drop from such a turn every further drop is harmless |
| CheckpointStore.DropFreesIndexIff | internal/checkpoint/store.go:138-187 | while entries carry their own position, the next index is free after a drop if and only if the dropped entry was the last one |
| CheckpointStore.ReusedIndexLosesAFile | internal/checkpoint/store.go:138-187 | capture two paths, drop the first, capture a third: restoring puts the third file's content into the second |
| CheckpointStore.TemporaryFileLosesABody | internal/checkpoint/store.go:154-187 | capture two paths, drop the first, capture and drop a third that never existed: the second file's body is gone and restoring leaves that file alone |
| CheckpointCallers.CallersDisciplineIsEnough | internal/checkpoint/store.go:114-193 | from an empty turn on, a caller that captures no new path in a turn after dropping one that was not captured last finds every index free and every drop harmless |
| CheckpointCallers.CallersGetThePast | internal/checkpoint/store.go:468-555 | whatever came before the turn, such a caller, capturing turn-start content before or after it changes, gets the workspace back if and only if it has captured every change |
| CheckpointCallers.CapturingFirstGetsThePast | internal/engine/tool_executor.go:260-281 | and always gets it back when it captures the present content before it changes a path, drops only what is back at its start, and goes back no further than that turn |
| CheckpointCallers.CapturingFirstSettles | internal/engine/tool_executor.go:260-281 | each such step meets the premise and leaves no change to record |
| CheckpointCallers.HookRecordsTheChanges | internal/engine/tool_executor.go:302-338 | after a tool that may have changed anything, capturing what differs from the turn's start and dropping what no longer does leaves exactly the changed paths captured and nothing to record |
| CheckpointCallers.HookIsDisciplined | internal/engine/tool_executor.go:302-338 | every step of that meets the premise of the main result |
| Sorting.Sort | internal/checkpoint/store.go:572-596 | the turn numbers on disk, each once, ascending; also the output indices of a stream |
| CheckpointFiles.Store.BeginTurn | internal/checkpoint/store.go:84-110 | the new turn is one past the newest, becomes active with nothing captured, and the oldest turns beyond the limit are gone with their bodies |
| CheckpointFiles.Store.Prune | internal/checkpoint/store.go:557-570 | exactly the oldest turns beyond the limit are removed, bodies included |
| CheckpointFiles.Store.CaptureFile | internal/checkpoint/store.go:114-152 | only the first capture of a path in the active turn is recorded, at index the number of entries |
| CheckpointFiles.Store.UncaptureFile | internal/checkpoint/store.go:157-193 | the path's entries and bodies leave the turn and the path may be captured again; nothing else changes |
| CheckpointFiles.Store.RestoreFiles | internal/checkpoint/store.go:468-555 | every path recorded from the target turn on gets its earliest readable snapshot, present paths are written and absent ones removed, all other paths keep their content; the errors name exactly the paths of entries whose body cannot be read while nothing before them tells what the path held |
| PendingTools.PendingMeans | internal/agent/session_store.go:239-260 | the pending ids are exactly those whose last mention is a call rather than a result |
| PendingTools.LastIsCallMeans | internal/agent/session_store.go:239-260 | a call is open if and only if some occurrence of it has no later result |
| PendingTools.PendingToolIDs | internal/agent/session_store.go:239-260 | the two loops list the pending ids in the order of their calls |
| PendingTools.PendingFollowsTheCalls | internal/agent/session_store.go:239-260 | open calls are listed as they were made, those of earlier blocks first |
| PendingTools.Recover | internal/agent/lifecycle.go:166-187 | builds the recovered transcript, extending a last message of results or appending one |
| PendingTools.SupplementedRecovery | internal/agent/lifecycle.go:168-185 | no call is open even where copies of the last message earlier on were completed along with it |
| PendingTools.RecoveryClosesEveryCall | internal/agent/lifecycle.go:159-187 | after recovery no call is open, and earlier messages are kept apart from results added to the last |
| PendingTools.RecoveryAnswersOnce | internal/agent/lifecycle.go:168-186 | recovery adds one error result per open call, in order, to a last user message that opens with a result and as a new user message otherwise |
| Transcript.RecordRefinesMessageList | internal/agent/session_store.go:142-235 | over any sequence of checkpoints the record's active context is the last checkpoint's messages, every reference is valid, and the archive only grows |
| Transcript.AuditOnlyGrows | internal/agent/session_store.go:181-235 | over any sequence of checkpoints whatever, each archived message stays or is completed by further results, every message has one time stamp and every reference is valid |
| Transcript.ApplyExactIff | internal/agent/session_store.go:181-235 | one update is exact if and only if it does not amend a message an earlier place of the context also refers to |
| Transcript.AppliedIsSound | internal/agent/session_store.go:201-214 | an update keeps references valid, time stamps aligned, and pure tool results unshared |
| Transcript.AppliedGrows | internal/agent/session_store.go:191-217 | each archived message stays or is extended by further tool results, and there is one time stamp per message |
| Transcript.GrowsTransitive | internal/agent/session_store.go:159-217 | growth of the archive composes over updates |
| Transcript.InitialIsSound | internal/agent/lifecycle.go:139-158 | a fresh or forked record refers to its fork snapshot in order |
| Transcript.RepeatedResultBreaksRefinement | internal/agent/session_store.go:194-214 | a compacted checkpoint with a repeated pure tool result breaks the refinement |
| TranscriptStore.StoresOnlyTheRest | internal/agent/session_store.go:187-217 | a checkpoint that is not compacted stores exactly what comes after its agreement with the active context, a completed message in the place of the one it completes |
| TranscriptStore.CompactionReuses | internal/agent/session_store.go:201-217 | a compacted one stores exactly the messages that neither the archive nor the fork holds |
| TranscriptStore.StampsAreTimes | internal/agent/session_store.go:215-217 | stored messages keep their time stamp and new ones carry the time of the update |
| TranscriptStore.NewestWorkingSet | internal/agent/session_store.go:220-222 | over any checkpoints the newest that brings a working set decides it |
| TranscriptStore.WorkingSetStays | internal/agent/session_store.go:220-222 | without any the record keeps its own |
| SessionRecord.ExtendsToolResults | internal/agent/session_store.go:159-179 | the comparison loop decides whether a message only gains tool results |
| SessionRecord.SessionRecord.ActiveMessages | internal/agent/session_store.go:142-155 | resolves every reference in order, or fails on an invalid one |
| SessionRecord.SessionRecord.ApplyCheckpoint | internal/agent/session_store.go:181-235 | the in-place update equals the update on values, or changes nothing when the context is invalid |
| ToolCeiling.IntersectTools | internal/agent/reuse.go:11-32 | the loops compute the intersection, with the ceiling for an empty request and a placeholder for a disjoint one |
| ToolCeiling.IntersectMeans | internal/agent/reuse.go:11-32 | a real tool is allowed by the result exactly when both lists allow it |
| RunLedger.LedgerTheorem | internal/agent/lifecycle.go:62-342 | whatever the steps, in every reachable world: one live run per agent over all processes, distinct run ids, every run but the last ended, and no later run allows a tool an earlier one did not |
| RunSteps.StartGivesTools | internal/agent/lifecycle.go:112-213 | a resumed run may use a tool if and only if the agent could before and the caller of the resume allows it; a new agent's run may use what its caller allows |
| RunSteps.StartIsAcceptedIff | internal/agent/lifecycle.go:62-204 | a start is accepted if and only if the id is well formed, the process open and nobody at work, a resume finds its agent in the same project, of the same type and not archived while a spawn finds none and has a fork, the stored context can be read with open calls acknowledged, and the run id is new |
| RunSteps.RefusalsInOrder | internal/agent/lifecycle.go:62-204 | what each refusal means, with a closed process and somebody else's work reported first |
| RunSteps.StartAddsOneRun | internal/agent/lifecycle.go:188-213 | the new run comes last under the id asked for; project and type are kept, ended runs are as they were, and a run left running is closed as interrupted with an error and no retry |
| RunSteps.CheckpointIsDurable | internal/agent/lifecycle.go:241-262 | a checkpoint is on disk with its working set, and with its messages where it completes none that is shared |
| RunSteps.CompletionRecords | internal/agent/lifecycle.go:285-341 | a run ends Cancelled if and only if it was cancelled or its context had ended, else Failed or Idle as its error says with its own result; the lock is free and the event and every later answer agree |
| RunSteps.DetachedRunsOutlive | internal/agent/lifecycle.go:221-226 | in every reachable world the context of a live detached run has ended only if it was cancelled or its process closed |
| RunSteps.ContextsMayEnd | internal/agent/lifecycle.go:221-226 | and any other run's context may end at any time |
| RunSteps.ArchiveIsFinal | internal/agent/lifecycle.go:392-428 | an archived agent stays archived and no start is accepted for it any more |
| RunSteps.ArchiveOnlyMarks | internal/agent/lifecycle.go:392-428 | archiving changes nothing on disk but the mark, and nothing at all while anybody works on the agent or from another project |
| RunSteps.ClosedStaysClosed | internal/agent/notifications.go:30-45 | a closed process accepts no start until it is gone |
| RunSteps.DeathFreesLocks | internal/agentsession/file_store.go:104-127 | a process that dies takes its entries and locks with it and no others, and what it was running is lost |
| RunSteps.LiveRunsHaveNoAnswer | internal/agent/reuse.go:34-63 | while a run is live its own process waits for it and the others have no answer yet |
| RunLedger.LedgerHolds | internal/agent/lifecycle.go:62-342 | every step keeps the ledger invariant, records only grow and ended runs are never rewritten |
| RunLedger.OneLiveRun | internal/agentsession/file_store.go:104-127 | the lock of an agent is held by at most one live run |
| RunLedger.WaitRunIsStable | internal/agent/reuse.go:34-63 | while no archive is stale, once a run has an answer every process gives that answer from then on |
| RunLedger.EndedRunAnswers | internal/agent/reuse.go:34-63 | where entries are true, every ended run is answered with its recorded result |
| RunLedger.ReachableAnswersAreTrue | internal/agent/reuse.go:34-63 | while no archive is stale, every answer in every reachable world carries the id of the run asked for |
| RunLedger.AnswersStayTrueIff | internal/agent/lifecycle.go:392-428 | a step keeps every answer true if and only if it is not an archive through a process whose entry is about an older run |
| RunLedger.StaleArchiveMisreports | internal/agent/lifecycle.go:421-426 | after such an archive the process answers for the newest run, ended or not, with the older run's result |
| RunLedger.ArchiveKeepsAnswersIff | internal/agent/lifecycle.go:392-428 | archiving changes none of the answers its process could already give if and only if that process holds no entry for an older run while the newest run has ended |
| StaleAnswers.AnswersWithOlderResult | internal/agent/lifecycle.go:421-426 | five steps from nothing after which a process answers for an ended run with an older run's result |
| StaleAnswers.AnswersForALostRun | internal/agent/lifecycle.go:421-426 | five steps from nothing after which a process answers for a run that died without a result |
| RunLedger.CancelTakesEffect | internal/agent/coordinator.go:180-203 | cancelling a live run seals its fate; cancelling a run that has ended changes nothing |
| RunLedger.CancelIsFinal | internal/agent/lifecycle.go:285-341 | a cancelled live run, whatever happens short of its process dying, ends Cancelled with an error and no retry, and is reported as Cancelled |
| RunLedger.EveryStartCompletesOnce | internal/agent/lifecycle.go:322-341 | an accepted start that is neither live nor lost has exactly one completion event, and exactly one mailbox entry if it was detached and none if not |
| RunLedger.StartIsLogged | internal/agent/lifecycle.go:209-235 | an accepted start is logged and live under its own run id with its caller's choice of detachment |
| RunLedger.StartsStay | internal/agent/lifecycle.go:195-202 | no later step changes what was logged for an accepted start |
| RunLedger.StartClosesOpenCalls | internal/agent/lifecycle.go:105-216 | whatever happened before, an accepted start leaves no tool call open, keeps fork and archive, and is refused when calls are open and unacknowledged |
| RunLedger.ResumeContinues | internal/agent/lifecycle.go:159-216 | where nothing amendable is shared, a resume also keeps the earlier messages apart from results added to the last |
| RunLedger.TranscriptsStaySound | internal/agent/lifecycle.go:241-262 | while compacted checkpoints do not repeat a pure tool result, no reachable record shares anything amendable |
| SelectFork.Select | internal/agent/lifecycle.go:430-467 | what each mode starts from; the last turns are a suffix with the right start |
| SelectFork.CountBack | internal/agent/lifecycle.go:440-462 | the backward count stops at the n-th last real user turn, or at the start when there are fewer |
| SelectFork.StartIsUnique | internal/agent/lifecycle.go:443-463 | that position is unique |
| SelectFork.StartKeepsTurns | internal/agent/lifecycle.go:443-463 | the suffix holds exactly the smaller of n and all real turns, and starts at one unless it is the whole history |
| SelectFork.ForksStartWithTheUser | internal/agent/lifecycle.go:443-463 | a fork that leaves something out starts with what the user said, never with a tool result or a made-up message |
| SelectFork.ForksNeverCutIff | internal/agent/lifecycle.go:438-463 | no n cuts a tool exchange, if and only if no real turn lies between a call and its result |
| Mailbox.DeliveredInOrder | internal/agent/notifications.go:8-27 | over any run of posts and drains, what a parent was given followed by what still waits for it is what was posted to it, in order |
| Mailbox.DrainTouchesOneBox | internal/agent/notifications.go:16-23 | a drain empties its own parent's letters and leaves every other parent's alone |
| Mailbox.Notifications.Append | internal/agent/lifecycle.go:335-338 | a completion is added at the end of the buffer |
| Mailbox.Notifications.DrainNotifications | internal/agent/notifications.go:8-27 | the in-place partition returns the matching letters, keeps the others in order, and clears the freed slots |
| ForkStore.SavedForksLoad | internal/agentsession/file_store.go:135-209 | a saved snapshot reads back as it was |
| ForkStore.SavedForksLast | internal/agentsession/file_store.go:135-209 | and still does after any later saves, however many were cut short |
| ForkStore.RetryCompletes | internal/agentsession/file_store.go:149-174 | whatever the first attempt came to, the retry completes the save if the two together may write one file more than were missing |
| ForkStore.CutShortIsInvisible | internal/agentsession/file_store.go:168-182 | until a save completes its fork cannot be read at all |
| ForkStore.BodiesSavedOnce | internal/agentsession/file_store.go:149-167 | equal messages are stored once: only missing named files are added, one write each, and nothing is rewritten |
| ForkStore.LoadsByForm | internal/agentsession/file_store.go:176-209 | what a fork file of each form is read as, and which are refused; a manifest loads if and only if every message file can be read |
| ForkStore.BodiesLoadIff | internal/agentsession/file_store.go:195-207 | message files load as what they hold, in order, if and only if each reference is well formed and names a file of one message |
| ForkStore.FirstUnreadableDecides | internal/agentsession/file_store.go:195-207 | otherwise the first that cannot be read says why |
| ForkFiles.FileStore.SaveFork | internal/agentsession/file_store.go:135-174 | the writing loop, with any number of writes going through, equals the save on values |
| ForkFiles.FileStore.LoadFork | internal/agentsession/file_store.go:176-209 | the reading loop equals the load on values, errors included |
| Wire.MapUsage | internal/anthropic/openai.go:770-790 | which cached count is taken, and that uncached and cached tokens add up to the prompt whenever that count fits; the other counts are copied |
| Wire.InputIs | internal/anthropic/openai.go:708-717 | arguments of nothing but space stand for the empty object, and space around others does not count |
| ResponsesMessage.ResponsesToMessage | internal/anthropic/responses.go:266-346 | the loops over items and parts compute the translation, its stop reason and its errors |
| ResponsesMessage.OutputFailsIff | internal/anthropic/responses.go:314-317 | an output fails to translate if and only if it holds a function call without id or name |
| ResponsesMessage.LastDecides | internal/anthropic/responses.go:284-322 | the last refusal or function call decides why the message stopped |
| ResponsesMessage.NoneDecides | internal/anthropic/responses.go:273-276 | without a refusal or call nothing overrides the end of the turn |
| ResponsesReads.MessageReads | internal/anthropic/responses.go:266-346 | the answer is the texts and refusals of the messages, the reasoning the texts of the reasoning items, the calls the function calls, each in the order of the output; id, model and usage are the response's |
| ResponsesReads.ItemsAppend | internal/anthropic/responses.go:277-325 | items are translated in their order |
| ResponsesReads.GivesAMessageIff | internal/anthropic/responses.go:267-335 | a response gives a message if and only if it reports no error, is complete or cut short for a known reason, and calls no function without id or name |
| ResponsesReads.RefusedFor | internal/anthropic/responses.go:267-335 | what an unusable response is refused for |
| ResponsesReads.StopsFor | internal/anthropic/responses.go:273-335 | a response cut short at its token limit stops for that, one cut by the filter as a refusal, a complete one as its last refusal or call says |
| ResponsesStream.ConsumeResponsesStream | internal/anthropic/responses.go:350-511 | the event loop computes the consumed stream: items in index order stand in for an omitted output |
| ResponsesStream.FoldStops | internal/anthropic/responses.go:483-496 | after a failure or a terminal event nothing changes any more |
| ResponsesReads.StreamStopsFor | internal/anthropic/responses.go:389-393 | and so does the stream that ends with it |
| ResponsesReads.TerminalDecides | internal/anthropic/responses.go:389-511 | the first terminal event's response is the message, streamed items standing in only for an omitted output |
| ResponsesReads.FailureEndsTheStream | internal/anthropic/responses.go:372-427 | an event that reports a failure or makes no sense ends the stream with an error |
| ResponsesReads.OtherEventsGoOn | internal/anthropic/responses.go:357-455 | and every other event leaves it open |
| ResponsesStream.SortedIsInOrder | internal/anthropic/responses.go:498-508 | collecting items by sorted index gives them in the order of their indices |
| ResponsesFaithful.FaithfulStreamsAgree | internal/anthropic/responses.go:350-511 | a faithful stream, however cut up and interleaved, whose terminal event omits the output gives the message of the full output |
| ResponsesFaithful.Interleaved | internal/anthropic/responses.go:398-451 | after any interleaving each item is what its own events make of it |
| ResponsesFaithful.PartsInterleaved | internal/anthropic/responses.go:418-450 | and within an item each part is what its own events make of it |
| ResponsesFaithful.SpellingIsExact | internal/anthropic/responses.go:428-451 | a part spelled in any pieces, with or without snapshots, ends as the part |
| ResponsesFaithful.ReportIsExact | internal/anthropic/responses.go:398-451 | a faithful report leaves the item, up to the label of reasoning text |
| ResponsesFaithful.NoMessageWithoutTerminal | internal/anthropic/responses.go:495-497 | a stream yields a message only through a completed or incomplete event |
| ResponsesFaithful.LaterEventsAreIgnored | internal/anthropic/responses.go:483-485 | nothing after the first terminal event is read |
| ResponsesHistory.HistoryKeepsOrder | internal/anthropic/responses.go:190-264 | a history is translated if and only if every block can be; then the input says block by block what the blocks say, in order, with no empty message |
| ResponsesHistory.FirstComplaintCounts | internal/anthropic/responses.go:190-264 | the first message or block that cannot be translated decides the error |
| ResponsesHistory.IdsSurvive | internal/anthropic/responses.go:230-249 | calls, outputs and replayed reasoning appear with the ids of tool uses, tool results and replayable thinking, in the same order |
| ResponsesHistory.ResponsesReplay | internal/anthropic/responses.go:289-313 | what a response said can be sent back, and opaque reasoning returns with its id, summary and payload, as function calls do |
| ResponsesHistory.SummarySurvivesIff | internal/anthropic/responses.go:71-80 | the wire keeps a summary as it is if and only if its text parts hold nothing but text |
| ResponsesRequest.BuildResponsesInput | internal/anthropic/responses.go:190-264 | the loops with their flush compute the input or the first error |
| ResponsesRequest.ToolResultContent | internal/anthropic/openai.go:452-477 | caption and images of a tool result, or failure on a bad image |
| ResponsesRequest.CaptionJoinsLines | internal/anthropic/openai.go:456-464 | the caption is the texts joined by newlines from the first non-empty text on |
| ChatStream.ChunkingIsIrrelevant | internal/anthropic/openai.go:521-631 | streams that add up to the same text, reasoning, last model, finish reason and usage, and per tool index the same arguments, last id and last name in the same order, give the same message |
| ChatStream.ConsumeOpenAIStream | internal/anthropic/openai.go:521-631 | the loop computes the message from those sums or the first error, and the non-empty strings told to the callbacks concatenate to the text and the reasoning |
| ChatMessage.MessageHolds | internal/anthropic/openai.go:682-733 | the message answers with the text and reasons with the reasoning of the stream, reasoning first and tools last; its i-th tool use is what the fragments of the i-th index add up to, with a made-up id where it has none; it carries the last model and usage |
| ChatMessage.StopsAsTold | internal/anthropic/openai.go:749-768 | which finish reasons, and which presence of tools, stop a message for what |
| ChatMessage.SumsAppend | internal/anthropic/openai.go:555-575 | text, reasoning and fragments add up in the order of the chunks |
| ChatMessage.OneChunkSays | internal/anthropic/openai.go:554-572 | what one chunk adds; of three spellings of reasoning the first that is not empty |
| ChatMessage.LastChunkCounts | internal/anthropic/openai.go:541-553 | the last chunk that names a model, finish reason or usage is the one that counts |
| ChatMessage.LastFragmentCounts | internal/anthropic/openai.go:597-603 | so is the last fragment of a call with an id or a name |
| ChatMessage.OrderIsByAppearance | internal/anthropic/openai.go:583-596 | tool indices are listed in the order of their first fragments |
| ChatMessage.FirstErrorCounts | internal/anthropic/openai.go:538-540 | the first chunk with an error decides the error of the stream |
| ChatMessage.ChunksAre | internal/anthropic/openai.go:521-537 | the chunks are those of the data lines before the end mark |
| ChatMessage.DecimalsDiffer | internal/anthropic/openai.go:702-706 | made-up ids differ |
| ChatStream.AddFragment | internal/anthropic/openai.go:583-606 | one tool fragment keeps the map of calls equal to what the fragments of each index add up to, and the order that of first appearance |
| ChatStream.OrderIsDistinct | internal/anthropic/openai.go:588-596 | no tool index is listed twice |
| ChatStream.OrderHas | internal/anthropic/openai.go:588-596 | a tool index is listed if and only if it has fragments |
| ChatStream.OpenAIChoiceToMessage | internal/anthropic/openai.go:682-733 | thinking, text and tool blocks in that order, with made-up ids for calls without one |
| SubagentTrace.LinksFormATree | internal/acp/subagents.go:49-67 | in a well-formed trace parents are announced before their children and parent links cannot form a cycle |
| SubagentTrace.SilentWhileIdle | internal/acp/subagents.go:80-119 | in a well-formed trace no message, thought, tool or plan update appears on a child between an idle state and its next running state |
| SubagentTrace.RunsStartOnce | internal/acp/subagents.go:68-75 | in a well-formed trace a named run is reported running at most once on a child |
| SubagentTrace.AnnouncedOnce | internal/acp/subagents.go:48-66 | in a well-formed trace a child is announced once |
| SubagentTrace.SpokenOfAfterwards | internal/acp/subagents.go:48-76 | whatever is sent on a child comes after its announcement, and its states are told where it was announced |
| SubagentTrace.IdleEndsARun | internal/acp/subagents.go:106-118 | each idle state ends a run that was reported running |
| Subagents.TracesAreWellFormed | internal/acp/subagents.go:30-125 | for every sequence of events the trace the client sees is well formed |
| SubagentFamily.ParentIsAsNamed | internal/acp/subagents.go:48-66 | through the whole trace a child belongs to the session of the agent that its first event named as its parent if that agent was known by then, and to the root session otherwise |
| SubagentFamily.KnownAreNamed | internal/acp/subagents.go:36-48 | the agents known are those that events have named, by agent id or else by task id |
| SubagentFamily.FirstEventAnnounces | internal/acp/subagents.go:60-76 | a first event announces the child under its description, or else its name, and reports its run |
| SubagentFamily.StartsAreReported | internal/acp/subagents.go:68-83 | a start that is news begins the next run afresh, and the same start again says nothing |
| SubagentFamily.EndsAreReported | internal/acp/subagents.go:106-118 | the end of a run is told to its parent as cancelled, as an error with its message, or as the end of the turn |
| SubagentFamily.StaleSaysNothing | internal/acp/subagents.go:82-84 | what comes after the end or from another run says nothing |
| SubagentFamily.RetriesAreShown | internal/acp/subagents.go:104-105 | a retry is told as a status even after the end |
| SubagentFamily.TerminalsAreShown | internal/acp/terminal.go:199-234 | a terminal is shown with all before it on the card of its tool call, on the root session for the main agent and on its own child's while that works in the same run, and nowhere otherwise |
| SubagentFamily.ChildEndsAreShown | internal/acp/server.go:722-762 | the end of a child's tool call shows its terminals once more and its card is done with |
| SubagentFamily.ShownIsTheOutput | internal/acp/subagents.go:88-92 | the messages shown concatenate to the text a run puts out, the thoughts to its thinking |
| Subagents.EndedKeeps | internal/acp/subagents.go:106-118 | a run that completes without error with some output has shown the client a message before its idle state |
| Subagents.RunsAreRelayed | internal/acp/subagents.go:68-105 | while a run goes on the client sees on its child's session exactly what it streams, in order, whatever leftovers of other runs and whatever events of other agents come in between |
| Subagents.CardsAccumulate | internal/acp/terminal.go:227-233 | until its tool call ends a card lists every terminal attached to it, in order |
| Subagents.AttachesKeep | internal/acp/terminal.go:199-234 | attaching a terminal never speaks on an unknown or finished child |
| SubagentEmitter.Emitter.EmitSubagentProgress | internal/acp/subagents.go:30-120 | the method's effect on children, cards, counter and sent updates is the step on values |
| SubagentEmitter.Emitter.AttachTerminal | internal/acp/terminal.go:199-234 | as is that of attaching a terminal, which sends every terminal of the card |
| SubagentEmitter.Emitter.EmitMainToolDone | internal/acp/server.go:722-762 | the end of a tool call of the root session sends its card's terminals along and clears them |
| Terminal.OneOwnerUntilReleased | internal/acp/terminal.go:60-170 | in every interleaving a created terminal is owned by exactly one of Run and the goroutine until its release, and then by nobody |
| Terminal.FinishedMeansReleased | internal/acp/terminal.go:85-140 | when both sides have finished, a created terminal was released exactly once and last; it was killed first if and only if its id was not handed over, the wait came back failed, or the context had ended when Run looked, and its output was fetched if it was handed over |
| Terminal.SentBeginsTheStory | internal/acp/terminal.go:85-170 | at any moment what went out for a created terminal begins that story |
| Terminal.StateRemembers | internal/acp/terminal.go:60-170 | whether the context has ended, an id was handed over, the wait failed and Run got through its checks is told by the actions alone |
| Terminal.WaitsOnlyWhenOpen | internal/acp/terminal.go:90-94 | Run waits for the command only after it found the context open |
| Terminal.NothingWithoutChecks | internal/acp/terminal.go:60-70 | nothing is asked of the client unless the context was open and the directory absolute |
| Terminal.NothingAfterRelease | internal/acp/terminal.go:85-170 | only the created terminal is spoken of, and nothing follows its release |
| Terminal.NeverStuck | internal/acp/terminal.go:145-170 | until both sides have finished some step other than the context ending is possible |
| Terminal.StepsRunOut | internal/acp/terminal.go:60-170 | and every such step brings the end nearer |
| Conn.NeverPanics | internal/acp/conn.go:35-45 | in no interleaving is a channel closed twice or sent on after it was closed |
| Conn.SendFindsRoom | internal/acp/conn.go:181-197 | a dispatch never blocks and never drops the response it matched |
| Conn.AnswerHasTheId | internal/acp/conn.go:132-179 | a response reaches only the call with its id (section 5 of the JSON-RPC 2.0 specification), and at most one call |
| Conn.OneMatchPerCall | internal/acp/conn.go:181-191 | at most one response is matched to a call, however often its id is repeated |
| Conn.NoCallIsLost | internal/acp/conn.go:150-179 | a call whose request was written waits until its context ends, it sees Close or it receives; while it waits it is registered, or held by a dispatch, or can receive at once, and after Close it can always return |
| Conn.CallsEndForAReason | internal/acp/conn.go:132-179 | a call fails if and only if its parameters could not be marshalled, its write failed or its context ended; it is disconnected only after Close has begun, and answered only by a response with its id |
| Conn.WrittenCallsAreAnswered | internal/acp/conn.go:150-179 | a call that was written and has returned was answered, unless its context ended or Close began |
| Conn.CallsArePlaced | internal/acp/conn.go:132-179 | where a call stands is told by what happened to it |
| Conn.CloseDrains | internal/acp/conn.go:35-45 | Close lets go of the lock only when no entry is left, and nobody else touches the entries while it holds it |
| Conn.NoEntryLeaks | internal/acp/conn.go:144-148 | a finished call leaves no entry behind |
| LineRanges.CountsLines | internal/changegraph/recorder.go:174-183 | the count is the number of lines of the text |
| LineRanges.LinesAreTheText | internal/changegraph/recorder.go:174-183 | the lines make up the text, and only the last may lack its newline |
| LineRanges.EditsBelong | internal/changegraph/recorder.go:71-95 | the old file holds what is equal and deleted, the new one what is equal and inserted |
| LineRanges.TagsAreLinesIff | internal/changegraph/recorder.go:71-95 | on either side, counting edit by edit numbers the real lines of the file if and only if every text of that side but the last one ends a line |
| LineRanges.LineComesFrom | internal/changegraph/recorder.go:71-95 | each line of an edit is the line of the file that its number says, with the edit's tag |
| LineRanges.EveryLineComesFrom | internal/changegraph/recorder.go:71-95 | every line of the old and of the new file comes from some edit |
| LineRanges.CoveredIffChanged | internal/changegraph/recorder.go:71-95 | a line of the old file is covered if and only if it comes from a deletion, a line of the new file if and only if it comes from an insertion |
| LineRanges.ChangedLineRanges | internal/changegraph/recorder.go:71-95 | the merged ranges of both sides are exact for the tags of the edits, and canonical |
| LineRanges.MergeRanges | internal/changegraph/recorder.go:185-202 | merging keeps the lines covered and leaves a gap between ranges |
| LineRanges.CanonicalIsUnique | internal/changegraph/recorder.go:185-202 | the merged form is determined by the lines covered |
| LineRanges.Overlaps | internal/changegraph/recorder.go:216-226 | the loop decides whether some range meets the symbol's lines |
| LineRanges.MeetsCoveredLine | internal/changegraph/recorder.go:216-226 | a symbol meets the ranges exactly when one of its lines is covered: those from its first line to its end, or its first line alone when its end is not known |
| LineRanges.MergingIsHarmlessIff | internal/changegraph/recorder.go:216-226 | merging leaves every overlap answer unchanged if and only if the symbol does not end before it starts |

## Left out

- Real files, JSON bytes, HTTP, server-sent-event line scanning and hashing: disks are maps, events and chunks arrive decoded, a hash is a name that carries what was hashed.
- Checkpoint paths: path cleaning, symbolic links, directory conflicts, the noise-path filter and the `.missing` markers, which nothing reads back; checkpoint names and prompts; lookups that only list.
- Lock files of the operating system: a lock is exclusive and freed on release or when its process dies.
- RunLedger.LedgerTheorem: takes successful saves and lock releases as given; a failed completion save deliberately reports a different result. Coordinators without a store, usage counts, models and run events in records are not part of the ledger.
- RunLedger.CancelTakesEffect: says nothing of a run that is neither live in this process nor ended, such as one whose process died.
- Lifecycle.Begin: a context that has already ended when a start is requested, and authorization beyond the working directory, are not modelled.
- Cross-process timing of the status view: it loads before it probes the lock.
- Retries by the runner inside one run, and everything the runner itself does.
- SelectFork.ForksNeverCutIff: which messages are synthetic is decided by another package and comes in as a predicate.
- Mailbox.DeliveredInOrder: working directories are taken as already cleaned paths.
- ForkStore.SavedForksLoad: a working set is text that JSON keeps as it is; read errors other than a missing file are not modelled. Loading and saving of agent records themselves is only the record update.
- ResponsesMessage.ResponsesToMessage: tool input is empty or named by its trimmed text; the value the text decodes to, and the wrapping of text that does not decode, are left to the JSON library, as are item roles.
- ChatStream.OpenAIChoiceToMessage: the same holds of tool input here.
- ResponsesStream.ConsumeResponsesStream: the callbacks for text and thinking deltas, and streams cut off by a read error.
- ResponsesRequest.BuildResponsesInput: the model name, token limit, tools and reasoning settings of a request, which are copied.
- ChatStream.ConsumeOpenAIStream: contents given as lists of parts are taken as their concatenated text, and finish reasons as already classified; the other Chat Completions direction, building a request, is left out.
- CheckpointCallers.HookRecordsTheChanges: fingerprints are taken to see every file; the directories, file types and sizes that fingerprinting skips are left out.
- Subagents.TracesAreWellFormed: white space is space, tab, newline and carriage return, and event kinds arrive lowered.
- SubagentEmitter.Emitter.AttachTerminal: the cards shown to clients without the sub-agent extension are left out, because such clients see no child sessions at all.
- SubagentEmitter.Emitter.EmitMainToolDone: finding the id of a tool call that comes without one by its tool's name is left out.
- Terminal.FinishedMeansReleased: whether the client answers the kill, output and release requests, and the text of the result.
- Conn.NeverPanics: wrap-around of the 64-bit call counter, and which of two disconnection errors a call reports.
- LineRanges.ChangedLineRanges: the diff library supplies the edit script, with texts of whole lines but for the last on each side; which symbols the ranges touch is left to the parser.
- The remaining packages (user interface, configuration, prompts, language servers, memory) hold no comparable invariant.
