# Ricky: verified models of the agent harness

Ricky is a personal agent harness. It runs durable workflows with external effects, keeps long
conversations within a model's context by compacting them, lets a user answer live browser
challenges, and spends delegated authority. This project models the parts of it where a mistake
repeats an effect, loses a conversation or exceeds a limit, and proves what they promise over whole
runs, under crashes, cancellations and arbitrary interleavings. `dafny verify dfyconfig.toml` checks
everything.

## What is modelled

**The workflow scheduler** (`Scheduler`, `GraphRun`). `GraphRun.Run` is the loop of
`_run_graph`: pass over the step list, abort check, selection, wait for a first batch, join it.
A step is its position in the list; its condition and its execution are functions of the records of
its ancestors, and executions finish at arbitrary awaits. `Scheduler.Final` is the independent
reference: the list, one step at a time. The main result is that every interleaving at every parallel
limit ends, and ends with the records of the reference. Three facts about the code come out as exact
conditions: a stall needs a step listed before a need that can be decided unexecuted (the compiler
rejects cycles but keeps the author's order); the abort flag is overwritten while a batch is joined, so
an abort can be lost exactly when the batch mixes failures that abort with failures that do not; and a
task cancelled inside the checkpoint that opens its execution leaves a running record behind. A
cancellation of the scheduler itself is modelled at each of its awaits, and a run leaves tasks behind
exactly when it is cancelled inside a pass while tasks are running.

**The effect journal** (`EffectJournal`, `EffectSafety`, `EffectTheorems`, `Leftovers`, `WorkflowRun`). Memory, the
durable checkpoint and a checkpoint being written are three separate snapshots. Tool steps move between
awaits; the process may die anywhere, a checkpoint may fail, a user may reconcile a doubtful effect
while no process is live. The trace records real dispatches. `WorkflowRun` has the resume loops and the
journal consultation as they mutate the run, proved equal to the functions the state machine uses.
`Leftovers` adds a run that ends while tasks are alive, beside the process that takes it up again.

**The execution gate** (`ExecutionGate`): the writer-preferring gate over the semaphore of step slots,
with cancellation while waiting and inside. Exits are modelled both completed and interrupted; the
results about an interrupted exit say exactly what it breaks.

**foreach** (`Foreach`): planning by key, one nested `GraphRun` per item, at most the configured number
at a time, cut off by a failure or a cancellation, and the output list. Items touch only their own
records, so one item's scheduler run is one step of the interleaving. `RunReport` puts the top-level
graph, the items of its foreach steps and the reported status together.

**The transcript** (`Transcript`, `Boundaries`, `ObservedState`, `TurnHistory`). Well-formed histories
are a grammar (`Transcript.Balanced`): plain messages, and batches of one assistant message with calls
followed by tool messages that answer each call once. The code's pending-set scan accepts exactly this
grammar. `Boundaries.Cut` says where a history may be cut without mentioning the scan. `TurnHistory`
has the turn loop, what completed tools append, the closing of an aborted turn, and what becomes of a
history that closing could not repair.

**Compaction** (`SummaryRequest`, `Checkpoints`, `Compaction`). Request sizes come from JSON string
escaping (section 7 of RFC 8259) applied twice, decimal positions and the attribution list. The
compaction loop runs against a session that other work may extend, in any way, or compact during every
await.

**Browser challenges** (`Challenges`, `ChallengeWait`). The resident owner and the compare-and-swap store
are two records; every locked section may be written, interrupted, fail, or lose the outcome of a
committed write. Times in `ChallengeWait` are reals and the clock never goes back.

**Delegated authority** (`DelegatedEffect`, `Ceilings`). One delegated call with a choice at every await
is checked against a protocol automaton; the ceiling merge is proved to be the greatest authority below
all its sources, and a compiled grant the largest within contract, policy and ceilings.

**Image projection** (`ImageProjection`): uploads, and the newest run of tool-made images that fits.

## Assumptions

- Digests are injective: a digest is modelled as the text or history it covers.
- asyncio code between two awaits is atomic, and tasks start in the order they were created.
- In the scheduler and foreach models checkpoint writes succeed; in the journal model they may fail.
- No two processes run the same workflow run at once, and `reconcile` is used only while none does. That
  no task of an earlier start is left is a hypothesis of `Leftovers.NoTaskLeftKeepsBound`, and needed
  (`Leftovers.LeftTaskSendsTwice`); a cancellation inside a pass of the scheduler does leave tasks
  (`GraphRun.TaskLeft`).
- In `RunReport` the failure policies do not cut a run or an item short, and nobody cancels.
- Conditions and step executions depend only on the records of a step's ancestors, as the references a
  workflow may contain do.
- A provider's reply is an assistant message without tool results whose call ids differ from each other.
  Nothing is assumed about earlier ids unless a contract says so (`TurnHistory.Fresh`).
- During compaction other work only appends to the history and publishes checkpoints of its own. Context
  reports and token estimates are functions of the history and the active checkpoint.
- Whitespace in replies is blank, tab, line feed and carriage return.

## Model

| member | source | states |
|---|---|---|
| Scheduler.FinalAt | src/ricky/agent/workflow.py:319-373 | in the reference run every record not settled at entry is the verdict on, or the execution from, the final records of its ancestors |
| Scheduler.FirstPassStallsIff | src/ricky/agent/workflow.py:416-429 | in a graph where every step carries a condition, some choice of conditions stalls the first pass of a fresh run if and only if some step is listed before one of its needs |
| Scheduler.StallNeedsLateNeed | src/ricky/agent/workflow.py:416-429 | in any acyclic graph and any pass of any run, a stall needs a step listed before a need of its own that can be skipped, blocked or failed without being executed |
| Scheduler.TopologicalNeverStalls | src/ricky/agent/workflow.py:319-325 | on a list in dependency order, a pass with nothing running leaves something to start unless everything is terminal |
| GraphRun.GraphRun.DecideStep | src/ricky/agent/workflow.py:319-373 | a pending step with terminal needs becomes blocked, failed, skipped or ready as its dependency policy and condition say; only an undecidable condition of an aborting step raises the flag |
| GraphRun.GraphRun.Pass | src/ricky/agent/workflow.py:310-373 | the opening event and one pass, tasks moving meanwhile; with nothing running it equals the reference pass, and no record moves backwards; a cancellation leaves it at one of its own awaits, the opening event among them |
| GraphRun.ChosenFits | src/ricky/agent/workflow.py:394-414 | the selection starts only ready steps, never exceeds the parallel limit, and is empty with nothing running only if nothing is ready |
| GraphRun.GraphRun.StartSelected | src/ricky/agent/workflow.py:394-414 | exactly the selection starts |
| GraphRun.FatalAfterIff | src/ricky/agent/workflow.py:439-445 | a joined batch raises the abort flag exactly when the last failure in join order is an aborting one |
| GraphRun.AbortNeverLostIff | src/ricky/agent/workflow.py:439-445 | every join order aborts as it should if and only if the batch does not mix aborting and tolerated failures |
| GraphRun.MixedBatchCanLoseAbort | src/ricky/agent/workflow.py:439-445 | a batch with a tolerated failure has a join order that drops the abort |
| GraphRun.GraphRun.Join | src/ricky/agent/workflow.py:439-445 | a finished batch is joined once each in an arbitrary order, the flag following its failures |
| GraphRun.GraphRun.CancelTasks | src/ricky/agent/workflow.py:1486-1492 | every task is cancelled and waited for: running records end interrupted or finished, except those still in their opening checkpoint |
| GraphRun.GraphRun.Stop | src/ricky/agent/workflow.py:375-392 | on an abort the tasks are cancelled and unstarted steps are blocked, all of them unless the abort is itself cancelled |
| GraphRun.CancelledRun | src/ricky/agent/workflow.py:432-438 | a run cancelled with its tasks gathered leaves running only records cancelled in their opening checkpoint, and every other record undecided, as in the reference run, or marked as cut short |
| GraphRun.GraphRun.Abort | src/ricky/agent/workflow.py:457-471 | after an abort a record is not terminal exactly when its task was cancelled in its opening checkpoint; every record is the reference record or marked as cut short |
| GraphRun.GraphRun.Conclude | src/ricky/agent/workflow.py:416-430 | with nothing running or startable: finished if all is terminal, else the unfinished are failed as an impossible state, which needs a late avoidable need, a cycle or a record left running at entry |
| GraphRun.GraphRun.Run | src/ricky/agent/workflow.py:309-445 | every interleaving ends; impossible only with a step listed before an avoidable need; without an abort or a cancellation it finishes with the records of the one-at-a-time run; it stops only if the reference run contains an aborting failure; a cancelled run leaves a task if and only if it was cancelled in a pass while tasks were running, and then exactly those |
| GraphRun.TaskLeft | src/ricky/agent/workflow.py:310-317 | a concrete run of two steps, cancelled in the opening event of its second pass: one task is left, its record running, and the task goes on to complete its step |
| EffectTheorems.AtMostOneDispatch | src/ricky/agent/workflow.py:820-900 | over any number of crashes, cancellations, retries and resumes, an address without safe replay is dispatched at most once plus once for each time the user declared it undone |
| EffectTheorems.PerformedIsFinal | src/ricky/agent/workflow.py:823-826 | after a performed receipt an address is dispatched again only if the user said in between that it did not happen, safe replay or not |
| EffectTheorems.WriteAhead | src/ricky/agent/workflow.py:864-884 | whenever a tool is about to be called, memory, the durable checkpoint and any checkpoint being written mark the effect dispatched |
| EffectTheorems.DispatchReachable | src/ricky/agent/workflow.py:845-884 | a concrete run that saves an entry prepared, marks it, saves it dispatched and then calls the tool |
| EffectTheorems.JournalShape | src/ricky/agent/workflow.py:812-858 | one journal entry per address in every checkpoint, each with a record, and a consulting step never meets a reconciled entry |
| EffectTheorems.HaltedRunSendsNothing | src/ricky/agent/workflow.py:257-258 | a process that found a doubtful record dispatches nothing |
| EffectTheorems.UnansweredDispatchHaltsResume | src/ricky/agent/workflow.py:216-230 | a process that died with an unanswered dispatch in its checkpoint is resumed in doubt and the resumed process dispatches nothing |
| EffectTheorems.StuckAfterResumeIff | src/ricky/agent/workflow.py:231-243 | a resume leaves a record ready or running exactly when it was so while its effect was saved as in doubt, succeeded or failed |
| EffectTheorems.UnclearEffectHides | src/ricky/agent/workflow.py:898-902 | if a tool answers in doubt and the process dies after that checkpoint, the resume leaves the step running, and with no other doubt the run is not halted although its documentation says doubt is reported |
| Leftovers.NoTaskLeftKeepsBound | src/ricky/agent/workflow.py:271-278 | if no task is left when a run ends, its later starts keep to one dispatch plus one for each denial, whatever happens in them |
| Leftovers.LeftTaskSendsTwice | src/ricky/agent/workflow.py:271-278 | with one task left before its journal lookup, a concrete next start dispatches the effect and the task left dispatches it again, with no safe replay and nothing denied |
| EffectSafety.RunKeepsInv | src/ricky/agent/workflow.py:802-909 | the invariant tying journal entries, records, task positions and the dispatch trace holds in every reachable state |
| WorkflowRun.WorkflowRun.Newest | src/ricky/agent/workflow.py:812-819 | the entry found is the newest one at the address |
| WorkflowRun.WorkflowRun.DoubtUnanswered | src/ricky/agent/workflow.py:216-230 | every dispatched entry and its record become in doubt, nothing else changes, unless an entry has no record |
| WorkflowRun.WorkflowRun.ReopenUnfinished | src/ricky/agent/workflow.py:231-243 | exactly the ready, running and interrupted records without a closed effect go back to pending |
| WorkflowRun.WorkflowRun.Resume | src/ricky/agent/workflow.py:216-243 | the two loops together are the classification the run theorems use |
| WorkflowRun.WorkflowRun.TakeEffect | src/ricky/agent/workflow.py:820-868 | refusals, doubt, a new entry or reuse as the journal dictates, the entry left marked for dispatch |
| ExecutionGate.RunKeepsInv | src/ricky/agent/workflow.py:1505-1547 | counters match where the tasks are, and nobody sleeps through a chance to pass, in every reachable state |
| ExecutionGate.ExclusiveAlone | src/ricky/agent/workflow.py:1514-1535 | an exclusive task inside is alone; the waiter count is the number of parked exclusive tasks; at most the configured number hold a slot |
| ExecutionGate.SomeoneAdvances | src/ricky/agent/workflow.py:497-500 | with tasks waiting or leaving, no slot held and no exit interrupted, some task can take its next step |
| ExecutionGate.WaitingWriterBlocksReaders | src/ricky/agent/workflow.py:1537-1541 | while an exclusive task is parked no further shared task passes |
| ExecutionGate.LostExclusiveExitJams | src/ricky/agent/workflow.py:1531-1534 | after an exclusive exit interrupted before its update nobody passes again |
| ExecutionGate.LostSharedExitStarves | src/ricky/agent/workflow.py:1544-1547 | after an interrupted shared exit no exclusive task passes again |
| ExecutionGate.DrainedGateOpensIff | src/ricky/agent/workflow.py:1516-1528 | a drained gate lets the next exclusive task pass if and only if no exit was interrupted |
| ExecutionGate.ExecutionGate.ArriveExclusive | src/ricky/agent/workflow.py:1516-1528 | the counters after arriving, passing or parking are those of the state machine |
| ExecutionGate.ExecutionGate.ArriveShared | src/ricky/agent/workflow.py:1537-1541 | likewise for an ordinary step |
| ExecutionGate.ExecutionGate.CancelExclusiveWait | src/ricky/agent/workflow.py:1523-1526 | a cancelled exclusive waiter is no longer counted and everyone is notified |
| Foreach.ForeachRun.Plan | src/ricky/agent/workflow.py:1100-1128 | one record per key, stored ones reused untouched, new ones blank at their element's index; refused exactly for too many elements or a missing or repeated key |
| Foreach.ForeachRun.ExecuteItem | src/ricky/agent/workflow.py:1140-1180 | the item's child records are the reference run of its body, its status follows the failed and blocked ones; it stays active only if its body is out of order; cancelled, it is interrupted and its records are undecided, the reference's or cut short |
| Foreach.ForeachRun.RunItems | src/ricky/agent/workflow.py:1136-1203 | in any interleaving within the limit, finished items are untouched and the others are unchanged, executed, interrupted, or still running because they were cancelled in their opening checkpoint; where failures are not collected, success means all finished |
| Foreach.StuckIff | src/ricky/agent/workflow.py:1140-1159 | an item with an orderly body is left running if and only if it was cancelled in its opening checkpoint, and a resume takes it up again as it was |
| Foreach.ForeachRun.CaughtOpening | src/ricky/agent/workflow.py:1140-1159 | starting any waiting item and cancelling it in its opening checkpoint leaves it running and nothing else changed, and reopening gives back the item as it was |
| Foreach.ForeachRun.Execute | src/ricky/agent/workflow.py:1082-1232 | items finished before are left exactly as they were; one output entry per element, in stored index order, the collection's own order when the stored items came from it |
| Foreach.OutputOrderIff | src/ricky/agent/workflow.py:1204-1205 | the output is a permutation of the planned items ascending by index, and keeps the collection's order if and only if the indices ascend along it |
| Foreach.ForeachRun.Reopen | src/ricky/agent/workflow.py:244-249 | a resume makes running and interrupted items eligible again and no others |
| RunReport.TopDoubtIff | src/ricky/agent/workflow.py:280-282 | after a run a top-level record is in doubt if and only if the execution of some step that is no foreach step was |
| RunReport.NestRecord | src/ricky/agent/workflow.py:494-495 | an executed foreach step, its execution being what its collection and its items come to, is recorded completed exactly when it succeeds and failed otherwise, whatever doubt its items hold |
| RunReport.ExecuteNest | src/ricky/agent/workflow.py:1082-1232 | a first execution of a foreach step completes exactly when it should, and its items hold doubt only where the reference run of a body does, always so if it completes |
| RunReport.WorkflowRunner.Start | src/ricky/agent/workflow.py:254-295 | a start that finds doubt anywhere halts at once; otherwise the run reports doubt if and only if the execution of a step that is no foreach step was doubtful |
| RunReport.WorkflowRunner.StartTwice | src/ricky/agent/workflow.py:254-295 | a run started twice: the first start reports doubt if and only if a tool's execution was doubtful; the second halts on the doubt of items of completed foreach steps as well, only on doubt that some body holds, and otherwise changes nothing and reports the same |
| RunReport.HiddenDoubt | src/ricky/agent/workflow.py:1160-1169 | a concrete workflow whose reference run reports completion with no doubtful tool while the body of its completed foreach step is doubtful |
| RunReport.HideDoubt | src/ricky/agent/workflow.py:254-295 | that workflow, run: the first start reports completion and the second halts as in doubt |
| Transcript.ScanIffBalanced | src/ricky/agent/compaction.py:60-98 | the pending-set scan accepts exactly the transcripts of the grammar |
| Transcript.CutSafe | src/ricky/agent/compaction.py:87-97 | wherever the scan is idle inside a well-formed transcript both halves are well formed, even with ids reused |
| Boundaries.CutIffFound | src/ricky/agent/compaction.py:87-95 | a boundary is found exactly where both halves are transcripts, the first ends in an assistant's or tool's message and its observations, and no observation follows |
| Boundaries.SafeBoundaries | src/ricky/agent/compaction.py:60-98 | refused exactly on malformed or unresolved histories; otherwise exactly the cuts, ascending, so that sorting their set changes nothing |
| ObservedState.PairsWithinBatches | src/ricky/agent/compaction.py:387-397 | on a balanced prefix the one-pass dictionary pairs every result with the call of its own batch, and nothing is left waiting |
| ObservedState.PairResults | src/ricky/agent/compaction.py:383-397 | the loop computes those pairs, every result once and in order |
| TurnHistory.ClosingRepairsIff | src/ricky/agent/loop.py:1090-1114 | closing an interrupted batch leaves a well-formed history if and only if none of its call ids was answered earlier |
| TurnHistory.ClosingBalanced | src/ricky/agent/loop.py:1090-1114 | closing changes nothing in a complete history |
| TurnHistory.ReusedIdStaysOpen | src/ricky/agent/loop.py:1096-1107 | a concrete reused id for which closing leaves the call open |
| TurnHistory.RecordedSettled | src/ricky/agent/loop.py:886-986 | what completed tool work appends is a batch with every call answered, then plain messages |
| TurnHistory.BrokenTurnIff | src/ricky/agent/loop.py:700-738 | a turn that breaks off in an open message leaves, once closed, a complete transcript if and only if that message reuses no answered id |
| TurnHistory.FreshNeverClashes | src/ricky/agent/loop.py:700-738 | with ids fresh against the history and earlier replies it never does |
| TurnHistory.RuinedTurn | src/ricky/agent/loop.py:700-738 | once closing has left a call open, no later turn, however it ends, makes the history complete again |
| TurnHistory.RuinedIsBroken | src/ricky/agent/compaction.py:60-98 | a ruined history is one the compaction scan refuses |
| TurnHistory.TurnSettled | src/ricky/agent/loop.py:541-547 | while no iteration breaks off, the history between iterations is a complete transcript |
| TurnHistory.Session.CloseDangling | src/ricky/agent/loop.py:1090-1114 | appends one error result for every call no result names, in order |
| TurnHistory.Session.RecordBatch | src/ricky/agent/loop.py:886-983 | appends one result per call, then the images, then the text for the user |
| TurnHistory.Session.RunTurn | src/ricky/agent/loop.py:357-738 | on any history: it only grows, by what the iterations say in turn, the user message once before the first, and the exit is the last iteration's; on a complete transcript compaction at the top of an iteration never meets open calls, and every exit leaves a complete transcript, unless the turn broke off in an open message that reused an answered id, never with fresh ids; then the history is ruined, and a ruined history stays ruined |
| SummaryRequest.PayloadGrows | src/ricky/agent/compaction.py:515-543 | a longer fragment never makes a smaller request |
| SummaryRequest.BoundedSummaryRequest | src/ricky/agent/compaction.py:497-569 | refused exactly when no fragment fits; otherwise the longest fragment that fits |
| Checkpoints.RetainedHistory | src/ricky/agent/session.py:328-343 | the tail, preceded by the last request before the cut when the tail does not begin with one |
| Checkpoints.RetainedIsTranscript | src/ricky/agent/session.py:328-343 | after a complete prefix the retained history is a transcript if and only if the whole history is, and begins with a user request if and only if there is one at or before the cut |
| Checkpoints.TurnKeepsConsistent | src/ricky/agent/session.py:215-231 | growing the history in any way keeps every checkpoint's boundary, digest and complete prefix |
| Checkpoints.PublishKeepsConsistent | src/ricky/agent/session.py:215-231 | so does publishing a checkpoint at a cut under a new id |
| Checkpoints.Project | src/ricky/agent/context.py:551-632 | the boundary and digest errors exactly as checked; with a checkpoint in place neither occurs, and the projection is a transcript if and only if the history is |
| Compaction.HistorySource | src/ricky/agent/compaction.py:457-494 | the source is the rendered messages as a JSON list, and every fragment names the exact place of its message |
| Compaction.SelectBoundary | src/ricky/agent/compaction.py:113-129 | the largest boundary that keeps enough recent work, or the first if none does |
| Compaction.NextBoundary | src/ricky/agent/compaction.py:290-318 | the next attempt takes the nearest later boundary the last summary would make fit, once, and otherwise the last |
| Compaction.SummarisedOnce | src/ricky/agent/compaction.py:206-269 | every message between the old and the new boundary lies in exactly one summarised range |
| Compaction.Session.NextPiece | src/ricky/agent/compaction.py:208-219 | each request carries the running summary and the longest piece that fits the capacity, and is refused only if none does |
| Compaction.Session.Summarise | src/ricky/agent/compaction.py:206-269 | the pieces sent concatenate to the source; a summary comes back only over an unchanged revision |
| Compaction.Session.Attempt | src/ricky/agent/compaction.py:269-353 | one attempt publishes a worthwhile checkpoint, or changes nothing |
| Compaction.Session.Attempts | src/ricky/agent/compaction.py:200-353 | at most three attempts, each over a strictly longer prefix |
| Compaction.Session.ShowHistory | src/ricky/agent/context.py:551-568 | in every state of a session's life, broken histories included, the active checkpoint's boundary and digest hold, and the projection is a transcript if and only if the history is |
| Compaction.Session.TakeTurn | src/ricky/agent/loop.py:357-738 | a turn in a session with checkpoints, on any history and with any exit, invalidates none of them; a complete history stays complete unless the turn broke off in a message that reused an answered id, and a history so broken stays broken |
| Compaction.Session.Compact | src/ricky/agent/compaction.py:144-353 | neither history nor checkpoints are written, and then compaction is off, or something outside went wrong, or the history is broken, or there is no cut beyond the old boundary, or even the last cut's summary does not help; or one checkpoint is added over an untouched history, at a cut strictly beyond the old boundary, within every budget and strictly smaller; the session stays consistent; over a broken history nothing is sent |
| Challenges.OneWriterWins | src/ricky/browser/challenge_store.py:127-132 | of two writers at one revision whichever goes first makes the store refuse the other |
| Challenges.PublicationAccepted | src/ricky/browser/challenges.py:138-150 | whatever an up-to-date owner publishes satisfies the store's rules |
| Challenges.AgreementIff | src/ricky/browser/challenges.py:138-150 | resident and stored records agree, with the lock free, if and only if no committed write was lost to a second cancellation or a late error; after that the owner is behind and can publish nothing |
| Challenges.OneResponseOneSubmission | src/ricky/browser/challenges.py:33-41 | in any run with foreign writers at most one response is handed out, submitting is entered at most once and from responded, ends only submitted, blocked or in doubt, and nothing follows a terminal state |
| Challenges.SubmittingIsDurable | src/ricky/browser/challenges.py:229-239 | the owner is submitting only once the store is, and, unless `finish` is asked for that state, only before expiry with the original binding |
| Challenges.StoreLineage | src/ricky/browser/challenge_store.py:34-48 | over any sequence of store calls an id is created at most once and first, its revisions count its writes without gap or repeat, each write is an acceptable successor of the one before, and the store holds the last |
| Challenges.ChallengeStore.Update | src/ricky/browser/challenge_store.py:106-152 | the sequence of refusals is the one acceptance condition; an accepted record replaces its predecessor and no other |
| Challenges.ChallengeStore.List | src/ricky/browser/challenge_store.py:71-82 | each record is read as it stood at some moment of the call |
| Challenges.ChallengeStore.InvalidateOwner | src/ricky/browser/challenge_store.py:53-82 | the records are read one by one while others use the store, then retired one call at a time; it fails only at a record written since it was read; when it succeeds, every open record of the owner is retired as it was read, a submitting one in doubt, for good |
| Challenges.LiveBrowserChallenge.Commit | src/ricky/browser/challenges.py:138-150 | the compare-and-swap with every way its outcome can be learned or lost |
| Challenges.LiveBrowserChallenge.BindSource | src/ricky/browser/challenges.py:152-163 | binds one source, durably, to a pending challenge only |
| Challenges.LiveBrowserChallenge.Respond | src/ricky/browser/challenges.py:165-190 | a response is held only if its record was published, before expiry, from the bound source, of the right kind |
| Challenges.LiveBrowserChallenge.Claim | src/ricky/browser/challenges.py:198-206 | a waiter finds the response exactly while the challenge is responded and unclaimed |
| Challenges.LiveBrowserChallenge.Finish | src/ricky/browser/challenges.py:215-227 | a submitting challenge told to expire, cancel or invalidate becomes in doubt |
| Challenges.LiveBrowserChallenge.BeginSubmission | src/ricky/browser/challenges.py:229-239 | returns normally only with submitting stored, before expiry and for the same binding |
| ChallengeWait.AbsoluteNeverFirst | src/ricky/browser/challenge_wait.py:72-78 | within the wait cap the absolute bound never decides; it is the tighter one exactly when this observation's waits exceed the cap |
| ChallengeWait.ChallengeWaitBudget.Pause | src/ricky/browser/challenge_wait.py:46-53 | a pause starts unless one is running or the allowance is used up, and gives no waiting time back |
| ChallengeWait.ChallengeWaitBudget.Resume | src/ricky/browser/challenge_wait.py:55-58 | the end of a pause banks its length |
| ChallengeWait.ChallengeWaitBudget.WaitForTask | src/ricky/browser/challenge_wait.py:60-93 | a positive answer means the task was done before or as a timer fired; a negative one that active time or the allowance is used up, no later than both together plus the timer's lateness |
| DelegatedEffect.ProtocolIsSafe | src/ricky/authority/engine.py:195-305 | in every run of the protocol one reservation precedes at most one call, at most one resolution never precedes the call, and a prepared effect is never both run and aborted |
| DelegatedEffect.OwnNotPerformed | src/ricky/authority/engine.py:245-252 | a call follows a reservation and no resolution, so the wrapper's own not_performed means no call |
| DelegatedEffect.DelegatedCall.Finalize | src/ricky/authority/engine.py:335-392 | the ledger is resolved before evidence, consumption and settlement, and stays resolved if those fail |
| DelegatedEffect.DelegatedCall.Run | src/ricky/authority/engine.py:170-305 | every path obeys the protocol; the tool runs exactly when reserved and bound; the action is left open if and only if the join was torn down, the receipt cannot be evaluated or the resolution failed; a prepared effect is stranded if and only if its identity did not validate, the finalization before the abort did not return, or the tool cannot abort or fails to |
| Ceilings.MergeAuthority | src/ricky/config.py:2129-2190 | the merge of valid sources is valid, and one source is returned as it is |
| Ceilings.MergeOfOne | src/ricky/config.py:2189-2190 | merging a single source would give that source |
| Ceilings.MergeValidates | src/ricky/config.py:1138-1197 | merged settings pass their own validators |
| Ceilings.MergeBelowEach | src/ricky/config.py:2135-2188 | the merge is below every source, and below each source's ceiling for every capability that source names |
| Ceilings.MergeIsGreatest | src/ricky/config.py:2135-2188 | a valid authority is below the merge if and only if it is below every source, so the merge takes away no more than it must |
| Ceilings.ConflictLeavesNoMoney | src/ricky/config.py:2148-2154 | two sources with different currencies leave no money and no currency |
| Ceilings.AddingProfileShrinksIff | src/ricky/config.py:2129-2171 | one more profile narrows every limit and every named capability, and narrows the whole exactly when it names no capability nobody named before |
| Ceilings.TallyIsLargest | src/ricky/authority/compiler.py:169-179 | the limits are the largest within contract, policy and every chosen ceiling |
| Ceilings.Charge | src/ricky/authority/compiler.py:186-205 | the bill is refused exactly when amounts mix currencies or a paying ceiling is in another or too low; otherwise it is the largest amount |
| Ceilings.Compile | src/ricky/authority/compiler.py:75-226 | a grant is issued exactly to a contract the policy covers, and is the largest within contract, policy and each ceiling |
| ImageProjection.ChooseImages | src/ricky/agent/context.py:644-674 | all uploads, and the longest newest run of tool-made images that fits the room the uploads leave |
| ImageProjection.BudgetKeptIff | src/ricky/agent/context.py:644-674 | the images kept stay within count, bytes and pixels if and only if the uploads alone do |
| ImageProjection.ProjectImageParts | src/ricky/agent/context.py:634-696 | same messages in the same order, part for part; in each message the uploads stay, the other images stay from one place in the whole list on, and those before it are replaced; the budgets hold if and only if the uploads fit them |
| ImageProjection.ProjectWithPending | src/ricky/agent/context.py:356-386 | pending images are refused exactly when they exceed the limits; uploads are always kept; pending and projected images together stay within the request budgets if and only if pending and uploads do |

## Where the code and what is said of it differ

- The run documentation says an effect with an unknown result is recorded as in doubt. A process that
  dies right after saving such an answer leaves its record running, and the resume does not look at it
  (`EffectTheorems.UnclearEffectHides`); inside a foreach item a doubtful effect counts as success until
  the next start of the run (`RunReport.WorkflowRunner.StartTwice`, `RunReport.HiddenDoubt`).
- A cancellation that reaches the scheduler while a pass awaits an event or a checkpoint leaves the
  running tasks unawaited (`GraphRun.GraphRun.Run`, `GraphRun.TaskLeft`); if the run is taken up again
  while such a task lives, an effect can be dispatched twice (`Leftovers.LeftTaskSendsTwice`). One that
  reaches a foreach item in its opening checkpoint leaves the item marked running until a resume
  (`Foreach.StuckIff`, `Foreach.ForeachRun.CaughtOpening`).
- Closing an aborted turn uses one set of answered ids for the whole history, while the pairing of
  results allows ids to come back (`TurnHistory.ClosingRepairsIff`). A history broken in this way can
  never be compacted again (`TurnHistory.RuinedTurn`, `Compaction.Session.Compact`).
- A profile may introduce a delegable capability that the installation does not name
  (`Ceilings.AddingProfileShrinksIff`).
- A publication joined on cancellation protects against one cancellation; a second one during the join
  can leave the resident challenge behind its stored record (`Challenges.AgreementIff`).

## Left out

- Provider streaming, prompts, event payloads, usage totals and rendered text: nothing is decided by them.
- The repair and progress counters of the turn loop: they only choose which exit is taken, and every exit is covered.
- Browser drivers, navigation and page inspection: foreign calls without state of their own here.
- File, SQLite, flock and fsync mechanics: replaced by an atomic snapshot and an atomic compare-and-swap.
- Workflow compilation, expression evaluation and permission decisions: functions or choices of the model.
- Model, agent and approval steps inside a workflow: they share the scheduler and the records, and journal no effects of their own.
- The other sections of a merged configuration: minimum and conjunction only.
- The derived lists of files, tools and errors in a checkpoint: filters over the pairs that are modelled.
- JSON rendering of whole messages: an unknown function; only string escaping, positions and lists have a size model.
- The event a waiting responder sleeps on: only its looks at the record under the lock are modelled.
- The focus checks of a compaction, and the combination of its targets with the configured limits: the policy a compaction receives is the result.
- Images: the nested walk over messages and their parts is one walk over all parts in order.
- The handler of a cancelled run, which marks the ready and running records it still sees as interrupted: one loop.
- DelegatedEffect.DelegatedCall.Run: recording a denial always succeeds in the model.
