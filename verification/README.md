# eastwatch, verified

A Dafny model of the parts of eastwatch where several threads, processes or crashes meet, with
proofs of what they keep.

* **The hosted job protocol.** The controller's tables and its serialised transactions
  (`Tables`, `Leases`, `Intake`, `Delivery`, `Cleanup`), the class that carries them out row by row
  (`Store`), what each leaves in the rows (`LeaseEffects`, `DeliveryEffects`, `CleanupEffects`), and
  whole runs of them (`LeaseInvariants`, `StoreRuns`, `EffectRuns`, `RetentionRuns`, `PendingQueue`). On top, the poller, the publisher and everybody else as one interleaved system
  in which any call may fail before or after taking effect and any thread may die between two steps
  (`Hosted`), with its invariants (`OneActiveJob`, `DeliveredFirst`, `NotesOnce`) and theorems
  (`HostedRuns`, `ReceiptRuns`, `Conclusions`, `Successors`, `Overwriting`); what becomes of an event
  (`Dispositions`); the comment cursor (`Comments`); and
  runners behind a channel that loses and repeats requests (`Launch`). `Dispatcher`, `Publisher`,
  `RetentionManager`, `CommentPoller`, `Executor` and `Daemon` hold the classes of those components,
  and each is proved to take only steps of the systems above or, for the last, of its own table of
  leases, so the theorems are about them.
* **The stream collector.** Line framing, tails, the marker probe, the safety flags, the exit
  guard, the diagnostics and the choice of the reply (`Bytes`, `Framing`, `ByteTail`, `Collector`,
  `ExitGuard`, `Replies`, `CollectorRuns`), and the class that updates them byte by byte (`PiStreamCollector`).
* **The local boards.** The GitHub and vault pollers with their durable outbox and atomic commit
  (`DispatchOutbox`, `GithubBoard`, `GithubPoller`, `VaultBoard`, `VaultStretches`, `VaultPoller`).
* **Smaller pairs of a fast form and a simple one.** The bounded trace log (`FleetLog`), fuzzy
  matching (`FuzzyMatch`), the result section of a vault note (`VaultNote`).

Time is a real number passed to each transaction. An unordered query is a step that may use any
order. Interference is modelled by runs: a theorem about runs quantifies over every sequence of
steps, of any components, with any arguments.

## What turned out not to hold

* **A successor can be created before its predecessor's outcome is posted.** Finishing a cleanup
  writes the status of the conversation by its key, whichever job is current by then
  (`src/eastwatch/controller/store.py:1131-1136` and `1198-1205`). If a cleanup is handed out while
  the poller is between placing the conversation and creating the next job, it can finish when that
  next job has finished too. `Overwriting.SuccessorCanOvertakeOutcome` is such a run from an empty
  database. The exact condition: a cleanup breaks the promise if and only if it *succeeds* while the
  current job of its conversation has finished and is not recorded. Up to such a cleanup every
  successor follows a delivered outcome (`HostedRuns.SuccessorFollowsDeliveredOutcome`). Right after
  one, and after no other cleanup, the poller alone can create a successor of a job that is
  unrecorded (`Successors.CleanupOpensExactlyWhenItOverwrites`), and any request to an enabled
  workspace that nothing else turns down will do (`Successors.OpenIsOvertaken`). A cleanup that
  fails leaves the conversation shut (`Successors.FailedCleanupShuts`). The overtaken outcome is
  then never recorded, nor posted, over any continuation of the run, unless its note was being
  posted already (`Successors.SupersededOutcomeIsNeverPosted`).
* **The truncation flag of a tail** is also set by one chunk that fills the ring exactly, with
  nothing lost (`ByteTails.TailIsLastOfStream`, `ByteTails.ExactFitIsReportedTruncated`).
* **A heartbeat that is answered with an error** has still extended every live lease in its batch
  (`LeaseInvariants.HeartbeatExtendsExactlyTheLive`).
* **A limit of zero characters** on the trace log cuts nothing off the unfinished line, and a
  negative one cuts from the wrong end; the log keeps within its limit of characters exactly if that
  is positive, or is zero with the unfinished line empty (`FleetLogs.CharsAreLimitedExactly`).
* **A single malformed line is journalled twice**, once when it happens and once on closing
  (`Collector.DiagnosticsAreBounded`).

## Model

| member | source | states |
|---|---|---|
| `Store.ControllerStore.ClaimJobs` | src/eastwatch/controller/store.py:551-615 | grants leases to the first queued jobs in (created_at, job_id) order, as many as the limit, ten, and the free capacity allow; nothing else changes; an unknown workspace is refused |
| `LeaseEffects.ClaimServesOldestFirst` | src/eastwatch/controller/store.py:551-615 | whatever a claim grants are the oldest queued jobs of the workspace, in order, under their next generation and until the deadline; it stops short only at the limit, at ten, or at the capacity; nothing else changes |
| `LeaseEffects.FirstStartBegins` | src/eastwatch/controller/store.py:617-717 | a start is accepted first exactly under a live, unused lease without a run; the job runs, its run is inserted with the references given, the conversation reads as working, and the start is to be delivered |
| `LeaseEffects.RepeatedStartIsHarmless` | src/eastwatch/controller/store.py:633-676 | a start is accepted again exactly with the references on record, or those with a session file where there was none, and only the references change |
| `LeaseEffects.HeartbeatExtendsLive` | src/eastwatch/controller/store.py:719-757 | a heartbeat extends the live leases it names until the new deadline, and returns the others |
| `LeaseEffects.CompletionIsStored` | src/eastwatch/controller/store.py:759-852 | a completion is accepted exactly while the job runs under a live lease; the job has succeeded without a failure if it was reported so and else failed with the error reported, its run has ended alike with the result and error reported, the conversation is finishing, and the outcome is to be delivered |
| `LeaseEffects.EarlyFailureIsStored` | src/eastwatch/controller/store.py:854-918 | a failure before the start is accepted exactly under a live, unused lease, and stored in the job |
| `LeaseEffects.ReaperSortsExpired` | src/eastwatch/controller/store.py:920-987 | an expired unused lease returns its job to the queue, an expired run fails with its job as runner-lost and is to be delivered, and nothing else changes |
| `LeaseEffects.OutcomeIsAsReported` | src/eastwatch/controller/store.py:551-987 | over any run a job has succeeded exactly if an accepted completion under its lease reported success, and has failed exactly if one reported failure, or it failed before its start, or its runner was lost; with the failure then reported |
| `LeaseInvariants.ClaimIsDetermined` | src/eastwatch/controller/store.py:551-615 | the ordered, limited query has one answer, so a claim is a function of its arguments |
| `Store.ControllerStore.MarkStarted` | src/eastwatch/controller/store.py:617-717 | acknowledges the first start of a leased generation, inserting its run and its outbox row; a repeat is idempotent and may only fill in the session file; any other start is refused and changes nothing |
| `Store.ControllerStore.Beat` | src/eastwatch/controller/store.py:719-757 | extends leases one by one and returns the stale ones, keeping the extensions |
| `LeaseInvariants.HeartbeatExtendsExactlyTheLive` | src/eastwatch/controller/store.py:719-757 | whatever the batch, with repeats or strangers in it, exactly its live leases are extended and exactly the others reported |
| `Store.ControllerStore.CompleteJob` | src/eastwatch/controller/store.py:759-852 | ends a running job under its live lease once, with its run, its conversation and its outbox row; a repeat is acknowledged without effect; a stale lease is refused |
| `Store.ControllerStore.FailUnstarted` | src/eastwatch/controller/store.py:854-918 | fails a leased job that never started, under its live lease, once |
| `Store.ControllerStore.ReapExpired` | src/eastwatch/controller/store.py:920-987 | returns expired leased jobs to the queue and fails expired running ones as runner-lost, whatever order they are read in |
| `StoreRuns.ReachableIsValid` | src/eastwatch/controller/store.py:551-987 | in every reachable database a lease deadline exists exactly for leased and running jobs, a running job has exactly one run, of its generation and running, capacity is kept, and a terminal job has exactly one terminal outbox row, of its last generation or runner-lost |
| `LeaseInvariants.ClaimKeepsValid` | src/eastwatch/controller/store.py:551-615 | a claim keeps that invariant, in particular the capacity |
| `LeaseInvariants.StartKeepsValid` | src/eastwatch/controller/store.py:617-717 | a start keeps it, in particular one run per job |
| `LeaseInvariants.CompleteKeepsValid` | src/eastwatch/controller/store.py:759-852 | a completion keeps it, in particular one terminal outbox row |
| `LeaseInvariants.ReapKeepsValid` | src/eastwatch/controller/store.py:920-987 | the reaper keeps it, for every order |
| `StoreRuns.JobsOnlyAdvance` | src/eastwatch/controller/store.py:551-987 | over any run a job's generation never falls, a started job is never handed out again, and a terminal job keeps its first outcome |
| `StoreRuns.FencedForever` | src/eastwatch/controller/store.py:678-685 | once a lease is dead, expired or superseded, and whether or not the reaper has noticed, no start, heartbeat, completion or early failure under it ever changes the job row again |
| `StoreRuns.DeadForever` | src/eastwatch/controller/store.py:719-790 | with a clock that does not go back, a dead lease stays dead |
| `Store.ControllerStore.RecordDispatchEvent` | src/eastwatch/controller/store.py:387-453 | creates the event's job, receipt and current pointer together, or reports the job the event already has, or refuses |
| `Store.ControllerStore.QueuePending` | src/eastwatch/controller/store.py:455-501 | queues an entry once per event key, behind those already queued |
| `Store.ControllerStore.ClearPending` | src/eastwatch/controller/store.py:520-536 | removes as many of the oldest entries as the drainer saw |
| `PendingQueue.PendingIsConserved` | src/eastwatch/controller/store.py:455-536 | over any interleaving of additions with a drainer's snapshot and clearing, what was drained followed by what is queued is exactly what was accepted, in order, each event once |
| `Store.ControllerStore.RecordEvent` | src/eastwatch/controller/store.py:245-272 | a receipt is written once per event |
| `EffectRuns.ReachableHasOneEffect` | src/eastwatch/controller/dispatch.py:281-449 | in every database reachable by transactions in any order an event has a job exactly if it was dispatched and a rejection exactly if it was rejected, never two of either, never both |
| `ReceiptRuns.EveryReceiptHasItsEffect` | src/eastwatch/controller/dispatch.py:281-449 | over any run of the system an event has a job exactly if receipted as dispatched, a rejection exactly if as rejected, and has been added to a queue exactly if as queued; never two jobs, two rejections or two additions, and no effect without a receipt |
| `ReceiptRuns.AddedWithReceipt` | src/eastwatch/controller/store.py:455-501 | an entry is added exactly by the step that receipts its event as queued, behind the entries of one conversation, and to no other |
| `Store.ControllerStore.ClaimOutbox` | src/eastwatch/controller/store.py:274-321 | frees expired deliveries, then leases the first due rows in id order under a new generation |
| `Store.DueIdsPassNone` | src/eastwatch/controller/store.py:295-309 | a due row is passed over only by a batch full of earlier ones |
| `Store.ControllerStore.MarkOutboxDelivered` | src/eastwatch/controller/store.py:323-340 | marks a row under the generation it was claimed with, or refuses |
| `Store.ControllerStore.MarkOutboxFailed` | src/eastwatch/controller/store.py:342-361 | returns a row to the queue under the generation it was claimed with, or refuses |
| `DeliveryEffects.ClaimTakesDue` | src/eastwatch/controller/store.py:274-321 | a claim takes rows that are due, in order, under their next generation and attempt, puts back those given up, and changes nothing else |
| `DeliveryEffects.ClaimTakesTheFirst` | src/eastwatch/controller/store.py:295-309 | it takes as many as were asked for, and passes over a due row only when that many before it were taken |
| `DeliveryEffects.RecordingNeedsCurrentJob` | src/eastwatch/controller/outbox.py:141-196 | an outcome is recorded exactly of a current job: its conversation reads so, and the merge requests named are on record as open for the run |
| `DeliveryEffects.LastObservationStands` | src/eastwatch/controller/retention.py:48-63 | every row of a merge request takes on what was last observed of it, and other rows stay |
| `EffectRuns.OutboxOnlyAdvances` | src/eastwatch/controller/store.py:274-361 | over any run an outbox row keeps its key, its generation never falls, and once delivered it never changes |
| `EffectRuns.OnlyTheNewestClaimMarks` | src/eastwatch/controller/store.py:323-361 | once a row has been claimed again or settled, marks under the earlier claim are refused for ever |
| `Store.ControllerStore.ClaimWorkspaceActions` | src/eastwatch/controller/store.py:989-1059 | hands out pending cleanups in order, within the limit, of finished jobs that are still current; the others stay pending and use up the limit |
| `Store.ControllerStore.FinishWorkspaceAction` | src/eastwatch/controller/store.py:1061-1214 | finishes a cleanup under its live lease once, and compacts the run's rows |
| `CleanupEffects.OldestAreHandedOut` | src/eastwatch/controller/store.py:989-1059 | what is handed out is what is still current of the oldest cleanups that wait, at most five and at most as many as were asked for |
| `CleanupEffects.HandedOutAreLeased` | src/eastwatch/controller/store.py:1019-1059 | each gets a lease of its next generation, its conversation reads as cleaning, and leases that ran out are put back |
| `CleanupEffects.CleanupIsFinished` | src/eastwatch/controller/store.py:1080-1214 | a cleanup is finished only under its live lease; a failure is recorded of action and conversation; a success empties the job's messages and the run's references, result and error and archives the conversation, once per run |
| `Dispatcher.HostedDispatcher.Dispatch` | src/eastwatch/controller/dispatch.py:346-456 | the decision and effects for one event, transaction by transaction |
| `Dispositions.OccupiedQueuesCommentsOnly` | src/eastwatch/controller/dispatch.py:373-411 | while a run of the conversation is on, or its outcome or cleanup is being seen to, in the same workspace, a comment becomes the last entry of the queue with a receipt, and a label is turned down without a failure label; jobs stay as they are |
| `Dispositions.OccupiedElsewhereTurnsDown` | src/eastwatch/controller/dispatch.py:379-388 | while it is so in another workspace, every event is turned down without a failure label |
| `Dispositions.EarlyVerdictTurnsDown` | src/eastwatch/controller/dispatch.py:351-372 | a workspace that may not be used turns an event down, with a failure label, before anything else is looked at |
| `Dispositions.LateVerdictTurnsDown` | src/eastwatch/controller/dispatch.py:412-420 | an unapproved model turns an event down, with a failure label, where no run is on |
| `Dispositions.FailedCleanupTurnsDown` | src/eastwatch/controller/dispatch.py:233-244 | a conversation whose cleanup failed takes no job |
| `Dispositions.FreeConversationTakesJob` | src/eastwatch/controller/dispatch.py:421-449 | otherwise the event gets its queued job, current in its conversation, exactly if the workspace is enabled and its owner's and the id is new |
| `Dispositions.DealtWithIsLeftAlone` | src/eastwatch/controller/dispatch.py:346-350 | an event with a job or a receipt changes nothing |
| `Dispositions.OnlyCommentsEverWait` | src/eastwatch/controller/dispatch.py:389-400 | over any run of the system only comments are queued or receipted as queued |
| `Dispatcher.HostedDispatcher.Reject` | src/eastwatch/controller/dispatch.py:112-163 | a receipt and one rejection to deliver, once per event |
| `Dispatcher.HostedDispatcher.ConsumedEvent` | src/eastwatch/controller/dispatch.py:281-299 | an event is consumed exactly if it has a job or a receipt |
| `Dispatcher.HostedDispatcher.UpsertConversation` | src/eastwatch/controller/dispatch.py:222-269 | places the conversation unless it is settling |
| `Dispatcher.HostedDispatcher.ActiveRun` | src/eastwatch/controller/dispatch.py:186-196 | the conversation's workspace, status and current job state |
| `Dispatcher.HostedDispatcher.RecordSkippedEvent` | src/eastwatch/controller/dispatch.py:304-344 | a receipt alone |
| `Dispatcher.DispatchSettlesEvent` | src/eastwatch/controller/dispatch.py:346-456 | a dispatch to an eligible workspace always consumes its event, and is accepted exactly if it created the event's one job |
| `Dispatcher.DispatchTwiceIsOnce` | src/eastwatch/controller/dispatch.py:348-350 | dispatching the same event again changes nothing |
| `Dispatcher.DispatchIsPollerRun` | src/eastwatch/controller/dispatch.py:346-456 | the method's effect is that of the poller's steps in the interleaved system with nobody in between |
| `HostedRuns.AtMostOneActiveJob` | src/eastwatch/controller/dispatch.py:346-449 | although dispatch reads, places and inserts in separate transactions, at every instant of every run a conversation has at most one unfinished job, and it is the current one |
| `OneActiveJob.SysKeepsCurrent` | src/eastwatch/controller/dispatch.py:373-449 | every step of every component keeps the current pointer sound and what the poller has read true until it inserts |
| `HostedRuns.SuccessorFollowsDeliveredOutcome` | src/eastwatch/controller/dispatch.py:373-400 | as long as no cleanup has succeeded over a finished and unrecorded job, when a job is created the previous job of its conversation has finished, its outcome is recorded and its note is posted |
| `DeliveredFirst.FinishKeepsOwedExactlyUnlessItOverwrites` | src/eastwatch/controller/store.py:1126-1205 | finishing a cleanup keeps every conversation that owes a delivery closed to successors if and only if it does not succeed in one of them |
| `Successors.CleanupOpensExactlyWhenItOverwrites` | src/eastwatch/controller/store.py:1126-1205 | in any run, a cleanup that finishes before any has done harm lets the poller alone create a successor of an unrecorded job if and only if it succeeds while the current job of its conversation has finished and is unrecorded |
| `Successors.OpenIsOvertaken` | src/eastwatch/controller/dispatch.py:222-269 | in such a conversation every fresh request to an enabled workspace that no verdict turns down can be placed and given its job ahead of the outcome |
| `Successors.SupersededOutcomeIsNeverPosted` | src/eastwatch/controller/outbox.py:250-296 | once a job is superseded unrecorded and not being posted, its outcome is never recorded and no note of it is posted, over any continuation of the run |
| `Overwriting.SuccessorCanOvertakeOutcome` | src/eastwatch/controller/store.py:1198-1205 | a run from an empty database in which a third job follows a second whose outcome is neither posted nor recorded |
| `Publishers.HostedOutbox.FindMarker` | src/eastwatch/controller/outbox.py:60-82 | finds the marker by reading pages newest first, reports it absent only when it has seen every note, and gives up only at a failed request or at two thousand notes |
| `Publishers.HostedOutbox.EnsureNote` | src/eastwatch/controller/outbox.py:60-103 | posts only when the marker is absent; whatever fails, the calls made are steps of the publisher |
| `Publishers.HostedOutbox.RecordTerminal` | src/eastwatch/controller/outbox.py:141-196 | records the outcome and its merge requests if the job is still current, and refuses otherwise |
| `Publishers.HostedOutbox.DeliverJob` | src/eastwatch/controller/outbox.py:198-296 | note, then label, then record, stopping at the first failure; the outcome recorded and labelled is failed exactly if the job has no reply or its merge requests do not pass, else parked exactly if the reply parks; a job that is not current is left alone |
| `Publishers.HostedOutbox.Judge` | src/eastwatch/controller/outbox.py:198-280 | what the reply, the merge requests it names and their validation come to |
| `Conclusions.RecordedOutcomesAreTrue` | src/eastwatch/controller/outbox.py:250-296 | over any run of the system a conversation recorded as parked or concluded has a current job that succeeded, one recorded as failed has a finished one, and every merge request on record is of an implementation job that succeeded |
| `Publishers.HostedOutbox.DeliverStarted` | src/eastwatch/controller/outbox.py:298-316 | a progress label exactly for a current job that is leased or running |
| `Publishers.HostedOutbox.DeliverRejection` | src/eastwatch/controller/outbox.py:318-364 | a note on the issue, and a failure label if the rejection asks for one, exactly unless the conversation has an unfinished job or one newer than the rejection |
| `Publishers.HostedOutbox.Process` | src/eastwatch/controller/outbox.py:380-393 | a delivered item is marked so, one that failed is due again after its delay |
| `Publishers.DelayDoubles` | src/eastwatch/controller/outbox.py:385-386 | the delay doubles from one second up to 256 |
| `Publishers.HostedOutbox.RunOnce` | src/eastwatch/controller/outbox.py:377-394 | a whole pass, with calls failing before or after taking effect, is a run of the publisher's steps |
| `HostedRuns.AtMostOneNotePerItem` | src/eastwatch/controller/outbox.py:60-103 | over any run of claims, crashes, failed posts and retries at most one note carries an item's marker |
| `NotesOnce.LookUpIsComplete` | src/eastwatch/controller/outbox.py:66-82 | looking only where the note would go finds the marker if it is anywhere |
| `HostedRuns.ProgressNeverFollowsFinal` | src/eastwatch/controller/outbox.py:298-316 | whatever the retry order, no progress label of a job is written after its final label |
| `HostedRuns.ReachableIsGood` | src/eastwatch/controller/main.py:45-74 | one invariant of the whole system, kept by every step of poller, publisher, runners, reaper and retention |
| `HostedRuns.ReachableIsPaid` | src/eastwatch/controller/dispatch.py:373-411 | as long as no cleanup has succeeded over a finished and unrecorded job, every conversation whose current job is that is closed to successors, and the poller has placed none of them |
| `RetentionManagers.RetentionManager.ScheduleDue` | src/eastwatch/controller/retention.py:65-136 | a step of the system: records an eligibility date for every settled run whose merge requests are all merged, inserts the due cleanups that do not exist, and counts them |
| `RetentionManagers.RetentionManager.NewestMergeOf` | src/eastwatch/controller/retention.py:95-97 | the latest merge time |
| `RetentionManagers.RetentionManager.RefreshMergeRequests` | src/eastwatch/controller/retention.py:26-63 | a step of the system: the observed state goes to every row of that merge request |
| `RetentionRuns.AppearsOnlyWhenDue` | src/eastwatch/controller/retention.py:84-102 | a cleanup appears only when its run has a merge request, all are merged, and the newest was merged at least seven days before |
| `CleanupEffects.CleanupAppearsExactly` | src/eastwatch/controller/retention.py:65-136 | a cleanup appears exactly when the pass finds an implementation run that succeeded and is recorded as its conversation's latest outcome, with merge requests that are all merged, the last of them a week ago or longer, and no cleanup yet |
| `CleanupEffects.SchedulingIsExact` | src/eastwatch/controller/retention.py:65-136 | what a pass leaves of each run's eligibility date and cleanup, the date being a week after its last merge |
| `RetentionRuns.ScheduledAtMostOnce` | src/eastwatch/controller/retention.py:119-135 | over any run of the store a cleanup is scheduled at most once |
| `RetentionRuns.HandedOutOnlyWhileCurrent` | src/eastwatch/controller/store.py:1019-1049 | a cleanup is handed out only while its job has finished and is current |
| `RetentionRuns.CompactedUnderNewestLease` | src/eastwatch/controller/store.py:1080-1125 | a run is compacted only by the holder of its newest, unexpired cleanup lease |
| `RetentionRuns.CompactedAtMostOnce` | src/eastwatch/controller/store.py:1137-1160 | over any run of the store a run is compacted at most once |
| `RetentionRuns.OnlyTheNewestLeaseFinishes` | src/eastwatch/controller/store.py:1080-1101 | once a cleanup has been handed out again, finishing it under an earlier lease is refused for ever |
| `Comments.NoCommentIsPassedUnhandled` | src/eastwatch/watcher.py:2429-2711 | over any halts, errors, deaths and interleavings, every comment with a command between the cursor at the start and the cursor now was consumed, or was new in a poll made while comments were no trigger of the project; a plain reply may also have been ignored on purpose |
| `Comments.OnlyPlainIsPassedQuietly` | src/eastwatch/watcher.py:2436-2492 | only plain replies are passed without a receipt |
| `Comments.DispatchConsumes` | src/eastwatch/controller/dispatch.py:346-456 | a dispatch that returns has consumed its event, whatever ran in between |
| `Comments.HaltKeepsTracked` | src/eastwatch/watcher.py:2682-2711 | a halt stores the event before the one that failed, behind which everything is handled |
| `CommentPollers.CommentPoller.Pass` | src/eastwatch/watcher.py:2429-2711 | one pass is a run of the moves of the cursor's theorem; the cursor ends at the newest comment or just before one that failed, everything up to it is consumed or was a plain reply, a comment that fails young is not passed, and an exception leaves the cursor alone |
| `CommentPollers.CommentPoller.Handle` | src/eastwatch/watcher.py:2432-2705 | one comment: left alone if dealt with, passed over if plain and there is nothing to do, skipped with a receipt, dispatched, or, failing, given up from a quarter of an hour on and until then halting the pass |
| `Launch.AtMostOneWorkerPerJob` | src/eastwatch/runner/executor.py:356-400 | under any interleaving of claims, lost or repeated start requests, lost replies, expiry, requeue and runner restarts, a job has at most one launched worker, and a job with one is running or finished |
| `Launch.AtMostOneRunAcknowledged` | src/eastwatch/controller/store.py:617-717 | the controller acknowledges the start of at most one run id for a job, ever |
| `Launch.AcceptedOwns` | src/eastwatch/controller/store.py:617-717 | an acknowledged start means the run row is this run's |
| `Executors.WorkspaceExecutor.Execute` | src/eastwatch/runner/executor.py:298-491 | the worker is launched exactly if the execution is not cancelled, the run can be prepared, its start is acknowledged and tmux takes it; one start request and at most one upgrade are sent; everything it does is a run of the launch protocol |
| `Executors.WorkspaceExecutor.AskStarted` | src/eastwatch/runner/client.py:30-84 | a request is tried up to four times, not after a refusal; an acknowledgement means it was applied |
| `Executors.WorkspaceExecutor.UploadTerminal` | src/eastwatch/runner/executor.py:250-275 | a terminal report is settled only by the controller's answer, after which the controller does not have the job running under this lease |
| `Executors.WorkspaceExecutor.Watch` | src/eastwatch/runner/executor.py:401-491 | the polling loop: at most one more request is sent, for a session file found in a run started without one |
| `Daemons.RunnerDaemon.HeartbeatTargets` | src/eastwatch/runner/daemon.py:46-52 | exactly the executions that have not returned and are not stale |
| `Daemons.RunnerDaemon.CollectFinished` | src/eastwatch/runner/daemon.py:68-81 | forgets what has returned, and its staleness |
| `Daemons.RunnerDaemon.Submit` | src/eastwatch/runner/daemon.py:83-90 | a lease being executed is not executed again |
| `Daemons.RunnerDaemon.Refuse` | src/eastwatch/runner/daemon.py:59-64 | a refused lease is stale and its execution is told to stop |
| `Daemons.RunnerDaemon.Turn` | src/eastwatch/runner/daemon.py:92-111 | a turn of the claiming loop collects what has returned and submits what was granted, and no more; it stops nothing, and keeps within capacity if no more is granted than was asked for |
| `Daemons.RefusedIsNeverBeaten` | src/eastwatch/runner/daemon.py:46-81 | once refused, a lease is never heartbeated again and its execution stays told to stop, however the loops interleave |
| `Daemons.LiveIsBeaten` | src/eastwatch/runner/daemon.py:46-81 | a live lease stays among the heartbeats until it is refused or its execution returns |
| `Daemons.ExecutingIsNotRestarted` | src/eastwatch/runner/daemon.py:83-90 | a lease that is being executed keeps its execution, told to stop or not, whatever is submitted meanwhile |
| `PiCollector.PiStreamCollector.FeedLines` | src/eastwatch/collector.py:191-218 | consumes a chunk segment by segment, with the effect of scanning it byte by byte |
| `PiCollector.FindNewline` | src/eastwatch/collector.py:195-203 | the first newline at or after an offset |
| `PiCollector.PiStreamCollector.TakeSegment` | src/eastwatch/collector.py:202-215 | extends, completes or rejects the line being read |
| `PiCollector.PiStreamCollector.ConsumeLine` | src/eastwatch/collector.py:220-231 | a line is blank, malformed or an event |
| `PiCollector.PiStreamCollector.ConsumeEvent` | src/eastwatch/collector.py:399-464 | what an event does to the reply, the flags, the guard and the journal |
| `ExitGuard.OutcomeIsThatOfDecidingMessage` | src/eastwatch/collector.py:327-464 | the outcome is a failure exactly if the message that decided last has an error, and a success exactly if it has none and stopped: the last message of the assistant to end or to be listed by a final end, unless a start, a retry or activity after an end has cleared it |
| `ExitGuard.FinalListDecides` | src/eastwatch/collector.py:441-452 | where nothing has stirred since the agent ended for good, the last message of the assistant it listed decides |
| `ExitGuard.AttemptEndsAsDecided` | src/eastwatch/collector.py:399-464 | the same over an attempt, however its output is cut and interleaved with the other stream |
| `ExitGuard.EventIsJournalled` | src/eastwatch/collector.py:430-464 | what is journalled of an event: the first tool, an end with the outcome there is, a settling with the outcome the guard is armed with |
| `PiCollector.PiStreamCollector.Report` | src/eastwatch/collector.py:238-243 | when a diagnostic is journalled |
| `PiCollector.PiStreamCollector.ProbeAuth` | src/eastwatch/collector.py:384-394 | looks for the marker across the boundary of chunks |
| `PiCollector.PiStreamCollector.Feed` | src/eastwatch/collector.py:376-378 | stdout: probe, tail, lines |
| `PiCollector.PiStreamCollector.FeedStderr` | src/eastwatch/collector.py:380-382 | stderr: probe and tail |
| `PiCollector.PiStreamCollector.FinishStdout` | src/eastwatch/collector.py:251-255 | consumes an unterminated last line |
| `PiCollector.PiStreamCollector.StartAttempt` | src/eastwatch/collector.py:348-366 | forgets what belonged to the previous attempt, and only that |
| `PiCollector.PiStreamCollector.Close` | src/eastwatch/collector.py:275-282 | reports the final counts |
| `PiCollector.PiStreamCollector.ExtractReply` | src/eastwatch/collector.py:466-481 | the reply, from what is kept |
| `Framing.ScanIsSplit` | src/eastwatch/collector.py:191-218 | the completed items and the frame are those of splitting the whole stream at newlines and judging each piece by the limit |
| `Framing.ScanFits` | src/eastwatch/collector.py:205-212 | the line buffer never exceeds the limit |
| `Framing.ChunkingIsIrrelevant` | src/eastwatch/collector.py:191-218 | only the concatenation of the chunks matters |
| `Bytes.SplitDivides` | src/eastwatch/collector.py:191-218 | splitting divides a stream into newline-free pieces that join back to it |
| `Bytes.SplitIsUnique` | src/eastwatch/collector.py:191-218 | and is the only such division |
| `ByteTails.ByteTail.Append` | src/eastwatch/collector.py:66-77 | appends in place within the capacity |
| `ByteTails.TailIsLastOfStream` | src/eastwatch/collector.py:60-80 | the tail is the last min(capacity, n) bytes of the stream, and is marked truncated exactly if bytes were dropped or one chunk had at least the capacity |
| `ByteTails.ExactFitIsReportedTruncated` | src/eastwatch/collector.py:69-72 | a stream that fits exactly in one chunk is marked truncated with nothing lost |
| `CollectorRuns.AttemptDependsOnBytes` | src/eastwatch/collector.py:178-255 | for every chunking and interleaving of the two streams, the state at the end of an attempt is that of judging each line of stdout once, the unterminated last one included, and the auth flag is exact |
| `CollectorRuns.SameBytesSameAttempt` | src/eastwatch/collector.py:178-255 | the same bytes give the same view, auth flag and reply |
| `CollectorRuns.AuthFlagIsExact` | src/eastwatch/collector.py:384-394 | the flag is set exactly if the marker occurs in the whole stdout or the whole stderr of the attempt |
| `CollectorRuns.TailsAreLast` | src/eastwatch/collector.py:178-189 | both process tails are the last bytes of their streams |
| `CollectorRuns.ReplayIsSafe` | src/eastwatch/watcher.py:4740-4789 | the original prompt is sent to the fallback provider exactly if the attempt failed, time is left, the session is unchanged, and every stdout line was within the limit and blank or a well-formed event that is no tool start |
| `CollectorRuns.PlanIsExact` | src/eastwatch/watcher.py:4740-4792 | what follows an attempt, case by case, said of its exit, its session, the time left and the bytes of its stdout |
| `Collector.FlagsAreExact` | src/eastwatch/collector.py:396-441 | the replay flags stay clear exactly if every item is harmless |
| `Collector.GuardIsArmedExactly` | src/eastwatch/collector.py:399-464 | the exit guard is armed exactly if the agent settled after ending for good and nothing has stirred since it ended |
| `Collector.DiagnosticsAreBounded` | src/eastwatch/collector.py:233-282 | each kind of bad line is journalled at most twice: the first when it happens, the final count on closing |
| `CollectorRuns.ReplyIsChosen` | src/eastwatch/collector.py:414-481 | for every chunking, the reply is the choice over the full list of the attempt's messages: the first longest earlier body when the last is thin, else the last |
| `Replies.ReplyIsFullListChoice` | src/eastwatch/collector.py:414-481 | keeping the last message and the best earlier one is enough to make that choice |
| `Replies.ThinTailGivesWay` | src/eastwatch/collector.py:466-481 | a last message of at most two hundred characters gives way to a longer earlier one at least three times as long, with its status line or else its own |
| `GithubPoller.ProjectState.PollGithubStatus` | src/eastwatch/watcher.py:1227-1321 | compares every item with its record, queues the transitions that dispatch, and records what it saw |
| `GithubPoller.ProjectState.PruneRecovery` | src/eastwatch/watcher.py:1451-1506 | moves the record of a missing item to its new id with its restored Status and no generation, or forgets a closed one |
| `GithubPoller.Cycle` | src/eastwatch/watcher.py:6487-6526 | a tick is fetched and committed on a copy that replaces the state only if it is saved |
| `GithubBoard.WorkIsExactlyTheTransitions` | src/eastwatch/watcher.py:1227-1350 | the work a committed tick adds is exactly one piece for each observed transition from a dispatch-from Status into an enabled dispatch-into Status, as told by the committed ticks and by the items listed before; where an item listed again fires under the same generation, the last one counts; an aborted tick adds none and changes nothing |
| `GithubBoard.TransitionsIntoReady` | src/eastwatch/watcher.py:1227-1321 | such a transition is into Ready or Ready-research with its trigger enabled, from Triage, Needs-info, Failed or none, under a generation not seen last, after the first committed tick |
| `GithubBoard.RecordsAreSightings` | src/eastwatch/watcher.py:1244-1320 | a record is how its item was last seen, or restored, in the committed ticks |
| `GithubBoard.RecoveredItemNeverFires` | src/eastwatch/watcher.py:1451-1506 | an item re-added by a committed tick, and listed at its restored Status by the next committed tick, makes no dispatching transition there |
| `DispatchOutbox.Outbox.DispatchFires` | src/eastwatch/watcher.py:1324-1334 | every queued command, once |
| `DispatchOutbox.Outbox.MarkDispatched` | src/eastwatch/watcher.py:1337-1350 | marks commands consumed and forgets all but the newest 200 consumed ones, never a queued one |
| `DispatchOutbox.CommitSettles` | src/eastwatch/watcher.py:6509-6526 | a committed tick leaves nothing queued |
| `VaultPoller.ProjectState.PollVaultStatus` | src/eastwatch/watcher.py:1619-1711 | the same for notes, deferring the blocked ones |
| `VaultPoller.FirstBlocker` | src/eastwatch/watcher.py:1593-1601 | the first blocker that names an unfinished task |
| `VaultPoller.TaskIndex` | src/eastwatch/watcher.py:1581-1590 | every name of a note leads to its status, later notes taking over |
| `VaultBoard.LastNoteTakesName` | src/eastwatch/watcher.py:1581-1590 | a name leads to the status of the last note that goes by it, its path with or without `.md`, what then follows the last slash, or its title, and no other name leads anywhere |
| `VaultBoard.BlockingIsUnfinished` | src/eastwatch/watcher.py:1593-1601 | a note is blocked exactly if one of its targets leads to a status other than done and archived |
| `VaultPoller.Cycle` | src/eastwatch/watcher.py:6487-6526 | the atomic commit of a tick |
| `VaultStretches.WorkIsExactlyTheDispatches` | src/eastwatch/watcher.py:1619-1711 | the work a committed tick adds is one piece for each note whose sighting is the first ready one of a stretch of `agent` sightings that began enabled, and no other |
| `VaultStretches.OncePerStretch` | src/eastwatch/watcher.py:1619-1711 | such a stretch is dispatched exactly once if the note is ready at some sighting of it, and never otherwise |
| `VaultStretches.AdoptionStretchNeverFires` | src/eastwatch/watcher.py:1661-1671 | a note that has been `agent` since it was first seen is never dispatched |
| `VaultStretches.DispatchIsLocal` | src/eastwatch/watcher.py:1672-1710 | later sightings change nothing about an earlier one |
| `FleetLogs.FleetLog.FeedChunk` | src/eastwatch/fleet/core.py:495-503 | appends a chunk part by part and trims |
| `FleetLogs.FleetLog.ChangeLimits` | src/eastwatch/fleet/core.py:394-402 | new limits trim at once |
| `FleetLogs.FleetLog.Trim` | src/eastwatch/fleet/core.py:510-520 | drops the oldest lines and cuts the unfinished one |
| `FleetLogs.LogIsBoundedSuffix` | src/eastwatch/fleet/core.py:495-520 | after any chunks and changes of limits the counter is the length of the kept lines, the limit of lines and any positive limit of characters hold, and the kept text is a suffix of all that was fed |
| `FleetLogs.CharsAreLimitedExactly` | src/eastwatch/fleet/core.py:510-520 | trimming gets within a limit of characters exactly if the limit is positive, or is zero with the unfinished line empty |
| `FleetLogs.DropsNoMoreThanNeeded` | src/eastwatch/fleet/core.py:510-518 | the newest lines are kept, and a line is dropped only if keeping it, and all after it, would exceed a limit |
| `FleetLogs.FeedKeepsWhatFits` | src/eastwatch/fleet/core.py:495-520 | what is on the log after a chunk are the last lines of all that was on it and the chunk, as many as fit, and of the unfinished line as much as a limit allows |
| `FuzzyMatch.FuzzyMatchRank` | src/eastwatch/fleet/core.py:213-231 | whatever folding and stripping do, there is no rank exactly if the query so treated is no subsequence of the value; the span ranked is that of the placement leftmost in every position |
| `VaultNote.NoteFile.AppendResultSection` | src/eastwatch/vault.py:292-314 | replaces the first section under the heading up to the end, or adds one; the note then holds the result under its first heading line; returns the note's path with an id made from the digest of the body as given |
| `VaultNote.ResultIsReadBack` | src/eastwatch/vault.py:299-308 | after the first heading line of the written note come an empty line, the body and a line end, up to the end of the note |
| `VaultNote.DifferentResultsDiffer` | src/eastwatch/vault.py:299-308 | a note holds one result: different stripped bodies make different notes |
| `VaultNote.NewSectionComesLast` | src/eastwatch/vault.py:304-308 | without the heading the section comes last, after an empty line |
| `VaultNote.LastWriterWins` | src/eastwatch/vault.py:292-309 | for every note and bodies, writing b1 and then b2 equals writing b2, even if a body contains the heading |
| `VaultNote.PrefixIsUntouched` | src/eastwatch/vault.py:303-308 | nothing before the section is changed |

## Left out

- The columns `last_seen_at`, `updated_at` and `observed_at`, the session references copied on recording an outcome, and the `projects` table with its unknown-project errors: bookkeeping that no property here reads.
- `enqueue_job`: an entry point of the tests.
- Tokens, HTTP routes, long polling, SQLite, JSON: transactions are serialised and payloads lossless. A runner acts only for its own workspace.
- Who may dispatch to which workspace and which model spec is approved: two verdicts handed to `Dispatch` (`early`, `late`). The text of a rejection for a settling conversation does not name its status.
- Requests to the forge that outlive the publisher that made them, and deletion of notes: a post is applied before the publisher's next step, and a note stays.
- Completion bodies, the parsing of replies and of merge requests, and the names of labels: whether a reply parks, which merge requests it names and whether one of them is invalid are handed to the publisher, and a final label is told apart by the outcome it stands for.
- The executor's preparation of a worktree, tmux, artifacts and prompts: choices of the environment. Its endless retry of a terminal report and its endless polling end after a given number of turns, when the process is taken to die.
- Draining queued comments, apart from conservation in the store: a controller that dies between dispatching a drained batch and clearing it repeats its messages, and a drained batch that is queued again is repeated with them.
- What looking a comment up on the forge leads to (nothing, a request, a failure of some age): handed to the pass of the comment loop.
- Rendering of provider events for the trace log: it takes chunks.
- Bootstrapping of labels in the hosted poller beyond the receipt it writes.
- JSON parsing, text decoding, `str.strip` and the pattern of a status line in the collector: uninterpreted functions. Events of an unexpected shape that make a handler raise. The instant of the exit deadline: only whether it is set. Exit, timeout and attempt facts of the journal, raw capture, and the Claude collector.
- Shadow labels and issue text on the GitHub board; `assemble` beyond turning each fired command into one piece of work. The outbox keys are tuples, not strings joined by bars; commands fire in some order, not in the order of those strings.
- Vault listings that show a note twice in one tick: a note's id is the digest of its path (`src/eastwatch/vault.py:138-145`), so the vault theorems take each note once.
- `PaneWriter`, `follow_log_file` and `follow_command_output`: line framing again, with easier limits.
- `set_status`, `write_frontmatter_field` and `_edit_frontmatter`: substitutions by a pattern that also matches indented lines.
