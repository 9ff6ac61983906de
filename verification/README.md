# A model of the annotation runtime, its web control and its event timeline

The repository drives robot-navigation annotation: it prepares staging trees, runs Tracking and
postprocessing, publishes finished clips, streams agent events to a browser and controls a web
service process. This project models the parts of it where a mistake would be hardest to see and
proves, for all inputs and all runs, what those parts are for.

- **Publication** (`Publication`, `Publisher`). A date directory and a set of journals are durable; a
  run may stop between, or in the middle of, any two writes. `Publication` describes the phases a run
  passes through and what each guarantees; `Publisher` is the imperative run itself, against a
  directory object that can fail at any write and keeps the history of every state it held.
- **Trees** (`Paths`, `Trees`, `PreparedStaging`). The recursive fingerprint, copier and size count
  over trees of any depth, and the exclusion rule by which a prepare-time hash is found again while
  Tracking adds files. SHA-256 is taken to be collision-free: a digest is the digested value.
- **Tracking ledger** (`TrackingLedger`). Outputs, durable checkpoints, the closure-pending flag, and
  the routing of failures to retryable, cancelled or recovery ends.
- **Cancellation and signalling** (`Cancellation`, `RuntimeDriver`, `InstanceSignal`). Each lock
  section or system call is one atomic step; any number of threads and processes interleave.
- **Event timeline** (`RawEvents`, `EventReducer`, `ReplyRefinement`, `ProgressItems`, `ProgressText`,
  `ItemIdentity`, `Replay`, `Stamping`, `TimelineStore`). The reducer as functions and as in-place code,
  its refinement of a small machine per reply, what progress items show, the replay layer, whose laws
  are stated for any way of applying one event, and the proof that the reducer's laws hold of the
  mutable store, which stamps and skips events in between.
- **Images** (`ImageHeader`, `GridmapPng`). The PNG and JPEG header reader (sections B.1.1.2, B.1.1.4
  and B.2.2 of ITU-T T.81) and the PNG renderer (sections 3.2, 4.1.1 and 6 of RFC 2083), with a chunk
  decoder as its partner.
- **Handoff triggers** (`HandoffTriggers`). The SQLite triggers that pin workflow handoffs.

Code that changes things step by step is a class or a method with loops, tied by its `ensures` to a
function, and the laws are lemmas about that function or about runs of it. `Common` holds shared types.

## Findings

Four places where the code does not do what one would expect of it, each described exactly:

- A run whose writer lock fails to release after an output was moved, while a cancellation is requested,
  ends as cancelled with that output unrecorded: the lock error replaces the failure in flight and is
  neither pending nor `recovery_required` (`LeakWitness`; `ReleasableIsRecordedExceptLeaks` shows that
  this is the only way, and that a retryable end never hides an output).
- An answer event that names no reply rewrites the last assistant item of its turn even if that item
  belongs to a named reply (`HijackWitness`; `RefinementIsExact` shows that the per-reply machine is
  followed throughout exactly when this never happens).
- `_tree_size_regular` also counts ordinary files below a "._" directory, which the copier skips: the
  count is the copied bytes plus exactly those (`CountCoversCopy`; `CountOvershoots` gives an input).
- The rule that excludes a target's files never matches when the target's segment is the staging root
  itself, because its paths then start with "./" while listed paths do not: Tracking's own output then
  makes the check fail (`RootTargetBreaksTheHash`, `RootTargetWitness`; `OwnFilesOwnedExactlyBelowRoot`
  shows that this happens for no other target).

## Model

| member | source | states |
|---|---|---|
| Paths.JoinPrefix | src/vla_data_juicer_agents/annotation/runtime.py:1406-1413 | On slash-joined paths, "equal to the prefix or starting with the prefix and a slash" is exactly being below it component by component, and joining is injective |
| Trees.FingerprintDirectory | src/vla_data_juicer_agents/annotation/runtime.py:1416-1555 | The recursive walk returns the pre-order lines of the tree without excluded paths, or refuses a tree with a reachable symlink or special entry |
| Trees.FingerprintChild | src/vla_data_juicer_agents/annotation/runtime.py:1430-1544 | One entry contributes its own line, unless excluded, and then everything below it, even below an excluded directory |
| Trees.TreeFingerprint | src/vla_data_juicer_agents/annotation/runtime.py:1062-1095 | The tree hash of any node equals the specification fingerprint, including its refusals |
| Trees.ListIn | src/vla_data_juicer_agents/annotation/runtime.py:1424-1478 | A line is listed exactly when it states what is found at its path through visible names |
| Trees.ListSorted | src/vla_data_juicer_agents/annotation/runtime.py:1424-1478 | The pre-order walk over sorted names lists paths in strict component-wise lexicographic order, hence each once |
| Trees.SafeExactly | src/vla_data_juicer_agents/annotation/runtime.py:1437-1444 | A tree is refused if and only if some path through visible names leads to a symlink or special entry |
| Trees.ExclusionIsFilter | src/vla_data_juicer_agents/annotation/runtime.py:1400-1544 | Fingerprinting with exclusions is the full fingerprint filtered by path afterwards |
| Trees.FoundAgain | src/vla_data_juicer_agents/annotation/runtime.py:1062-1095 | For a tree none of whose paths is excluded, its full hash equals another tree's excluding hash if and only if that tree is safe and agrees at every path that is not excluded |
| Trees.FingerprintDeterminesTree | src/vla_data_juicer_agents/annotation/runtime.py:1416-1555 | Two safe trees of any depth have one fingerprint if and only if they are equal once "._" names are removed |
| Trees.CopyDirectory | src/vla_data_juicer_agents/annotation/runtime.py:1647-1743 | The copy is the source without "._" names, or a refusal exactly on unsafe trees; a completed copy wrote exactly the bytes of the visible files and a failed one no more |
| Trees.CopyChild | src/vla_data_juicer_agents/annotation/runtime.py:1657-1733 | The same for one entry of whatever kind |
| Trees.CopyKeepsFingerprint | src/vla_data_juicer_agents/annotation/runtime.py:1786-1798 | A copy has the fingerprint of its source, so the copier's final comparison succeeds on an unchanged source |
| Trees.CountTree | src/vla_data_juicer_agents/annotation/runtime.py:1801-1827 | The size count equals its specification and refuses exactly trees with a symlink or special entry under an ordinary name |
| Trees.CountableExactly | src/vla_data_juicer_agents/annotation/runtime.py:1808-1826 | The count refuses a directory if and only if anywhere in it, hidden directories included, a symlink or special entry has an ordinary name |
| Trees.CountCoversCopy | src/vla_data_juicer_agents/annotation/runtime.py:1801-1827 | Conservation: a countable tree can be copied, and the count is exactly the bytes the copy writes plus the bytes below "._" directories |
| Trees.CountOvershoots | src/vla_data_juicer_agents/annotation/runtime.py:1808-1821 | A file below a "._" directory is counted in full and never copied |
| PreparedStaging.CheckTarget | src/vla_data_juicer_agents/annotation/runtime.py:686-725 | The refusal code of one target: unsafe path, malformed identity, name or hash, or an identity seen before in the same segment |
| PreparedStaging.SplitExactly | src/vla_data_juicer_agents/annotation/runtime.py:71-73 | Identities are split exactly at their underscores, both ways, before their four parts are matched |
| PreparedStaging.CollectExclusions | src/vla_data_juicer_agents/annotation/runtime.py:683-735 | Succeeds exactly on a non-empty list of acceptable, pairwise different targets and otherwise reports the first refused one |
| PreparedStaging.AcceptedExactly | src/vla_data_juicer_agents/annotation/runtime.py:686-726 | A target list is accepted if and only if it is not empty, each target is well formed in a real directory, and no segment has an identity twice |
| PreparedStaging.PreparedStagingFingerprint | src/vla_data_juicer_agents/annotation/runtime.py:655-742 | The staging hash under the exclusions of the target set; otherwise the code for an unsafe root, for no targets, or of the first refused target |
| PreparedStaging.ExcludedIsOwned | src/vla_data_juicer_agents/annotation/runtime.py:726-734 | The collected strings exclude exactly `.runtime/runs` and each target's YAML file, points file and tracking-image directory, with all below these |
| PreparedStaging.PreparedHashFoundAgain | src/vla_data_juicer_agents/annotation/runtime.py:3978-3996 | The unexcluded prepare-time hash is found again if and only if the tree is safe and nothing but owned paths changed |
| PreparedStaging.PreparedHashThroughRun | src/vla_data_juicer_agents/annotation/runtime.py:3978-3996 | Over a whole run of changes that each touch only owned paths, the check passes before every target |
| PreparedStaging.RebuiltTargetsExcludeTheSame | src/vla_data_juicer_agents/annotation/postprocessing_runtime.py:790-805 | Targets rebuilt in any order and with any YAML hash exclude the same paths as the original ones |
| PreparedStaging.PreparedHashAtPostprocessing | src/vla_data_juicer_agents/annotation/postprocessing_runtime.py:806-817 | The check made with the rebuilt targets finds the prepare-time hash again if and only if the tree is safe and nothing changed but what the original targets own |
| PreparedStaging.OwnFilesOwnedExactlyBelowRoot | src/vla_data_juicer_agents/annotation/runtime.py:726-735 | What a target writes is excluded if and only if its segment is not the staging root itself |
| PreparedStaging.RootTargetBreaksTheHash | src/vla_data_juicer_agents/annotation/runtime.py:726-742 | With a target at the staging root among accepted ones, any change to its own YAML file makes the check fail |
| PreparedStaging.RootTargetWitness | src/vla_data_juicer_agents/annotation/runtime.py:726-742 | A concrete such tree for every identity: accepted, holding nothing but the target's YAML, and refused |
| Publication.TempNames | src/vla_data_juicer_agents/annotation/postprocessing_runtime.py:1369-1369 | Staging names are injective in run reference and index and never equal a clip name |
| Publication.PlanFine | src/vla_data_juicer_agents/annotation/postprocessing_runtime.py:1349-1375 | Planning passes if and only if each target is already right, or absent with its staging name free |
| Publication.RequestAcceptedExactly | src/vla_data_juicer_agents/annotation/postprocessing_runtime.py:1292-1375 | A request gets past all checks if and only if its references are well formed and new, the root is usable, and each item is named properly, unrepeated, unchanged and either in place already or free to go |
| Publication.RefusalMeans | src/vla_data_juicer_agents/annotation/postprocessing_runtime.py:1321-1375 | Each refusal code has its cause: a differing target, a changed candidate, or a staging directory left by another run |
| Publication.TargetsOldOrComplete | src/vla_data_juicer_agents/annotation/postprocessing_runtime.py:1401-1499 | In every state a stop may leave, each clip target holds what it held before or the complete expected tree; existing targets, other entries (including staging names of clips that were there already) and other journals are untouched |
| Publication.NothingPublishedBeforeAllStaged | src/vla_data_juicer_agents/annotation/postprocessing_runtime.py:1405-1440 | If any target has changed, every missing clip is staged complete or already in place with the right hash |
| Publication.JournalAtShape | src/vla_data_juicer_agents/annotation/postprocessing_runtime.py:1424-1499 | Committed items are a prefix of the plan; the overall state is "intent" while nothing is staged, "staged" until the first commit, and "committed" exactly when all items are |
| Publication.JournalNeverAhead | src/vla_data_juicer_agents/annotation/postprocessing_runtime.py:1380-1499 | In every reachable state a committed item's target has the expected tree and at most one clip is renamed but not journaled |
| Publication.JournalMarksMean | src/vla_data_juicer_agents/annotation/postprocessing_runtime.py:1380-1499 | In every reachable state the journal names the call, its clips and hashes, and each mark holds: staged only with the complete tree staged or in place, preexisting only for clips there before, pending while nothing is there; at most one clip is staged in full and not yet marked |
| Publication.ResumeReachesSameTargets | src/vla_data_juicer_agents/annotation/postprocessing_runtime.py:1301-1375 | From any state a stop may leave, the same candidates are accepted under a fresh run reference and finishing them leaves the targets of an uninterrupted run |
| Publisher.CheckCandidates | src/vla_data_juicer_agents/annotation/postprocessing_runtime.py:1321-1347 | The first failing candidate check and its code: name, hash format, repetition, type, unsafe tree, changed hash |
| Publisher.MakePlan | src/vla_data_juicer_agents/annotation/postprocessing_runtime.py:1349-1375 | The first conflict among targets and staging names, in plan order |
| Publisher.CheckRequest | src/vla_data_juicer_agents/annotation/postprocessing_runtime.py:1292-1375 | All refusals before the first write, in the order the source makes them, from malformed references over an existing journal and an unavailable or unsafe root to conflicts |
| Publisher.OpenJournal | src/vla_data_juicer_agents/annotation/postprocessing_runtime.py:1377-1404 | The intent journal and the date directory are written in this order and every state on the way is one a stop may leave |
| Publisher.StageItem | src/vla_data_juicer_agents/annotation/postprocessing_runtime.py:1411-1423 | Staging one clip touches only its staging directory and succeeds, without faults, exactly when the copied candidate has the expected hash |
| Publisher.StageAndJournal | src/vla_data_juicer_agents/annotation/postprocessing_runtime.py:1411-1430 | The staged mark is written only after the staged tree is complete |
| Publisher.StageAll | src/vla_data_juicer_agents/annotation/postprocessing_runtime.py:1405-1430 | All missing clips are staged and journaled, each history state being reachable |
| Publisher.TargetsStillMissing | src/vla_data_juicer_agents/annotation/postprocessing_runtime.py:1432-1440 | The recheck between staging and the first rename passes exactly when no missing target has appeared |
| Publisher.PlaceItem | src/vla_data_juicer_agents/annotation/postprocessing_runtime.py:1445-1487 | One clip is renamed into place, or kept, and verified in place; never over an existing target |
| Publisher.CommitItem | src/vla_data_juicer_agents/annotation/postprocessing_runtime.py:1445-1499 | The committed mark follows the rename; the last one makes the journal "committed" |
| Publisher.CommitAll | src/vla_data_juicer_agents/annotation/postprocessing_runtime.py:1442-1499 | Clips are committed in plan order and the result lists all of them |
| Publisher.PublishedExactly | src/vla_data_juicer_agents/annotation/postprocessing_runtime.py:1442-1499 | A finished run leaves exactly what was there before and the missing clips, complete: no staging directory, nothing else |
| Publisher.Publish | src/vla_data_juicer_agents/annotation/postprocessing_runtime.py:1283-1513 | Every state the directory goes through, and the one it is left in on success or failure, is one the laws above speak of; a refused request leaves no trace, `publication_recovery_required` leaves its journal, and another failure at most the intent journal; without faults an accepted request succeeds exactly when no missing candidate changed |
| Publisher.Resume | src/vla_data_juicer_agents/annotation/postprocessing_runtime.py:1283-1513 | From any state a stop may leave, or after success, publishing again under a fresh run reference completes if the clips still missing are unchanged, changes no target that is there and ends with the targets of an uninterrupted run |
| Publisher.PublishWithRecovery | src/vla_data_juicer_agents/annotation/postprocessing_runtime.py:1283-1513 | Publication against a directory that may fail at any write, followed by one more run if it failed, ends with the targets of an undisturbed run |
| TrackingLedger.Worker.MoveOutput | src/vla_data_juicer_agents/annotation/runtime.py:4148-4183 | Publication of an output; any failure once a move started is `recovery_required` |
| TrackingLedger.Worker.RunTracking | src/vla_data_juicer_agents/annotation/runtime.py:3951-4192 | Tracking of one target under the writer lock, refusing existing outputs; an error on release replaces the one in flight |
| TrackingLedger.Worker.HandleOne | src/vla_data_juicer_agents/annotation/worker.py:765-844 | One target: verify its checkpoint, or track, attest and record it, with the closure-pending flag set in between |
| TrackingLedger.Worker.ExecuteRun | src/vla_data_juicer_agents/annotation/worker.py:765-879 | The whole loop, ledger closure and failure handling equal the specification run |
| TrackingLedger.OutputsNeverOverwritten | src/vla_data_juicer_agents/annotation/runtime.py:4141-4183 | From any state and with any failures, every output and checkpoint that was there is there afterwards, unchanged |
| TrackingLedger.StrayIsRefused | src/vla_data_juicer_agents/annotation/runtime.py:4141-4147 | An output without a checkpoint is refused as `recovery_required` and left alone |
| TrackingLedger.StrayNeverCompletes | src/vla_data_juicer_agents/annotation/runtime.py:4141-4147 | From any state, a run one of whose targets has an output without a checkpoint never completes |
| TrackingLedger.RecordedIsOnlyVerified | src/vla_data_juicer_agents/annotation/worker.py:766-798 | A recorded target passes if and only if its checkpoint matches both outputs, and is never tracked again |
| TrackingLedger.TurnCancellationIsTranslated | src/vla_data_juicer_agents/annotation/runtime.py:4344-4350 | A turn cancelled inside Tracking reaches the worker as `runtime_cancelled` |
| TrackingLedger.SmoothRunCompletes | src/vla_data_juicer_agents/annotation/worker.py:765-879 | If nothing fails, a run whose targets are recorded or still without output completes |
| TrackingLedger.ClosureFailureNeedsRecovery | src/vla_data_juicer_agents/annotation/worker.py:845-879 | Once all outputs are recorded, a failure to close the ledger ends in `recovery_required`, whatever was requested |
| TrackingLedger.RouteKeepsRecovery | src/vla_data_juicer_agents/annotation/worker.py:1439-1584 | A failure with closure pending, or a recovery failure, ends in `recovery_required` or not at all, whatever was requested meanwhile |
| TrackingLedger.RetryableExactly | src/vla_data_juicer_agents/annotation/worker.py:1705-1780 | A failure may be retried if and only if it is a lack of capacity or of the Runtime, or a Runtime failure with none of the listed input, output and cancellation codes; output failures show as `recovery_required` |
| TrackingLedger.UnrecordedForcesRecovery | src/vla_data_juicer_agents/annotation/worker.py:765-879 | From a fully recorded state, a run that leaves an unrecorded output ends in `recovery_required`, unless the writer lock failed to release |
| TrackingLedger.ReleasableIsRecordedExceptLeaks | src/vla_data_juicer_agents/annotation/worker.py:1494-1584 | A retryable or cancelled end hides an unrecorded output if and only if the lock release failed after a move and a cancellation was requested; a retryable end never does |
| TrackingLedger.LeakWitness | src/vla_data_juicer_agents/annotation/worker.py:1527-1532 | That family is not empty |
| TrackingLedger.CompletedIsVerified | src/vla_data_juicer_agents/annotation/worker.py:765-879 | A completed run leaves every target with a checkpoint that matches both of its outputs |
| TrackingLedger.CancelledOnlyOnRequest | src/vla_data_juicer_agents/annotation/worker.py:1523-1573 | A run ends as cancelled only if the store asked for it, and as retryable interruption only if the Runtime was cancelled for a shutdown, with nothing pending and no request |
| TrackingLedger.CancelledCallEnds | src/vla_data_juicer_agents/annotation/worker.py:1523-1573 | A cancelled Runtime call ends the run as cancelled on request, retryable on shutdown, and else for an operator |
| TrackingLedger.OtherFailureEnds | src/vla_data_juicer_agents/annotation/worker.py:1523-1584 | Any other failure of work that is not pending ends the run as cancelled on request, and else with its public code |
| TrackingLedger.AttemptsStartRecorded | src/vla_data_juicer_agents/annotation/worker.py:765-879 | However often a job is retried or cancelled and resumed, every attempt starts fully recorded and no checkpoint or output it vouches for ever changes |
| Cancellation.CancellationContext.Cancel | src/vla_data_juicer_agents/core/cancellation.py:35-40 | Sets the flag and takes the snapshot once; later calls report false |
| Cancellation.CancellationContext.RegisterAgent | src/vla_data_juicer_agents/core/cancellation.py:103-104 | The registration step of the interleaving theorems: leaving the scope undoes it, and a cancellation right after it takes a snapshot with this task |
| Cancellation.CancellationContext.UnregisterAgent | src/vla_data_juicer_agents/core/cancellation.py:109-110 | The leaving step of the interleaving theorems: no later snapshot holds the scope |
| Cancellation.CancellationContext.BeginOperation | src/vla_data_juicer_agents/core/cancellation.py:59-61 | The beginning step of the interleaving theorems: callbacks are queued from now on, and ending the operation restores the context, handing over the queued callbacks exactly if nothing else was held |
| Cancellation.CancellationContext.EndOperation | src/vla_data_juicer_agents/core/cancellation.py:69-77 | Releases it once; the last release hands over all queued callbacks |
| Cancellation.CancellationContext.WhenBackgroundIdle | src/vla_data_juicer_agents/core/cancellation.py:89-94 | Queues the callback while an operation is held, else runs it now |
| Cancellation.TasksToCancel | src/vla_data_juicer_agents/core/cancellation.py:42-49 | Each live task of the snapshot is scheduled for cancellation exactly once, no other task at all |
| Cancellation.CancelPoint | src/vla_data_juicer_agents/core/cancellation.py:35-40 | In every run there is one step that cancels, and the snapshot is what was registered then |
| Cancellation.NoCancellationLost | src/vla_data_juicer_agents/core/cancellation.py:97-110 | Under every interleaving, a scope inside its body after cancellation is in the snapshot `cancel` acts on, with its task |
| Cancellation.LateScopeNeverEnters | src/vla_data_juicer_agents/core/cancellation.py:103-107 | A scope not inside its body at cancellation never gets inside |
| Cancellation.LateOperationNeverHeld | src/vla_data_juicer_agents/core/cancellation.py:57-67 | A background operation not held at cancellation is never held |
| Cancellation.UncancelledIsAdmitted | src/vla_data_juicer_agents/core/cancellation.py:57-107 | Without a cancellation no scope and no operation is turned away |
| Cancellation.CancelReturnsTrueOnce | src/vla_data_juicer_agents/core/cancellation.py:35-50 | The number of true returns is one once `cancel` was called, and zero before |
| Cancellation.CallbackRunsAfterIdle | src/vla_data_juicer_agents/core/cancellation.py:69-94 | A callback runs only after an instant, since its registration, with no operation held |
| Cancellation.CallbackRunsAtMostOnce | src/vla_data_juicer_agents/core/cancellation.py:69-94 | Each registration runs at most once |
| Cancellation.QueuedOnlyWhileHeld | src/vla_data_juicer_agents/core/cancellation.py:69-94 | A callback stays queued only while some operation is held |
| RuntimeDriver.Driver.Cancel | src/vla_data_juicer_agents/annotation/runtime.py:4311-4320 | Finds the active call of the job or leaves a pending mark |
| RuntimeDriver.Driver.Enter | src/vla_data_juicer_agents/annotation/runtime.py:4328-4338 | Refuses a second call of a job; otherwise registers it and consumes a pending mark |
| RuntimeDriver.Driver.Leave | src/vla_data_juicer_agents/annotation/runtime.py:4351-4354 | Unregisters the call unless another one took its place |
| RuntimeDriver.OneCallPerJob | src/vla_data_juicer_agents/annotation/runtime.py:4311-4354 | In every run the active and pending jobs are disjoint and no job has two calls in flight |
| RuntimeDriver.PendingExactlyWhileUnanswered | src/vla_data_juicer_agents/annotation/runtime.py:4313-4338 | In every run a job carries a pending mark if and only if some cancel found it inactive and no call of it has begun since |
| RuntimeDriver.PendingCancelStopsNextCall | src/vla_data_juicer_agents/annotation/runtime.py:4311-4350 | A cancel that finds no active call is kept through every interleaving for the job's next call, which ends as `runtime_cancelled` without invoking the runtime function and consumes it |
| RuntimeDriver.CancelledWhileWaitingNeverRuns | src/vla_data_juicer_agents/annotation/runtime.py:4339-4350 | A cancel that reaches a call at any time before its runtime function is called prevents it, and the call can only end as `runtime_cancelled` |
| RuntimeDriver.CancelNeverSpillsOver | src/vla_data_juicer_agents/annotation/runtime.py:4311-4354 | A call is cancelled only by a cancel that found that very call, or by the pending mark it consumed |
| RuntimeDriver.CancelledEndHasCause | src/vla_data_juicer_agents/annotation/runtime.py:4339-4350 | A call that ends as `runtime_cancelled` has its flag set, by a mark it began under or a cancel that found that very call |
| RuntimeDriver.EndIsEarned | src/vla_data_juicer_agents/annotation/runtime.py:4328-4354 | A call ends as its runtime function ended it, at a check as cancelled, or refused because its job was active; a result means that the function was invoked |
| RuntimeDriver.UncancelledIsInvoked | src/vla_data_juicer_agents/annotation/runtime.py:4339-4343 | A call nobody cancelled passes both checks and invokes its runtime function |
| RuntimeDriver.CancelReachesActiveCall | src/vla_data_juicer_agents/annotation/runtime.py:4313-4320 | A cancel that finds a call active is on its way to it or has set its flag, ever after |
| RuntimeDriver.DeliveredIsCancelled | src/vla_data_juicer_agents/annotation/runtime.py:4320-4320 | Once delivered, the flag stays set |
| InstanceSignal.DeliveredOnlyToRecorded | scripts/run_web_control.py:853-892 | Under every interleaving of exits, PID reuse and file replacement, a signal reaches only the incarnation whose PID and birth an identity file records that the command opened at the path and saw locked |
| InstanceSignal.DeliversExactlyOnSuccess | scripts/run_web_control.py:853-892 | A command delivers exactly once if it reports success and not at all in any other end, errors included |
| InstanceSignal.SendUndisturbed | scripts/run_web_control.py:531-561 | Undisturbed, the command succeeds if and only if the PID runs, both files name it, the lock is held and the birth matches; a missing and a changed PID file have their own exits and everything else is stale |
| TimelineStore.RunStore.ApplyAgentEvent | frontend/src/store/eventReducer.ts:66-313 | The in-place reducer equals the functional one, branch by branch, and touches neither applied keys nor counter |
| TimelineStore.RunStore.RemoveAssistantDraft | frontend/src/store/eventReducer.ts:413-418 | Drops exactly the reply's items that are not final |
| TimelineStore.RunStore.ProgressGrew | frontend/src/store/eventReducer.ts:123-159 | Drops the reply's draft and extends or creates the progress item |
| TimelineStore.RunStore.ProgressEnded | frontend/src/store/eventReducer.ts:161-181 | Marks the progress id or phase as ended and completes what is shown of it |
| TimelineStore.RunStore.AnswerGrew | frontend/src/store/eventReducer.ts:267-284 | Extends the found draft, leaves a final item alone, else starts one |
| TimelineStore.RunStore.AnswerFinished | frontend/src/store/eventReducer.ts:286-312 | Finishes the found item or adds a final one |
| TimelineStore.RunStore.FindAssistantItem | frontend/src/store/eventReducer.ts:319-337 | The last item of the reply, or of the turn when no reply is named |
| ReplyRefinement.StepRefines | frontend/src/store/eventReducer.ts:66-313 | Each event moves a reply's item exactly as the append, drop, finish machine says |
| ReplyRefinement.ReducerRefinesMachine | frontend/src/store/eventReducer.ts:66-313 | In a turn whose answer events all name a reply, the timeline shows at most one item per reply, and it is what the machine computes |
| ReplyRefinement.MachineReadsOwnEvents | frontend/src/store/eventReducer.ts:262-312 | That result depends on the reply's own events alone, whatever else interleaves |
| ReplyRefinement.FinalStaysFinal | frontend/src/store/eventReducer.ts:286-312 | A final reply stays final and only a further final answer of its own changes it |
| ReplyRefinement.FinalItemKept | frontend/src/store/eventReducer.ts:413-418 | On the timeline itself a final item is never removed, doubled or appended to |
| ReplyRefinement.RefinementIsExact | frontend/src/store/eventReducer.ts:319-337 | For every run at all, the refinement holds throughout if and only if no anonymous answer event hits this reply's item as the last of its turn |
| ReplyRefinement.HijackWitness | frontend/src/store/eventReducer.ts:332-335 | An anonymous delta right after a reply's first delta breaks it |
| ProgressItems.RunsKeepInv | frontend/src/store/eventReducer.ts:66-313 | In every run there is at most one progress item per turn and progress id and one item per interaction, and each ended progress is completed |
| ProgressItems.EndedIsCompletedForever | frontend/src/store/eventReducer.ts:123-181 | Once the end event was seen, the item is completed in all later states, also if it appears or grows only afterwards |
| ProgressItems.PhaseShownOnce | frontend/src/store/eventReducer.ts:103-121 | A phase that starts is shown, completed if it ended before, and starting it again changes nothing |
| ProgressItems.SummaryShownOnce | frontend/src/store/eventReducer.ts:127-139 | A delta without a progress id shows its summary once, under its phase, and leaves all else alone |
| ProgressItems.InteractionShownOnce | frontend/src/store/eventReducer.ts:213-254 | After a question or its resolution exactly one item shows the interaction, with the new text and status |
| ProgressItems.ActionShown | frontend/src/store/eventReducer.ts:183-211 | After an action event the last matching item shows its name and status, and no other item changed |
| ProgressItems.NoticeShown | frontend/src/store/eventReducer.ts:256-260 | A warning or error with text becomes exactly one more item with its text and status |
| ProgressItems.TurnStartShownOnce | frontend/src/store/eventReducer.ts:75-82 | A turn that starts is shown as being understood, once however often it starts |
| ProgressItems.PhaseEndCompletes | frontend/src/store/eventReducer.ts:169-180 | The end of a phase completes the turn's progress of that phase, or of all phases if it names none, and changes nothing else |
| ProgressText.StepShowsText | frontend/src/store/eventReducer.ts:123-181 | Each event extends what a progress shows by its delta if it is its own, and else by nothing |
| ProgressText.TextIsOwnDeltas | frontend/src/store/eventReducer.ts:123-159 | In every run the item of a progress appears with its first non-empty delta, is the only one, shows exactly its own deltas in order, and streams until an end of it or of a phase of its turn |
| RawEvents.TrimExactly | frontend/src/store/eventReducer.ts:433-435 | Normalizing takes all blanks, and nothing else, off both ends |
| RawEvents.ClassifyExactly | frontend/src/store/eventReducer.ts:35-68 | Each known event name is read as its type, and no other name is |
| RawEvents.IgnoredExactly | frontend/src/store/eventReducer.ts:67-68 | Every other name is unknown |
| RawEvents.FieldsRead | frontend/src/store/eventReducer.ts:70-73 | Each field is read under its wire name, or under its other name if that is blank, and texts are taken as they are |
| RawEvents.UnknownIsIgnored | frontend/src/store/eventReducer.ts:67-68 | An event of an unknown name changes nothing |
| RawEvents.RawFlags | frontend/src/store/eventReducer.ts:66-313 | A raw event has the type its trimmed name says and moves the running and interrupting flags as stated for that type |
| ItemIdentity.StepDescends | frontend/src/store/eventReducer.ts:66-313 | Every event makes at most one item, and keeps the identity and the stamp of all others |
| Replay.MergeIgnoresRepetitions | frontend/src/store/datapilotStore.ts:748-770 | Into any run, merging a persisted history with repetitions is merging its first occurrences |
| Replay.MergeAppliesFresh | frontend/src/store/datapilotStore.ts:748-770 | Into any run, live or loaded, merging applies exactly the events whose persisted and live keys are new, in order |
| Replay.RunFromEventsAppliesFirsts | frontend/src/store/datapilotStore.ts:740-746 | From empty, a persisted history with repetitions is its first occurrences applied once each, in order |
| Replay.MergeAgainIsNoop | frontend/src/store/datapilotStore.ts:748-770 | After merging a persisted history into any run, merging it or any part of it again, in any order, changes nothing |
| Replay.LiveThenHistory | frontend/src/store/datapilotStore.ts:762-778 | Events seen live are not applied again when the history brings their persisted copies |
| Replay.SecondAppliedUnlessRepeated | frontend/src/store/datapilotStore.ts:809-826 | Of two events the second is left out if and only if it has the same id, or the same session and number, or repeats a live event in type, turn, time and payload |
| Replay.LiveIsApplied | frontend/src/store/datapilotStore.ts:772-779 | A live event without id and number is always applied, any other exactly if it is new |
| TimelineStore.RunStore.ApplyLiveEvent | frontend/src/store/datapilotStore.ts:772-779 | The store's handling of a live event is the one these laws are about |
| TimelineStore.RunStore.ApplyEventIfNew | frontend/src/store/datapilotStore.ts:756-770 | Applies an event unless its persisted or live key was applied, recording the persisted key either way |
| TimelineStore.RunStore.ApplyEventAndMark | frontend/src/store/datapilotStore.ts:781-786 | Reduces, marks and stamps |
| TimelineStore.RunStore.StampNewItems | frontend/src/store/datapilotStore.ts:788-807 | Stamps exactly the items that are new, all alike, and advances the counter once per new item without a sequence number |
| Stamping.StampedRunRefines | frontend/src/store/datapilotStore.ts:781-807 | Reducing and stamping event after event moves a reply as its machine does, from whatever it shows at the beginning |
| Stamping.StampedRunKeeps | frontend/src/store/datapilotStore.ts:781-807 | The same for uniqueness of items and completion of ended progress |
| Stamping.StoreLaws | frontend/src/store/datapilotStore.ts:781-807 | Both laws for any sequence of events applied to any state of the store |
| Stamping.LoadedReplies | frontend/src/store/datapilotStore.ts:740-746 | A run loaded from events shows for each named reply exactly its machine's result |
| Stamping.StampedRunShowsText | frontend/src/store/datapilotStore.ts:781-807 | Reducing and stamping extends what a progress shows by its own deltas, from whatever it shows at the beginning |
| Stamping.StoreProgress | frontend/src/store/datapilotStore.ts:781-807 | The same for every progress at once, from any state of the store |
| Stamping.LoadedProgress | frontend/src/store/datapilotStore.ts:740-746 | A run loaded from events shows for each progress exactly its own deltas |
| Stamping.AppliedIsStamped | frontend/src/store/datapilotStore.ts:781-807 | An applied event stamps the item it makes, with its own stamp, and no other |
| Stamping.StampSource | frontend/src/store/datapilotStore.ts:793-795 | A stamp carries the event's own time or else its arrival, and its own number or else the counter |
| Stamping.CountNewIs | frontend/src/store/datapilotStore.ts:796-806 | The counter advances by the number of items that are new |
| TimelineStore.RunStore.MergeEvents | frontend/src/store/datapilotStore.ts:748-754 | In the mutable store, whatever its state, the fresh events move every named reply as its machine says and extend every progress by its own deltas, items stay unique and ended progress is completed |
| TimelineStore.RunFromEvents | frontend/src/store/datapilotStore.ts:740-746 | The loaded run is each persisted event applied exactly once; it shows for every reply what its machine makes of these events and for every progress its own deltas, with unique items and ended progress completed |
| ImageHeader.ImageDimensions | src/vla_data_juicer_agents/annotation/application.py:1530-1586 | The reader equals its specification on every byte string, and so halts on every one |
| ImageHeader.ScanMarkers | src/vla_data_juicer_agents/annotation/application.py:1558-1586 | The marker loop, with a cursor that strictly increases |
| ImageHeader.ScanRound | src/vla_data_juicer_agents/annotation/application.py:1558-1586 | One round gives the scan's result or moves to a later position with the same result |
| ImageHeader.JpegComplete | src/vla_data_juicer_agents/annotation/application.py:1540-1586 | After the start marker, any stray bytes, parameterless markers and segments with any payload, then a frame header: exactly that header's size is returned |
| ImageHeader.JpegSound | src/vla_data_juicer_agents/annotation/application.py:1540-1586 | Whenever a JPEG size is returned, the bytes are such a stream and the size is its frame header's |
| ImageHeader.PngExactly | src/vla_data_juicer_agents/annotation/application.py:1533-1539 | A PNG is recognized if and only if signature, IHDR and two non-zero sizes are there, and the sizes are the big-endian numbers |
| ImageHeader.MarkerClasses | src/vla_data_juicer_agents/annotation/application.py:1543-1571 | Exactly the frame headers and the parameterless markers of the JPEG marker table are treated as such |
| GridmapPng.Ramp | src/vla_data_juicer_agents/annotation/trajectory_evidence.py:289-296 | Every channel of the ramp stays in its range within 0..255 |
| GridmapPng.ColourIsLinear | src/vla_data_juicer_agents/annotation/trajectory_evidence.py:273-296 | Between the foreground's extremes red falls and blue rises linearly in the value and green is a tent, rounded down; a narrower span than 1e-12 counts as that wide |
| GridmapPng.ColourLandmarks | src/vla_data_juicer_agents/annotation/trajectory_evidence.py:286-296 | The lowest, middle and highest foreground values are (253, 1, 84), (160, 221, 157) and (68, 1, 230), and a foreground of one value is (253, 1, 84) |
| GridmapPng.ColourIsMonotone | src/vla_data_juicer_agents/annotation/trajectory_evidence.py:289-296 | A higher value is never redder nor less blue |
| GridmapPng.BackgroundIsRecognizable | src/vla_data_juicer_agents/annotation/trajectory_evidence.py:286-296 | Exactly the background cells get the background colour |
| GridmapPng.MeasureForeground | src/vla_data_juicer_agents/annotation/trajectory_evidence.py:273-275 | The loop finds the extremes of the foreground, or that there is none |
| GridmapPng.PixelMapIsBijective | src/vla_data_juicer_agents/annotation/trajectory_evidence.py:297-302 | The transposed and flipped map takes cells to output pixels one to one, onto all of them |
| GridmapPng.WritePixel | src/vla_data_juicer_agents/annotation/trajectory_evidence.py:301-302 | Writes three channels of one pixel and changes no other pixel and no filter byte |
| GridmapPng.PaintColumn | src/vla_data_juicer_agents/annotation/trajectory_evidence.py:284-302 | One source row becomes one finished output column |
| GridmapPng.Paint | src/vla_data_juicer_agents/annotation/trajectory_evidence.py:279-302 | All rows keep filter byte 0, every pixel shows the cell under the transposed and flipped map, and the loops write each pixel exactly once and nothing else |
| GridmapPng.JoinRows | src/vla_data_juicer_agents/annotation/trajectory_evidence.py:303-303 | The joined rows are the specified scanlines |
| GridmapPng.Render | src/vla_data_juicer_agents/annotation/trajectory_evidence.py:265-322 | The image is signature, header, compressed scanlines and end chunk, with the rendered width and height |
| GridmapPng.ChunkReadsBack | src/vla_data_juicer_agents/annotation/trajectory_evidence.py:256-262 | A checking chunk reader gets kind, payload and rest back |
| GridmapPng.ChunksReadBack | src/vla_data_juicer_agents/annotation/trajectory_evidence.py:304-321 | The image is exactly the three chunks, with nothing behind them |
| GridmapPng.HeaderReadsBack | src/vla_data_juicer_agents/annotation/application.py:1533-1539 | The header reader applied to the image returns "png" and the rendered width and height |
| GridmapPng.ScanlinesShowPixel | src/vla_data_juicer_agents/annotation/trajectory_evidence.py:279-303 | At its place in the scanlines every pixel has the colour of its cell, behind filter byte 0 |
| GridmapPng.DecodedImageShowsPixel | src/vla_data_juicer_agents/annotation/trajectory_evidence.py:279-321 | A decoder that inflates the data finds at every pixel of the finished image the colour of its cell |
| GridmapPng.DecodedImageLooks | src/vla_data_juicer_agents/annotation/trajectory_evidence.py:265-322 | At every pixel of the decoded image the cell looks as its value between the extremes of the foreground says |
| GridmapPng.HeaderDescribesScanlines | src/vla_data_juicer_agents/annotation/trajectory_evidence.py:306-318 | The header chunk says 8-bit truecolour without interlace, and the data is as long as its width and height demand |
| HandoffTriggers.Database.AddPin | src/vla_data_juicer_agents/annotation/migrations.py:1327-1346 | A pin is inserted only for a processing handoff and a processing link of its job |
| HandoffTriggers.Database.AddHandoff | src/vla_data_juicer_agents/annotation/migrations.py:1347-1362 | Inserting a handoff pins it, and rolls it back if the pin is refused |
| HandoffTriggers.Database.MoveAuthority | src/vla_data_juicer_agents/annotation/migrations.py:1193-1208 | An authority moves only to another processing link of its job, with the next revision |
| HandoffTriggers.AuthoritiesStayValid | src/vla_data_juicer_agents/annotation/migrations.py:1181-1212 | Over every sequence of statements each authority names a processing link of its own job, no two share one, and each pin fits its handoff |
| HandoffTriggers.AuthorityAcceptedExactly | src/vla_data_juicer_agents/annotation/migrations.py:1181-1208 | An authority is accepted if and only if it is the first of its job or the next revision on another link, and its link is a free processing link of the job |
| HandoffTriggers.RowsNeverLost | src/vla_data_juicer_agents/annotation/migrations.py:1045-1060 | Over every sequence of statements links, handoffs and authorities are never removed, and links and handoffs never changed |
| HandoffTriggers.HandoffInsertAlwaysPins | src/vla_data_juicer_agents/annotation/migrations.py:1347-1362 | The pinning trigger never aborts an insert, and pins to the link that holds the authority |
| HandoffTriggers.PinnedForever | src/vla_data_juicer_agents/annotation/migrations.py:1247-1254 | No accepted statement changes or removes a pin |
| HandoffTriggers.HandoffStaysWithItsAuthority | src/vla_data_juicer_agents/annotation/migrations.py:1319-1362 | A processing handoff inserted while its job has an authority stays pinned to the link that held it then, however often it moves later |
| HandoffTriggers.RevisionCountsMoves | src/vla_data_juicer_agents/annotation/migrations.py:1193-1212 | An authority is never lost and its revision grows by exactly one per change of link |

## Left out

- File metadata: modes, inodes, timestamps, ownership and the comparison of metadata before and after each read, which detect a tree that changes while it is walked; trees stand still during one walk.
- Publication: fsync and partial writes; each rename and each journal replacement is one atomic durable step. Other writers of the date directory are excluded, as the worker holds the writer lock.
- Publication: the creation and permissions of the journal directory; that an expected hash is 64 hex digits, and that the finish root is a real directory, are given as facts of the request.
- Publisher.Publish: does not claim that the worker routes `publication_recovery_required` to operator recovery; the worker's test looks for `recovery_required` only.
- SHA-256, CRC-32 and deflate internals: digests are the digested values, the other two are parameters.
- Symlinks on the way to a segment: targets are given by their resolved path below the staging root, which exists.
- TrackingLedger: the prepare, postprocessing and Fix branches of a run, the heartbeat, and cancellation of the asyncio task itself; targets are taken to be distinct, as the store's references are.
- Cancellation.CallbackRunsAtMostOnce: speaks of registrations, and callbacks do not raise.
- InstanceSignal: the macOS path through `os.kill`, and two `hold-instance` commands starting at once; an identity file's content is complete before it gets its name.
- NUL-joined and colon-joined key strings are tuples and datatypes, so a collision of joined keys is not modelled.
- Replay: live events with neither id nor sequence number are applied unconditionally; only those whose persisted copies arrive later are covered, by `LiveThenHistory`.
- ReplyRefinement: runs of the reducer only; adopting a server turn id in the store rewrites turns without their reply keys and is not modelled.
- ProgressItems.EndedIsCompletedForever: covers items with a progress id; phases "" and "generic" share one terminal key.
- GridmapPng: rounding of floating-point values (colours are computed over exact reals), validation of the gridmap JSON and the choice of its background value.
- HandoffTriggers.HandoffInsertAlwaysPins: the unique handoff reference and the foreign keys on jobs and reviews, which only refuse further inserts, are not modelled; nor is `INSERT OR REPLACE`.
- The business scripts, sandbox command lines, capability probes, HTTP, SQL beyond the triggers, configuration, and user-interface state other than the timeline.
- The Fix publisher and the maintenance lease, single-file and single-lock versions of what is proved here.
