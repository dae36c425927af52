# FlyNES: verified models of its core protocols and algorithms

FlyNES is an NES emulator with frame interpolation, saved states, an on-screen control
layout and a nearby-play transport. This project models the parts of it whose correctness
depends on more than one function at a time, and proves what they promise:

- **QUIC provider** (`QuicProvider`, `QuicInvariant`, `QuicSteps`, `QuicRuns`, `QuicAnswers`): the life of
  an operation from submit to callback, as a labelled transition system over the resource
  and pending tables. Workers, supervisors, closes and cancels interleave freely; what the
  transport answers is nondeterministic, and reads, writes and stream closes contend for the
  mutex of their stream. One inductive invariant is lifted to whole runs, and every answer
  the provider gives is tied to what happened in the run.
- **Midpoint interpolator** (`Frames`, `MotionSearch`, `Warp`, `Interpolator`, `MotionLaws`): the block
  search, the confidence gates and the in-place warp, as loops over arrays proved equal to a
  closed equation for every output pixel.
- **Session owner** (`SessionOwner`, `OwnerInvariant`, `OwnerSignals`, `OwnerSteps`,
  `OwnerFrames`, `OwnerRuns`, `OwnerAnswers`, `OwnerProgress`, `OwnerExamples`): the worker thread with its
  commands, tasks and timers, as a transition system in which tasks are linear resources.
  Each label is one critical section, one step of the worker, or one move of the condition
  variable: going to sleep, being woken, looking again, and a notification that a thread
  gives only after it has left its critical section.
- **Cadences** (`Fractions`, `Scheduler`, `Cadence`, `Discontinuity`, `AudioClock`): phase accumulators in
  exact arithmetic, as classes, with their behaviour over any sequence of calls.
- **Saved states** (`Bytes`, `StateContainer`, `ContainerLaws`, `FormatLaws`, `Binary64`, `SavedClock`,
  `Streams`): the
  versioned container, its writer and its reader, the audio clock across a save and a load,
  and the capped and growable output streams.
- **Layout file and text** (`Layout`, `Utf8`): crash-safe replacement of the layout file as
  file-system steps that may fail or be cut off, and UTF-8 as sections 3 and 4 of RFC 3629
  define it.

`dafny verify dfyconfig.toml` checks everything.

## Findings

Six promises turned out to hold only under a condition. Each has a lemma with an input on
which it fails, or a statement of what happens instead, and a lemma that says exactly when it
holds.

- `OwnerExamples.FailedCreateLeaksTimer`: a timer armed while the engine is being created,
  which then fails, is neither run nor released. `OwnerRuns.LostIffArmedAtSeal` shows that
  exactly the tasks of the timers armed when the executor closes are lost, and that there are
  none if the engine was created.
- `Layout.StaleBackupOverwritesLive`: a failed probe of the live file, a failed install and
  an old backup together make a save return false and replace the current layout by the
  old backup. `PromiseBrokenIff` shows that this is the only way.
- `Streams.PutPastEndUnderstates`: after a seek past the end, a single byte that does not fit
  understates the size needed. `DemandIsExactIff` shows that nothing else does.
- `Cadence.SlotTotalIff`: the slots given to source frames add up to the promised total if and
  only if the display rate is below twice the source rate; from there on the clamp discards
  slots.
- `Cadence.DoubleStepLosesFrame`: a timestamp that brings the phase to exactly two is not a
  discontinuity and loses one frame. `TimestampsConserveTime` shows that elapsed time is
  accounted for if and only if no timestamp does that.
- `AudioClock.RefusalHidesFrames`: a call that is refused may already have run frames, of
  which the caller is told nothing. `RefusedRanNothingIff` says for each call when it ran
  none, and `CanHideFramesIff` that a rate and mode allow it exactly below one sample a frame.

The provider's 64-bit handle counter wraps, so the handle theorems are about runs that issue
fewer than 2^64 handles; `QuicRuns.NextHandleFreshIff` shows that this is exact.

## Model

| member | source | states |
|---|---|---|
| QuicProvider.Admit | shared/nearby-quic-provider/src/ffi.rs:437-477 | only a request whose handle resolves is charged to a connection, one that is not a close only to a connection in the table, and a close resolves if and only if its handle is in the table |
| QuicSteps.CommitInserts | shared/nearby-quic-provider/src/ffi.rs:364-406 | a creator's commit adds to the table exactly the new handles it reports, all of them or none, below a live parent |
| QuicSteps.SubmitStep | shared/nearby-quic-provider/src/ffi.rs:492-526 | resolving, capturing and registering as one transaction keeps the invariant |
| QuicSteps.CutoffStep | shared/nearby-quic-provider/src/ffi.rs:1322-1355 | removing a connection with its children and taking the receipts of its pending operations keeps the invariant |
| QuicSteps.ArbitrateStep | shared/nearby-quic-provider/src/ffi.rs:533-547 | terminal arbitration keeps the invariant, whichever of worker, cancel and close came first |
| QuicSteps.StepInv | shared/nearby-quic-provider/src/ffi.rs:479-577 | every step of every thread keeps the invariant |
| QuicRuns.RunInv | shared/nearby-quic-provider/src/ffi.rs:479-577 | every state of every run satisfies the invariant |
| QuicRuns.RunEvolves | shared/nearby-quic-provider/src/ffi.rs:192-199 | along a run an operation's request, drain, cut and completion are never rewritten and handles never come back |
| QuicRuns.CutStaysCut | shared/nearby-quic-provider/src/ffi.rs:1327-1354 | a handle that a close cut is in no later table |
| QuicRuns.NoAdmissionAfterCutoff | shared/nearby-quic-provider/src/ffi.rs:437-477 | after a connection's cutoff no operation is ever charged to it |
| QuicRuns.CloseOkMeansDrained | shared/nearby-quic-provider/src/ffi.rs:1358-1381 | when a close has decided on OK, every operation that was or will be charged to the connection was admitted before, has dropped its output and has drained |
| QuicRuns.StreamsHaveLiveParents | shared/nearby-quic-provider/src/ffi.rs:374-405 | in every reachable state live handles are nonzero and issued, and a live stream's parent is a live connection |
| QuicRuns.HandlesAreNotReused | shared/nearby-quic-provider/src/ffi.rs:392-404 | a handle that appears was in no earlier state |
| QuicRuns.HandlesAreConserved | shared/nearby-quic-provider/src/ffi.rs:1327-1354 | every issued handle is live or was cut by exactly one close |
| QuicRuns.NextHandleFreshIff | shared/nearby-quic-provider/src/ffi.rs:392-399 | the next handle is nonzero and new if and only if the counter does not wrap |
| QuicRuns.CallsMatchLog | shared/nearby-quic-provider/src/ffi.rs:557-560 | the callbacks logged for an operation are the calls the run made |
| QuicRuns.ExactlyOneCallback | shared/nearby-quic-provider/src/ffi.rs:527-577 | an accepted operation is called back exactly once by the time it gives up its id, and at most once before; nothing else is called back |
| QuicRuns.CallbacksMatchSubmits | shared/nearby-quic-provider/src/ffi.rs:492-577 | over every run callbacks never outnumber the ACCEPTED submits, and equal them if and only if every accepted operation has been called back, so a rejected submit gets none |
| QuicRuns.IdStaysOwned | shared/nearby-quic-provider/src/ffi.rs:503-505 | until its callback has returned an operation owns its id, resubmission is DUPLICATE, and the entry its removal finds is its own |
| QuicRuns.CancelIsAllOrNothing | shared/nearby-quic-provider/src/ffi.rs:533-547 | CANCELLED means that no handle was inserted or cut, and OK that the whole effect took place |
| QuicRuns.NoCancelAfterCutoffOrCommit | shared/nearby-quic-provider/src/ffi.rs:1404-1416 | past its cutoff or commit an operation cannot end CANCELLED and a cancel changes nothing |
| QuicRuns.BidiIsAtomic | shared/nearby-quic-provider/src/ffi.rs:383-405 | a bidirectional creator inserts both halves, under two new handles, in one step or inserts nothing |
| QuicRuns.InternalDecreases | shared/nearby-quic-provider/src/ffi.rs:527-570 | every step that is not a new request lowers a measure |
| QuicRuns.StreamLockIsExclusive | shared/nearby-quic-provider/src/ffi.rs:1062-1073 | in every reachable state the mutex of a stream has at most one holder |
| QuicRuns.NeverStuck | shared/nearby-quic-provider/src/ffi.rs:1358-1380 | no deadlock: a connection close may wait for a stream close, which may wait for the read or write that holds the mutex of the stream, and that one waits only for the transport, so some step can always be taken |
| QuicRuns.InternalRunsEnd | shared/nearby-quic-provider/src/ffi.rs:527-570 | left to itself the provider stops within the measure, waits for stream mutexes included, with nothing pending and one callback for each operation |
| QuicAnswers.SubmitAcceptedIff | shared/nearby-quic-provider/src/ffi.rs:492-526 | over every run a submit is ACCEPTED, and adds one operation, if and only if its id is not zero and no operation that is still there goes by it; otherwise INVALID_ARGUMENT or DUPLICATE and nothing changes |
| QuicAnswers.AdmissionIsExact | shared/nearby-quic-provider/src/ffi.rs:437-477 | what an accepted request resolves to, said on the table alone: a connection request if and only if the connection is live, a read or write if and only if its stream is live and of that direction, a close if and only if the handle is live, each charged to that connection |
| QuicAnswers.CancelAcceptedIff | shared/nearby-quic-provider/src/ffi.rs:1388-1403 | a cancel is ACCEPTED if and only if an operation that is still there goes by the id |
| QuicAnswers.CancelsAreConserved | shared/nearby-quic-provider/src/ffi.rs:1395-1416 | every accepted cancel reaches the operation it found exactly once |
| QuicAnswers.CancelledIff | shared/nearby-quic-provider/src/ffi.rs:1404-1416 | an operation ends CANCELLED, with nothing inserted or cut, if and only if a cancel reached it while its answer was open and it had cut nothing |
| QuicAnswers.AbortIsCancelled | shared/nearby-quic-provider/src/ffi.rs:1413-1415 | a worker is aborted only after a cancel in time, and then its operation ends CANCELLED |
| QuicAnswers.AnswerIsRight | shared/nearby-quic-provider/src/ffi.rs:533-547 | the completion decided on is the one the output calls for (reply code, one handle, two handles, FAILED without output, INVALID_HANDLE below a dead parent), with exactly that change of the table, and it stays |
| QuicAnswers.ReplyIsAnswered | shared/nearby-quic-provider/src/ffi.rs:527-547 | the code a worker returned is the code of the completion, unless a cancel came in time |
| QuicAnswers.CutIsExact | shared/nearby-quic-provider/src/ffi.rs:1322-1355 | a close cuts if and only if it is not cancelled and its handle is live, and then exactly the handle and the streams below it |
| QuicAnswers.CloseHasWaited | shared/nearby-quic-provider/src/ffi.rs:1358-1380 | a close that answers OK found every receipt it took drained and, for a stream, its mutex free |
| Frames.EncodeDecode | core/video/temporal_interpolator.cpp:20-28 | the channel triple loses nothing of the 16-bit word |
| Frames.DecodeEncode | core/video/temporal_interpolator.cpp:20-28 | every channel triple is the reading of its word |
| Frames.DistanceAdds | core/video/temporal_interpolator.cpp:20-28 | colour distance adds up along every way that does not turn back in a channel |
| Frames.DistanceSteps | core/video/temporal_interpolator.cpp:20-28 | one step of red or blue counts two, one of green one, in both directions |
| Frames.LumaIs | core/video/temporal_interpolator.cpp:30-35 | brightness is 54, 183 and 19 parts in 256 of the channels stretched to 255, every division rounded down |
| Frames.BlockCost | core/video/temporal_interpolator.cpp:37-48 | the loops compute the sum of colour distances over the block |
| Frames.CostSplits | core/video/temporal_interpolator.cpp:37-48 | the cost of a band of rows is the sum of the costs of its parts |
| Frames.RowCostSplits | core/video/temporal_interpolator.cpp:42-46 | the cost of a row is the sum of the costs of its parts, and of one pixel its colour distance |
| Frames.CostZeroIffEqual | core/video/temporal_interpolator.cpp:199-200 | the cost is zero if and only if the two blocks are equal pixel by pixel |
| Frames.CostBelowSentinel | core/video/temporal_interpolator.cpp:15-16 | no cost reaches the value that stands for "none" |
| Frames.RowColAreDivMod | core/video/temporal_interpolator.cpp:275-277 | row and column are the quotient and remainder by the stride |
| Frames.IndexIsProduct | core/video/temporal_interpolator.cpp:263-264 | an index is row times stride plus column |
| MotionSearch.SearchRefinement | core/video/temporal_interpolator.cpp:50-76 | the loops compute the match of the whole candidate window |
| MotionSearch.ConsiderAllExact | core/video/temporal_interpolator.cpp:62-72 | the running update of best, second and ties is exact for any list of candidates |
| MotionSearch.WindowIs | core/video/temporal_interpolator.cpp:53-60 | the window holds every in-bounds displacement once, in scan order, and no other |
| MotionSearch.RefinementIsExact | core/video/temporal_interpolator.cpp:50-76 | best is the least in-bounds cost, the vector its first minimiser, ties the number of minimisers, and second the least cost above best or the sentinel |
| MotionSearch.RefinedInBounds | core/video/temporal_interpolator.cpp:57-60 | a match with any tie displaces the block inside the frame |
| MotionSearch.QuarterBlockCost | core/video/temporal_interpolator.cpp:78-94 | the loops compute the sum over every fourth pixel |
| MotionSearch.CoarseSearch | core/video/temporal_interpolator.cpp:105-120 | the loops compute the centre of the coarse window |
| MotionSearch.CoarseIsFirstMinimum | core/video/temporal_interpolator.cpp:114-118 | the coarse centre is the first minimiser in scan order over the in-bounds window |
| MotionSearch.Normalize | core/video/temporal_interpolator.cpp:147-151 | unusable sizes become 4 and 8, negative radii 0; every usable field and every ratio is left alone |
| MotionSearch.HierarchicalSearch | core/video/temporal_interpolator.cpp:96-124 | the search is the refinement around the coarse centre, or around zero when the anchor does not fit |
| MotionLaws.QuarterCostIsThinCost | core/video/temporal_interpolator.cpp:78-94 | the coarse cost is the block cost of the two frames thinned to every fourth pixel |
| MotionLaws.AnchorIs | core/video/temporal_interpolator.cpp:99-101 | a coarse cell starts at the last multiple of its size that is not beyond the block |
| MotionLaws.CentreIs | core/video/temporal_interpolator.cpp:96-120 | the search is centred on the first shift of least cost of the coarse cell that holds the block, among the shifts inside the frame; on zero if that cell sticks out |
| Warp.HalfIsBetween | core/video/temporal_interpolator.cpp:255-256 | twice a half vector is the vector, or one more away from zero; so it lies between zero and the full vector in both signs |
| Warp.ClampIsIdentity | core/video/temporal_interpolator.cpp:261-262 | both clamps are identities, so a moved block shifts rigidly onto as many targets as it has pixels |
| Warp.CopyFrame | core/video/temporal_interpolator.cpp:136-141 | the output shows A and its padding is untouched |
| Warp.ExposeBlock | core/video/temporal_interpolator.cpp:247-254 | exactly the pixels of the block become B |
| Warp.ClaimBlock | core/video/temporal_interpolator.cpp:255-268 | each target keeps the least of its owner and the source index that lands on it |
| Warp.ResolveOwners | core/video/temporal_interpolator.cpp:270-280 | owned pixels become A at their owner and no other cell changes |
| Warp.OwnerIsLeast | core/video/temporal_interpolator.cpp:244-269 | the owner of a target is the least index that lands on it, or none |
| Warp.OwnerDecodes | core/video/temporal_interpolator.cpp:272-277 | dividing the owner by the width gives back that source pixel |
| Warp.MidpointIsDetermined | core/video/temporal_interpolator.cpp:246-280 | the pixel equation has one solution, whatever the order of the motions |
| Warp.MidpointSamples | core/video/temporal_interpolator.cpp:241-243 | every output pixel is a sample of A or of B: nothing is blended |
| Warp.WarpFrame | core/video/temporal_interpolator.cpp:244-280 | over a copy of A the warp leaves the solution of the pixel equation at every shown pixel and does not touch padding |
| Interpolator.StatsMean | core/video/temporal_interpolator.cpp:164-180 | changed is the number of differing pixels, large the number whose brightness differs by 96 or more, and the same-sign count the number that go the way of the first brightness change in scan order |
| Interpolator.ObserveFrames | core/video/temporal_interpolator.cpp:164-180 | the loops compute exactly these counts |
| Interpolator.ForwardStaysInside | core/video/temporal_interpolator.cpp:205-215 | the forward destination is always inside the frame, so the guard before the backward search always holds |
| Interpolator.MovedBlocksMove | core/video/temporal_interpolator.cpp:216-231 | an accepted match is never the zero vector, so no changed block falls through both counts |
| Interpolator.BlocksAreAccounted | core/video/temporal_interpolator.cpp:197-233 | moved blocks plus held blocks is the number of full grid blocks that changed |
| Interpolator.UnchangedIffSameBlock | core/video/temporal_interpolator.cpp:199-200 | a block is skipped if and only if A and B agree on it |
| Interpolator.FindMotions | core/video/temporal_interpolator.cpp:193-233 | the loops find the motions, the held blocks and the unsafe pixels of the whole grid |
| Interpolator.MotionsAreAcceptedBlocks | core/video/temporal_interpolator.cpp:197-231 | the motions are exactly the verdicts of the full grid cells; MotionLaws.MotionsAreTrusted says what those are |
| MotionLaws.TiesAreOneIff | core/video/temporal_interpolator.cpp:62-72 | a search reports one tie at a displacement if and only if that one costs less than every other candidate of the window |
| MotionLaws.MarginIff | core/video/temporal_interpolator.cpp:220-222 | the runner-up test holds if and only if every other candidate costs more than the margin above the best |
| MotionLaws.CellMovesIff | core/video/temporal_interpolator.cpp:199-231 | a changed cell moves by (dx, dy) if and only if that is its only best candidate forward, by more than twice its pixels, at less than three quarters of the cost of standing still, and the only best candidate backward returns to within one pixel; otherwise it is held |
| MotionLaws.MotionsAreTrusted | core/video/temporal_interpolator.cpp:193-233 | the motions of a frame pair are exactly those of its full changed cells, stated on windows and costs |
| MotionLaws.OutcomeIs | core/video/temporal_interpolator.cpp:181-240 | which of flash, scene cut, too much doubt and generation a valid call reports, as an if and only if each, on pixel counts; and its ratios and block counts |
| Interpolator.MotionsStayInside | core/video/temporal_interpolator.cpp:205-231 | every motion keeps its block inside the frame |
| Interpolator.UnchangedIffSame | core/video/temporal_interpolator.cpp:168-180 | no pixel counts as changed if and only if the frames are equal |
| Interpolator.SameFramesStay | core/video/temporal_interpolator.cpp:197-280 | equal frames give back A |
| Interpolator.InterpolateMidpoint | core/video/temporal_interpolator.cpp:154-285 | an invalid call writes nothing; a held frame is A; a generated frame solves the pixel equation at every shown pixel; padding is never written; the result names the gate that decided |
| OwnerSteps.StepInv | harmony/nearby/session_owner_v2.cpp:27-212 | every step by any thread keeps the invariant: one owner for each task, one place for each command, bounded buffers |
| OwnerSteps.CollectBounds | harmony/nearby/session_owner_v2.cpp:133-145 | due and stale tasks together fit the worker's fixed arrays |
| OwnerRuns.RunInv | harmony/nearby/session_owner_v2.cpp:149-212 | every state of every run satisfies the invariant |
| OwnerRuns.RunGrows | harmony/nearby/session_owner_v2.cpp:91-104 | consumption, results, arming data and the closing flags are never undone, and timers are frozen once the executor is closed |
| OwnerRuns.OwnedIffAccepted | harmony/nearby/session_owner_v2.cpp:27-56 | the owner knows exactly the tasks that post or arm accepted |
| OwnerRuns.ConsumedAtMostOnce | harmony/nearby/session_owner_v2.cpp:112-148 | no task is run or released twice, and a task that was never accepted is never touched |
| OwnerRuns.FinishedConsumesAllIff | harmony/nearby/session_owner_v2.cpp:181-212 | at the end every accepted task was consumed exactly once if and only if no timer is armed and no displacing call still owes its release |
| OwnerRuns.LostIffArmedAtSeal | harmony/nearby/session_owner_v2.cpp:200-210 | the tasks that are lost are exactly those of the timers armed at the step that closes the executor, and there are none if the engine was created |
| OwnerRuns.CreatedRunsConserveTasks | harmony/nearby/session_owner_v2.cpp:181-210 | when the engine was created no timer is left, so every task is consumed once the displacing calls have returned |
| OwnerRuns.ArmedAtCloseLeaks | harmony/nearby/session_owner_v2.cpp:200-210 | a timer that is armed when the executor closes is never run or released |
| OwnerExamples.FailedCreateKeepsTimers | harmony/nearby/session_owner_v2.cpp:200-210 | from any run at which only timers are held, the failing path can end with all of them still armed |
| OwnerExamples.FailedCreateLeaksTimer | harmony/nearby/session_owner_v2.cpp:158-210 | a run exists in which a timer armed during a failing creation is lost |
| OwnerExamples.ReleaseOutlivesWorker | harmony/nearby/session_owner_v2.cpp:57-69 | a run exists that ends orderly while a cancelling thread still owes the release of the task it displaced |
| OwnerRuns.DisplacingCalls | harmony/nearby/session_owner_v2.cpp:44-67 | cancelling a timer, or arming over it, displaces the task it held |
| OwnerRuns.DisplacedNeverRuns | harmony/nearby/session_owner_v2.cpp:44-69 | a displaced task is never run |
| OwnerRuns.TimerRunsOnlyWhenDue | harmony/nearby/session_owner_v2.cpp:125-148 | a timer's task runs only because of a sample the worker read, of the boot it was armed for, at or after its deadline |
| OwnerRuns.ArraysNeverOverflow | harmony/nearby/session_owner_v2.cpp:133-145 | no queue and no fixed array ever exceeds its size |
| OwnerRuns.CommandHasOnePlace | harmony/nearby/session_owner_v2.cpp:246-258 | every accepted call is queued, in flight or answered, and only one of these |
| OwnerRuns.ResultIsFinal | harmony/nearby/session_owner_v2.cpp:176-179 | a result is given once and stays |
| OwnerRuns.ShutdownAnswersQueue | harmony/nearby/session_owner_v2.cpp:91-104 | the commands queued when shutdown is requested, at most 8, are answered CLOSED in that step |
| OwnerRuns.NoCallerLeftWaiting | harmony/nearby/session_owner_v2.cpp:162-212 | once closing is set only the command in flight lacks a result, and once the worker has finished none does |
| OwnerAnswers.CallerGetsItsResult | harmony/nearby/session_owner_v2.cpp:175-178 | once a command was served with a result, its caller has that result in every later state |
| OwnerAnswers.ServedOnce | harmony/nearby/session_owner_v2.cpp:162-179 | a command is served at most once in a run |
| OwnerAnswers.ResultHasCause | harmony/nearby/session_owner_v2.cpp:91-104 | every result is what the step that served the command returned, or CLOSED from a shutdown that found it queued |
| OwnerAnswers.CallAcceptedIff | harmony/nearby/session_owner_v2.cpp:246-258 | a call is queued if and only if no shutdown was requested and fewer than 8 wait; otherwise CLOSED or BACKPRESSURE and nothing changes |
| OwnerAnswers.PostAcceptedIff | harmony/nearby/session_owner_v2.cpp:27-36 | a task is queued if and only if the executor is open and fewer than 64 wait; otherwise nothing changes |
| OwnerAnswers.ArmAcceptedIff | harmony/nearby/session_owner_v2.cpp:37-56 | a timer is armed as asked if and only if its id is not zero, nothing is closed and its id is known or there is room; otherwise nothing changes |
| OwnerAnswers.CancelAcceptedIff | harmony/nearby/session_owner_v2.cpp:57-70 | a cancel takes the timer out if and only if its id is not zero and the executor is open |
| OwnerAnswers.QueueIsFifo | harmony/nearby/session_owner_v2.cpp:112-117 | the tasks posted are those run from the queue, the one in hand and those still queued, in that order |
| OwnerAnswers.ServedInOrder | harmony/nearby/session_owner_v2.cpp:166-168 | commands are served in the order of their calls |
| OwnerAnswers.SampleJudges | harmony/nearby/session_owner_v2.cpp:135-144 | a sample retires every timer of another boot, readies every timer it has reached, and leaves the others armed |
| OwnerAnswers.DueTimerFires | harmony/nearby/session_owner_v2.cpp:125-148 | a timer whose deadline a sample of its boot has reached has run by the time the worker goes on, and one of another boot has been released |
| OwnerAnswers.DrainStopsRightly | harmony/nearby/session_owner_v2.cpp:112-117 | a drain runs at most 64 tasks, and fewer only if the queue was empty |
| OwnerAnswers.TimersBeforeCommands | harmony/nearby/session_owner_v2.cpp:162-168 | the worker chooses a command only after it has looked at its timers |
| OwnerAnswers.SealsAfterDestroy | harmony/nearby/session_owner_v2.cpp:181-210 | the executor of a created owner closes only after the engine agreed to be destroyed |
| OwnerSignals.SignalsStep | harmony/nearby/session_owner_v2.cpp:27-104 | every step keeps a notification on its way to each thread asleep on a condition that holds |
| OwnerProgress.NoLostWakeup | harmony/nearby/session_owner_v2.cpp:170-172 | in every reachable state a worker, caller, creating or closing thread asleep on a condition that holds has a notification on its way |
| OwnerProgress.OwedRouses | harmony/nearby/session_owner_v2.cpp:91-104 | an owed notification can be given, and then nobody is asleep |
| OwnerProgress.QuietMeansServed | harmony/nearby/session_owner_v2.cpp:162-180 | when no step is left the worker has exited or waits with nothing to do, every accepted call has returned with its result, and nobody waits for what has already come |
| OwnerProgress.ShutdownIsBounded | harmony/nearby/session_owner_v2.cpp:181-210 | after shutdown was requested the worker takes a bounded number of steps for each BUSY answer, however many calls arrive |
| OwnerProgress.ShutdownEnds | harmony/nearby/session_owner_v2.cpp:329-341 | with no further calls and no BUSY answer a shutdown ends within a measure, and where it ends the worker has exited and every caller and closing thread has been let go |
| Scheduler.NewScheduler | core/video/temporal_scheduler.cpp:9-15 | rates are refused unless 0 < source <= display |
| Scheduler.TemporalScheduler.Advance | core/video/temporal_scheduler.cpp:17-33 | the new fields and slot of one advance; a slot is REAL exactly when the real count grows |
| Scheduler.TemporalScheduler.AdvanceAt | core/video/temporal_scheduler.cpp:35-78 | the new fields and slot of one timestamp, with both kinds of discontinuity; Discontinuity says what these do over any calls |
| Scheduler.TemporalScheduler.AdvanceSourceFrame | core/video/temporal_scheduler.cpp:80-88 | the new fields and the one or two slots of a source frame |
| Scheduler.TemporalScheduler.Reset | core/video/temporal_scheduler.cpp:90-100 | everything is as in a new scheduler, except a previous kind that nothing reads |
| Cadence.PhaseIsFraction | core/video/temporal_scheduler.cpp:17-78 | under every sequence of calls the phase stays in [0, 1) |
| Cadence.AdvancesDoNotDrift | core/video/temporal_scheduler.cpp:17-33 | n advances from any phase give floor(phase + n * source / display) REAL slots and keep the exact fraction |
| Cadence.CadenceIsExact | core/video/temporal_scheduler.cpp:17-33 | real slots plus phase is n * source / display |
| Cadence.WindowsAreBalanced | core/video/temporal_scheduler.cpp:17-33 | any w consecutive slots hold floor or ceil of w * source / display REAL ones, whatever came before |
| Cadence.RepeatsFollowTheRatio | core/video/temporal_scheduler.cpp:27-29 | a repeated kind is only ever the one the ratio has more of |
| Cadence.TimestampsConserveTime | core/video/temporal_scheduler.cpp:54-77 | over any continuous stretch elapsed source frames are the REAL slots, the change of phase, and one frame for each timestamp that brings the phase to exactly two |
| Cadence.DoubleStepLosesFrame | core/video/temporal_scheduler.cpp:58-70 | after calls that reach phase one half, a timestamp one and a half source frames later shows one frame and keeps nothing |
| Cadence.ClampIsIdentity | core/video/temporal_scheduler.cpp:82-84 | under the double rate the clamp never acts |
| Cadence.SlotsDoNotDrift | core/video/temporal_scheduler.cpp:80-88 | under the double rate n frames from any phase get floor(phase + n * display / source) slots, and adjustments are 2n minus that |
| Cadence.SlotTotalIff | core/video/temporal_scheduler.cpp:80-88 | from a fresh scheduler the total is 1 + floor(n * display / source) if and only if display < 2 * source; otherwise it is 2n |
| Cadence.ResetIsFresh | core/video/temporal_scheduler.cpp:90-100 | after a reset every sequence of calls behaves as on a new scheduler |
| Cadence.CoursesAreIndependent | core/video/temporal_scheduler.cpp:17-100 | source frames and display slots do not interfere: each behaves as if the calls of the other kind had not been made |
| Cadence.PreviousIsLastKind | core/video/temporal_scheduler.cpp:27-32 | the kind a slot is compared with is that of the slot before it, since the last reset |
| Cadence.ElapsedIs | core/video/temporal_scheduler.cpp:54-57 | elapsed frames are nanoseconds times the source rate over 10^9, exactly |
| Discontinuity.FirstTimestamp | core/video/temporal_scheduler.cpp:36-43 | the first timestamp since a reset shows a REAL slot and leaves the phase alone |
| Discontinuity.BreakRestarts | core/video/temporal_scheduler.cpp:44-52 | a timestamp that goes back, or leaps beyond two source frames, shows one REAL slot, is counted and leaves phase zero |
| Discontinuity.BreakIsFreshStart | core/video/temporal_scheduler.cpp:44-65 | after such a break every sequence of calls gives the slots and phases of a new scheduler whose first timestamp it was |
| Discontinuity.CountersAreRight | core/video/temporal_scheduler.cpp:35-78 | after any calls the discontinuity counter is the number of breaks since the last reset, and every slot was counted once |
| AudioClock.SamplesForNextFrame | core/src/nes_audio_clock.hpp:6-13 | whole samples and next remainder split rate / fps plus the remainder exactly |
| AudioClock.Core.RunFrames | core/src/nes_core.cpp:910-989 | a call runs the first frames that fit, hands out floor(start + n * rate / fps) samples, keeps the exact fraction, restarts on a mode change, is refused on an empty frame, and without a buffer leaves even the counts of the caller alone |
| AudioClock.Core.SetAudioFormat | core/src/nes_core.cpp:1133-1160 | a format is accepted in mono between 44100 and 96000 Hz and drops the remainder; otherwise nothing changes |
| AudioClock.Core.LoadClock | core/src/nes_core.cpp:1344-1352 | a load installs the saved clock when the machine accepted the state, and otherwise leaves it |
| AudioClock.ClockStaysValid | core/src/nes_core.cpp:1271-1282 | over every history the remainder stays a fraction, and zero while no mode is set |
| AudioClock.NeverRefusedIff | core/src/nes_core.cpp:957-960 | no frame is empty from any remainder if and only if the rate is at least the frame rate |
| AudioClock.RefusedRanNothingIff | core/src/nes_core.cpp:957-960 | a refused call ran no frame if and only if its remainder and the samples of a frame add up to less than one |
| AudioClock.CanHideFramesIff | core/src/nes_core.cpp:957-960 | a refused call can hide frames it ran if and only if the rate is positive and below the frame rate |
| AudioClock.TotalsIgnoreSplitting | core/src/nes_core.cpp:954-983 | samples over any split into calls and buffers are floor(start + N * rate / fps), and the same remainder is left |
| AudioClock.TotalFromZero | core/src/nes_core.cpp:929-983 | from a zero remainder the total is N * rate * denominator / numerator in integer division |
| AudioClock.FullBufferLosesNothing | core/src/nes_core.cpp:961-963 | a call stopped by a full buffer consumes nothing of the frame that did not fit |
| AudioClock.CallIsDetermined | core/src/nes_core.cpp:929-989 | rate and clock alone decide what a call does |
| AudioClock.LastResultIs | core/src/nes_core.cpp:954-989 | the emulator result of a call is zero if and only if every frame gave zero, and otherwise that of the last frame that did not |
| AudioClock.LoadReplaysTheFuture | core/src/nes_core.cpp:1344-1352 | in one history, loading at a later moment the clock of an earlier one gives the same requests the same frames and samples |
| SavedClock.AcceptedIffValid | core/src/nes_state.cpp:69-75 | the container accepts a clock if and only if its mode is known and the core would call what it restores valid |
| SavedClock.SaveIsNeverRefused | core/src/nes_core.cpp:1271-1282 | at every moment of every history a save is not refused for its clock |
| SavedClock.SaveLoadRoundTrip | core/src/nes_core.cpp:1271-1352 | save, wrap, unwrap and load bring back the raw state, the remainder and the mode, for ordinary and canonical copies |
| SavedClock.LoadedClockIsValid | core/src/nes_core.cpp:1344-1352 | whatever container is accepted, the clock it installs is a valid one |
| SavedClock.SaveLoadChangesNothing | core/src/nes_core.cpp:1271-1352 | a container written at one moment and loaded at a later one changes no later frame count and no later sample count |
| AudioClock.RefusalHidesFrames | core/src/nes_core.cpp:957-960 | a refused call that ran a frame and reports none |
| Bytes.PutLittle | core/src/nes_state.cpp:29-41 | the bytes of the number are in place and no other byte changed |
| Bytes.GetLittle | core/src/nes_state.cpp:43-57 | the value read is the number the bytes denote |
| Bytes.NumberOfLittle | core/src/nes_state.cpp:29-57 | a number that fits is read back from its bytes |
| Bytes.LittleOfNumber | core/src/nes_state.cpp:29-57 | bytes are determined by the number they denote |
| Bytes.AllZero | core/src/nes_state.cpp:59-67 | true if and only if every byte is zero |
| StateContainer.Wrap | core/src/nes_state.cpp:85-122 | which calls are refused, the exact size asked for, and on success a buffer that starts with the container and is otherwise untouched |
| StateContainer.WritesAssemble | core/src/nes_state.cpp:106-118 | zeroing, header, payload and late checksum, in that order, leave the container |
| StateContainer.Unwrap | core/src/nes_state.cpp:124-188 | the reader's outcome for any bytes, with the order of its checks |
| ContainerLaws.RoundTrip | core/src/nes_state.cpp:85-188 | unwrapping a wrapped state gives back the raw bytes and the clock bits, or the ROM mismatch |
| ContainerLaws.PrefixIsCorrupt | core/src/nes_state.cpp:138-159 | every proper prefix of at least 8 bytes is corrupt; a shorter one is taken for a legacy state |
| ContainerLaws.ExtensionIsCorrupt | core/src/nes_state.cpp:155-159 | every extension is corrupt |
| ContainerLaws.PayloadChangeIsNoticed | core/src/nes_state.cpp:162-165 | a changed payload of the same length is refused if and only if its checksum differs |
| ContainerLaws.AcceptedIff | core/src/nes_state.cpp:150-187 | a version 2 container is accepted with a raw state and a clock if and only if it is assembled from them |
| ContainerLaws.AcceptedIsWrapped | core/src/nes_state.cpp:106-118 | an accepted version 2 container is what the writer makes of its parts except at offsets 12 to 27 and 68 |
| FormatLaws.WrittenHeader | core/src/nes_state.hpp:14-24 | a written container is 93 bytes and the raw state long and begins with "FLYNST1", version 2 and "1.53.2", padded with zeros |
| FormatLaws.FormReads | core/src/nes_state.cpp:138-188 | the outcome for a header with any version, length, hash and checksum, the checks in their order |
| FormatLaws.EveryInputHasForm | core/src/nes_state.cpp:138-159 | every input of header size that shows the magic is such a header and a payload |
| FormatLaws.LegacyIff | core/src/nes_state.cpp:138-149 | bytes are taken for a legacy state if and only if there are some and they do not begin with the magic |
| FormatLaws.UnsupportedIff | core/src/nes_state.cpp:150-154 | a version is refused as unsupported if and only if it is neither 1 nor 2 |
| FormatLaws.OldReads | core/src/nes_state.cpp:155-188 | a version 1 container gives back its raw state from offset 81 and the initial clock, or the ROM mismatch |
| FormatLaws.OldAcceptedIff | core/src/nes_state.cpp:155-188 | a version 1 container is accepted with a raw state if and only if it is the one written for it, under an accepted hash |
| FormatLaws.ShaAcceptedIff | core/src/nes_state.cpp:166-173 | a stored hash is accepted if and only if it is blank or equals that of the ROM digit by digit |
| Binary64.FractionIff | core/src/nes_state.cpp:69-75 | the test on the 64 bits is the test on the number they stand for: finite, at least zero and below one |
| SavedClock.BinaryIsReading | core/src/nes_state.cpp:69-75 | binary64 is a reading of bits as this project uses it |
| SavedClock.StoredAs | core/src/nes_core.cpp:1270-1284 | the mode is stored as 0, 1 or 2 and the bits as they are, except that a canonical copy writes one zero |
| Streams.MemOStream.Overflow | core/src/nes_stream.cpp:86-110 | one byte written at the cursor, or a recorded overflow |
| Streams.MemOStream.Xsputn | core/src/nes_stream.cpp:112-138 | a block written at the cursor whole, or not at all |
| Streams.MemOStream.Seekoff | core/src/nes_stream.cpp:140-164 | the cursor moves anywhere within the capacity |
| Streams.GrowableOStream.Overflow | core/src/nes_stream.cpp:196-205 | one byte written at the cursor, growing if need be |
| Streams.GrowableOStream.Xsputn | core/src/nes_stream.cpp:207-217 | a block written at the cursor, growing if need be |
| Streams.GrowableOStream.Seekoff | core/src/nes_stream.cpp:219-240 | the cursor moves anywhere within the data |
| Streams.GrowingWriteIs | core/src/nes_stream.cpp:196-217 | a write puts its bytes at the cursor, moves the cursor behind them and keeps every other byte |
| Streams.CappedWriteIs | core/src/nes_stream.cpp:86-138 | the same in the buffer if the bytes fit; otherwise only the overflow mark and the demand change |
| Streams.SeekIs | core/src/nes_stream.cpp:140-164 | a seek goes so far from the start, the cursor or the end, if that lies in the capacity or the data, and else nowhere |
| Streams.CappedFollowsGrowable | core/src/nes_stream.cpp:86-164 | on runs whose seeks the growable stream accepts, the capped one overflows if and only if the uncapped size exceeds its capacity, and agrees byte for byte until then |
| Streams.FirstOverflowIsExact | core/src/nes_stream.cpp:112-126 | at the first overflow the size asked for is the uncapped size and nothing of the failed write is stored |
| Streams.SuccessReportsSize | core/src/nes_stream.cpp:130-136 | without overflow the size reported is the exact one |
| Streams.DemandIsExactIff | core/src/nes_stream.cpp:91-99 | from any state the size asked for is exact if and only if the write is not a single byte beyond the end |
| Streams.PutPastEndUnderstates | core/src/nes_stream.cpp:91-99 | a run that asks for 1 byte where 11 are needed |
| Layout.ReadBounded | shared/src/app/layout_persist.cpp:76-109 | a file is read if and only if it opens, every byte can be read and there are at most 65536, and then it is read whole |
| Layout.Load | shared/src/app/layout_persist.cpp:258-284 | under any faults of its probes and reads, load reads the live file, else the backup, else gives the recommended layout |
| Layout.LoadLooksRightIff | shared/src/app/layout_persist.cpp:258-284 | faults leave a load where it should look if and only if the file that counts is seen and read; the backup shows in place of a live file exactly when the probe of that file fails and the backup can be read |
| Layout.Files.ReplaceLive | shared/src/app/layout_persist.cpp:126-153 | the disks the replacement passes through, and when it succeeds |
| Layout.Files.Save | shared/src/app/layout_persist.cpp:286-307 | the disks a save passes through under any faults, and when it returns true |
| Layout.CrashConsistent | shared/src/app/layout_persist.cpp:126-153 | unless a stale backup is restored, a crash after any step leaves the old or the new layout, true means new and false means old |
| Layout.PromiseBrokenIff | shared/src/app/layout_persist.cpp:131-151 | a save breaks its promise if and only if it restores a stale backup that loads differently |
| Layout.StaleBackupOverwritesLive | shared/src/app/layout_persist.cpp:131-151 | such a save exists |
| Layout.SuccessLeaves | shared/src/app/layout_persist.cpp:126-153 | a successful save leaves the new layout live, the live file it saw as the backup, and no temporary file |
| Layout.FailureLeaves | shared/src/app/layout_persist.cpp:131-151 | a failed save leaves no temporary file that it can remove, and the live file in its place unless it was set aside and could not be put back |
| Layout.FailureAndBackup | shared/src/app/layout_persist.cpp:131-151 | what becomes of the backup in every failed save |
| Layout.LastGoodSurvives | shared/src/app/layout_persist.cpp:258-307 | over every sequence of saves and crashes load gives the last layout whose save returned true, or one whose own later save was cut off |
| Utf8.IsValidUtf8 | shared/src/app/layout_persist.cpp:155-240 | the loop accepts exactly the well-formed texts without NUL |
| Utf8.ValidIffEncoding | shared/src/app/layout_persist.cpp:160-240 | a text is accepted if and only if it encodes some sequence of non-NUL scalar values |
| Utf8.HighLowAreDivMod | core/src/nes_core.cpp:107-132 | the fields of a code point are its shifts by six bits and their masks |
| Utf8.DecodeEncode | core/src/nes_core.cpp:107-132 | scalars encode to valid text that decodes to them |
| Utf8.EncodeDecode | shared/src/app/layout_persist.cpp:160-240 | valid text is the encoding of what it decodes to |
| Utf8.WideToUtf8 | core/src/nes_core.cpp:95-135 | surrogates are dropped, the longest prefix that fits is stored and terminated, and the rest of the buffer is untouched |
| Utf8.WideTextIsLongest | core/src/nes_core.cpp:95-135 | that text is valid, decodes to the prefix, and no longer prefix fits |
| Utf8.KeepSplits | core/src/nes_core.cpp:101-105 | exactly the surrogates are dropped and the order stays |
| Utf8.FourBytesHold | core/src/nes_core.cpp:125-132 | four bytes hold the low 22 bits of any larger number, valid or not |
| Utf8.BoundedName | harmony/nearby/content_port_v2.cpp:19-23 | the name is cut at the last place up to 64 bytes that is not followed by a continuation byte |
| Utf8.BoundaryIff | harmony/nearby/content_port_v2.cpp:19-23 | in valid text those places are exactly the ends of valid prefixes |
| Utf8.BoundedNameIsLongest | harmony/nearby/content_port_v2.cpp:19-23 | a bounded valid name is its longest valid prefix of at most 64 bytes, and only an empty one becomes a question mark |

## Left out

- Nestopia, zlib, quinn, rustls and Tokio: foreign code. Emulator results, transport outcomes and engine results are nondeterministic, and the checksum is any function of the payload.
- Release of the provider: it shuts the runtime down in the background, so the callback theorems are about runs before it.
- Poisoned locks and panics in the provider's supervisor, and running out of memory anywhere: not modelled.
- Locks: each critical section is one atomic step. The two locks of the provider are only nested phase before tables, so no deadlock is hidden by this.
- The bytes of a provider completion: only its code and its handles are modelled.
- Memory layout of the concurrent components: the QUIC provider and the session owner are transition systems over values, not objects, because several threads change them; aliasing of their tables is not modelled.
- Timed waits of the session owner: they end by themselves, so they are turns of the worker loop and their durations are not modelled. Reading notices and the content port are left out.
- Rounding of binary floating point: phases, rates and remainders are exact reals.
- Width of frame coordinates, timestamps and costs: frames are taken to fit 32-bit arithmetic, and output is taken not to alias A or B.
- Slot and frame counters of 64 bits, and 32-bit sample counts: unbounded.
- Null pointers of the C interface other than pixel pointers and the container's output buffer: rejected before anything modelled here happens.
- AudioClock.Core.RunFrames: emulation and video output are not modelled; the emulator is taken to fill the samples it is asked for, as its documentation says.
- Layout.CrashConsistent: assumes an atomic rename, regular files, a normalisation that is idempotent and within the bound of the reader, and a load without faults of its own; the layout codec itself is not part of this model.
- SavedClock: the arithmetic of binary64; which bits stand for which number is modelled, and the bits a core holds are any bits that read as its remainder.
- Streams: the flags of the C++ stream above the buffer, and what happens after the first overflow.
- The input generation bridge, direction input, playback clock, cheats, catalog, session engine, user interfaces and build tools: small, foreign to the visible source, or without properties that span operations.
