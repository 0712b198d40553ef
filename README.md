# Scheduler simulator dispatcher, modelled in Dafny

This project models the core of a Java scheduler simulator: a single-processor
dispatcher (`PrManager`) with a logical clock. It feeds process records through
four named queues (SUBMIT, HQ1, HQ2, READY). A resource manager
(`OtherKerServices`) reserves memory and devices for each record. One of three
scheduling policies sets how long each run lasts: first-come first-served,
static round robin with a fixed quantum, or dynamic round robin. A fresh
dynamic policy's first slice runs the whole burst. After that, each dynamic
slice is the rounded average remaining burst over the selected record and the
records still in READY.

The model is built in layers:

- `basics.dfy` has `Option` and integer `Max`/`Min`.
- `process.dfy` defines the process record. It is a value; a burst or state
  change produces a new value.
- `resources.dfy` holds the resource manager in two forms:
  - value functions over counters: `GrantBoth` and `ReturnBoth`;
  - the class `OtherKerServices`. Its `Allocate` and `Release` are proved to
    update the counters exactly as `GrantBoth` and `ReturnBoth` say. The
    single-resource methods (`AllocateMemory`, `DeallocateMemory`,
    `ReserveDevices`, `ReleaseDevices`) state their new counters in closed form
    in their own contracts.
- `queue.dfy` defines the queue contents as a value function `Enqueued`. It
  inserts in sorted order for HQ1 and appends for the others. The class `Queue`
  holds a `seq` field, and its `Enqueue` is the source's linear scan as a loop.
- `scheduler.dfy` defines the policies as a datatype `Policy`. The pure slice
  function is `TimeSlice`. `ComputeTimeSlice` is a method that sums the READY
  snapshot in a loop. It returns the slice together with the policy's updated
  bookkeeping (the dynamic policy's first-slice flag, SR and AR).
- `dispatch_model.dfy` describes the whole dispatcher as a value `Sys`, with
  one function per step:
  - `Arrive` (arrival), `Route` (routing), `Drain` (draining SUBMIT);
  - `Sweep` with `Promote1`/`Promote2` (the hold-queue admission sweep);
  - `Schedule`/`MaybeSchedule` (starting a run), `Settle` (completion or
    preemption);
  - `DispatchLoop`/`Dispatch` (the event loop) and `Advance` (advancing the
    clock).

  It also defines the invariant `Inv`.
- `dispatch_proofs.dfy` proves properties of that value model:
  - every step keeps `Inv`, so the counters always equal the reservations of
    READY and the running record, and HQ1 stays sorted;
  - the clock never moves backwards;
  - the drain routes every SUBMIT record into a queue, and the sweep only
    moves hold-queue heads, HQ1 first, and loses no record;
  - dispatch ends quiescent and is idempotent;
  - run lengths are exact and bounded;
  - arrivals are routed as enumerated, and completion statistics are correct.
- `pr_manager.dfy` is the class `PrManager`. Its methods mirror the source's
  methods. `ScheduleNext` states its effect field by field. Every other
  state-changing method is proved to change the object exactly as the matching
  `DispatchModel` function changes its abstraction `Abs()`. The public entry
  points also keep `Valid()`: the queues are distinct and correctly named, and
  `Inv(Abs())` holds.
- `scenarios.dfy` proves two worked runs. One is a two-job FCFS run, proved
  both on values and through the objects. The other is a run in which a job
  waits in HQ2 until memory is released.

A clock value, an identifier, a burst and a requirement are all unbounded
integers here. The source uses Java `long`/`int`; see "Left out".

HQ1 is sorted by memory, with ties broken first-in first-out by arrival
(the source's comments at `src/Queue.java:7` and `src/Queue.java:24`). The
insertion test at `src/Queue.java:28-30` asks for a *strictly* later arrival.
So a new record whose memory and arrival equal those of a queued record goes
*behind* it, and the insertion is stable (`Queues.HoldEnqueueIsStable`).

## Model

| member | source | states |
|---|---|---|
| ProcessRecord.Process.WithBurstTime | src/Process.java:29-30 | setBurstTime: the new record has the given burst and every other field unchanged |
| ProcessRecord.Process.WithState | src/Process.java:41-42 | setState: the new record has the given state and every other field unchanged |
| Resources.GrantMemory | src/OtherKerServices.java:15-20 | allocateMemory on counter values; no contract of its own, its meaning as part of allocate is stated by GrantBoth |
| Resources.GrantDevices | src/OtherKerServices.java:28-33 | reserveDevices on counter values; meaning stated by GrantBoth |
| Resources.ReturnMemory | src/OtherKerServices.java:22-25 | deallocateMemory on counter values; meaning stated by ReturnBoth |
| Resources.ReturnDevices | src/OtherKerServices.java:35-38 | releaseDevices on counter values; meaning stated by ReturnBoth |
| Resources.FitsTotals | src/OtherKerServices.java:60-63 | canEverFit on the totals; meaning stated by OtherKerServices.CanEverFit and GrantImpliesFits |
| Resources.GrantBoth | src/OtherKerServices.java:15-53 | allocate(p) succeeds iff both requirements are positive and fit in what is free; on success both counters grow by the requirements; on failure (memory rolled back) the counters are unchanged |
| Resources.ReturnBoth | src/OtherKerServices.java:22-58 | release(p): each counter drops by its requirement, clamped at 0, and is untouched for a non-positive requirement |
| Resources.GrantBothKeepsBounds | src/OtherKerServices.java:42-53 | an allocation, successful or not, keeps 0 <= in-use <= total for both resources |
| Resources.ReturnBothKeepsBounds | src/OtherKerServices.java:55-58 | a release keeps 0 <= in-use <= total for both resources |
| Resources.GrantBothRejectsNonPositive | src/OtherKerServices.java:15-33 | a zero or negative memory or device request is refused and changes nothing |
| Resources.GrantThenReturn | src/OtherKerServices.java:42-58 | releasing what a successful allocation reserved restores the counters exactly |
| Resources.GrantImpliesFits | src/OtherKerServices.java:60-63 | whatever can be allocated now also passes canEverFit |
| Resources.OtherKerServices.constructor | src/OtherKerServices.java:9-12 | totals are clamped to at least 0 and nothing is in use |
| Resources.OtherKerServices.AllocateMemory | src/OtherKerServices.java:15-20 | succeeds iff 0 < amount and it fits in the free memory; memory in use grows by the amount exactly then; devices untouched |
| Resources.OtherKerServices.DeallocateMemory | src/OtherKerServices.java:22-25 | memory in use drops by a positive amount, clamped at 0; devices untouched |
| Resources.OtherKerServices.ReserveDevices | src/OtherKerServices.java:28-33 | succeeds iff 0 < n and n devices are free; devices in use grow by n exactly then |
| Resources.OtherKerServices.ReleaseDevices | src/OtherKerServices.java:35-38 | devices in use drop by a positive n, clamped at 0 |
| Resources.OtherKerServices.Allocate | src/OtherKerServices.java:42-53 | the returned flag and the new counters are GrantBoth's; on failure the counters are as before |
| Resources.OtherKerServices.Release | src/OtherKerServices.java:55-58 | the new counters are ReturnBoth of the old ones |
| Resources.OtherKerServices.CanEverFit | src/OtherKerServices.java:60-63 | true iff both requirements fit the totals, whatever is in use |
| Resources.OtherKerServices.GetFreeMemory | src/OtherKerServices.java:67 | free + in use = total, and free lies between 0 and the total while the counters are valid |
| Resources.OtherKerServices.GetFreeDevices | src/OtherKerServices.java:68 | free + in use = total, and free lies between 0 and the total while the counters are valid |
| Queues.NormaliseType | src/Queue.java:14 | a null type becomes "FIFO", any other is upper-cased; meaning stated by NormalisedHq1 and UpperFixed |
| Queues.Precedes | src/Queue.java:28-30 | the insertion test: smaller memory, or equal memory and strictly earlier arrival; meaning stated by InsertPos, EnqueueKeepsHoldOrder and HoldEnqueueIsStable |
| Queues.ToUpper | src/Queue.java:14 | same length, each character upper-cased (ASCII) |
| Queues.UpperFixed | src/Queue.java:14 | a name without lower-case letters is its own upper-casing |
| Queues.NormalisedHq1 | src/Queue.java:13-23 | a queue sorts iff its type is some spelling of h/H, q/Q, 1; an absent type never sorts |
| Queues.InsertPos | src/Queue.java:23-36 | the scan's insertion point: no earlier record is one the new record precedes, and the record at the point is one it precedes (or the point is the end) |
| Queues.Enqueued | src/Queue.java:20-41 | one more record, the new one at its position, prefix and suffix unchanged, contents = old contents plus the new record |
| Queues.FifoEnqueueAppends | src/Queue.java:37-40 | for every type but HQ1, enqueue appends at the tail |
| Queues.EnqueuedMembers | src/Queue.java:20-41 | after enqueue a record is present iff it was present before or is the new one |
| Queues.EnqueueKeepsHoldOrder | src/Queue.java:23-36 | the HQ1 insertion keeps the queue sorted by (memory, arrival) |
| Queues.HoldEnqueueIsStable | src/Queue.java:28-30 | a queued record with the same memory and arrival as the new one stays in front of it |
| Queues.EnqueueThenDequeueFifo | src/Queue.java:39-45 | for FIFO queues, dequeue after enqueue equals enqueue after dequeue |
| Queues.Queue.constructor | src/Queue.java:13-15 | the type is the normalised name and the queue is empty |
| Queues.Queue.Enqueue | src/Queue.java:20-41 | the linear scan leaves exactly Enqueued(type, old contents, p) |
| Queues.Queue.Dequeue | src/Queue.java:44-46 | an empty queue gives none and stays empty; otherwise the head is returned and removed |
| Queues.Queue.Peek | src/Queue.java:49 | the head without removal, none when empty |
| Queues.Queue.IsEmpty | src/Queue.java:50 | true iff there are no records |
| Queues.Queue.Size | src/Queue.java:51 | the number of records |
| Queues.Queue.Snapshot | src/Queue.java:52 | the records in queue order |
| Scheduling.NewStaticRR | src/SRoundRobinScheduler.java:4-6 | the quantum is the given one, or 1 when that is below 1 |
| Scheduling.NewDynamicRR | src/DRoundRobinScheduler.java:5-7 | a fresh dynamic policy: first-slice flag set, SR = AR = 0 |
| Scheduling.RoundHalfUpIsNearest | src/DRoundRobinScheduler.java:36 | the integer rounding of sum/cnt is the nearest integer, halves rounded up |
| Scheduling.SliceAtLeastOne | src/DRoundRobinScheduler.java:21-36 | every policy's slice is at least one tick |
| Scheduling.FcfsRunsToCompletion | src/FCFScheduler.java:9-13 | the FCFS slice is max(1, remaining burst), so it covers the whole burst, and the policy has no state |
| Scheduling.StaticSliceIsQuantum | src/SRoundRobinScheduler.java:14-16 | the static slice is the quantum whatever the record and READY |
| Scheduling.DynamicFirstSlice | src/DRoundRobinScheduler.java:17-22 | the first dynamic slice is max(1, remaining burst) and resets SR, AR and the flag |
| Scheduling.DynamicLaterSlice | src/DRoundRobinScheduler.java:24-38 | later dynamic slices: SR = selected burst + READY's bursts, slice = AR = max(1, RoundHalfUp(SR, READY size + 1)), which lies within one half of SR / (READY size + 1) when above 1; the flag stays cleared |
| Scheduling.DynamicFlagStaysCleared | src/DRoundRobinScheduler.java:18-19 | once a dynamic slice is computed the first-slice flag stays cleared |
| Scheduling.SelectNextProcess | src/FCFScheduler.java:4-6 | every policy picks the head of READY and removes it; none for an empty READY |
| Scheduling.TimeSlice | src/DRoundRobinScheduler.java:15-39 | computeTimeSlice of all three policies (also src/FCFScheduler.java:9-13 and src/SRoundRobinScheduler.java:14-16); meaning stated by SliceAtLeastOne, FcfsRunsToCompletion, StaticSliceIsQuantum, DynamicFirstSlice and DynamicLaterSlice |
| Scheduling.ComputeTimeSlice | src/DRoundRobinScheduler.java:15-39 | the summing loop over the READY snapshot returns exactly TimeSlice's slice and next policy state |
| DispatchModel.Initial | src/PrManager.java:5-51 | the state of a new dispatcher: empty queues, idle slot ending at Long.MAX_VALUE, no counters in use, empty history; meaning stated by InitialInv and PrManager.constructor |
| DispatchModel.Arrive | src/PrManager.java:61-84 | procArrivalRoutine on values; meaning stated by ArrivalRouting and ArriveKeepsInv |
| DispatchModel.Promote1 | src/PrManager.java:173-180 | HQ1's head moves to the tail of READY; HQ2, SUBMIT and the slot are unchanged |
| DispatchModel.Promote2 | src/PrManager.java:182-189 | HQ2's head moves to the tail of READY; HQ1, SUBMIT and the slot are unchanged |
| DispatchModel.Route | src/PrManager.java:74-83 | routing touches neither SUBMIT nor the running slot, clock, policy or history |
| DispatchModel.Drain | src/PrManager.java:156-166 | after draining SUBMIT is empty and the running slot, clock, policy and history are unchanged |
| DispatchModel.Sweep | src/PrManager.java:168-192 | after the sweep neither hold queue's head can be allocated; SUBMIT, the slot and the history are unchanged |
| DispatchModel.Schedule | src/PrManager.java:126-131 | READY's head, in state 2, becomes the running record from the clock (lastDispatchAt = clock) and is removed from READY; the run ends strictly after the clock; the policy becomes TimeSlice's next state; counters, SUBMIT, holds and history unchanged |
| DispatchModel.MaybeSchedule | src/PrManager.java:126-131 | afterwards something runs or READY is empty; nothing changes when something already runs |
| DispatchModel.Settle | src/PrManager.java:202-232 | afterwards nothing runs; clock, totals, SUBMIT, holds, policy and bursts unchanged (each branch: CompletionStatistics, SettlePreempts) |
| DispatchModel.DispatchLoop | src/PrManager.java:133-153 | the loop ends with the clock at the target |
| DispatchModel.Dispatch | src/PrManager.java:120-154 | a target in the past changes nothing; otherwise the clock ends at the target |
| DispatchModel.Advance | src/PrManager.java:86-90 | a negative duration changes nothing; otherwise the clock moves forward by the duration |
| DispatchModel.FinishedUpTo | src/PrManager.java:247-261 | a job is in the snapshot iff it finished and completed by the bound; completion order is kept (multiplicity: FinishedUpToCounts) |
| DispatchProofs.FinishedUpToCounts | src/PrManager.java:249-258 | each job completed by the bound appears in the snapshot exactly as often as in the finished list; later jobs do not appear |
| DispatchProofs.DemandAppend | src/PrManager.java:223 | reservations add up over concatenated queues |
| DispatchProofs.DemandNonNegative | src/OtherKerServices.java:42-53 | records with positive requirements reserve non-negative totals |
| DispatchProofs.ClockForward | src/PrManager.java:136-140 | moving the clock forward keeps the invariant apart from the run-end condition |
| DispatchProofs.AdmitKeepsAccounting | src/PrManager.java:75-76 | allocating and enqueueing to READY keeps counters = reservations of READY and the running record |
| DispatchProofs.RouteKeepsInv | src/PrManager.java:74-83 | routing a feasible record keeps the invariant (including HQ1 sorted) |
| DispatchProofs.ArriveKeepsInv | src/PrManager.java:61-84 | procArrivalRoutine keeps the invariant |
| DispatchProofs.DrainStepKeepsInv | src/PrManager.java:157-164 | routing one record from SUBMIT keeps the invariant |
| DispatchProofs.DrainKeepsInv | src/PrManager.java:156-166 | drainSubmitToSystem keeps the invariant |
| DispatchProofs.Promote1KeepsInv | src/PrManager.java:173-180 | moving an admissible HQ1 head to READY keeps the invariant |
| DispatchProofs.Promote2KeepsInv | src/PrManager.java:182-189 | moving an admissible HQ2 head to READY keeps the invariant |
| DispatchProofs.SweepKeepsInv | src/PrManager.java:168-192 | tryAdmitFromHolds keeps the invariant |
| DispatchProofs.ScheduleKeepsInv | src/PrManager.java:126-131 | starting a run keeps the invariant and the run ends after the clock |
| DispatchProofs.MaybeScheduleKeepsInv | src/PrManager.java:126-131 | scheduling when idle keeps the invariant |
| DispatchProofs.FinishKeepsAccounting | src/PrManager.java:211-225 | a completed record's release leaves counters = READY's reservations |
| DispatchProofs.RequeueKeepsAccounting | src/PrManager.java:227-231 | a preempted record keeps its reservation from the tail of READY |
| DispatchProofs.FinishKeepsHistory | src/PrManager.java:212-221 | appending a job completed now keeps the list ordered by completion, in the past, with turnaround = completion - arrival |
| DispatchProofs.SettleKeepsInv | src/PrManager.java:202-232 | completeOrPreemptRunning keeps the invariant |
| DispatchProofs.SettleFinishKeepsInv | src/PrManager.java:211-225 | the completion branch keeps the invariant |
| DispatchProofs.SettleRequeueKeepsInv | src/PrManager.java:227-231 | the preemption branch keeps the invariant |
| DispatchProofs.SettlePreempts | src/PrManager.java:205-231 | a run that leaves work over puts the record, burst cut by the elapsed slice and in state 1, at the tail of READY; the slot is emptied and nothing else changes (counters, history, holds) |
| DispatchProofs.DispatchLoopKeepsInv | src/PrManager.java:133-153 | the event loop keeps the invariant |
| DispatchProofs.DispatchKeepsInv | src/PrManager.java:120-154 | dispatch keeps the invariant |
| DispatchProofs.AdvanceKeepsInv | src/PrManager.java:86-90 | cpuTimeAdvance keeps the invariant |
| DispatchProofs.AdvanceIsDispatch | src/PrManager.java:86-90 | a non-negative advance is a dispatch to clock + duration |
| DispatchProofs.InitialInv | src/PrManager.java:14-51 | a fresh dispatcher over non-negative totals satisfies the invariant |
| DispatchProofs.ShiftHead | src/PrManager.java:176-177 | moving one hold head to READY extends the moved-heads relation |
| DispatchProofs.MovedSymmetric | src/PrManager.java:168-192 | the moved-heads relation does not depend on which hold queue is named first |
| DispatchProofs.MovedHeadsStep1 | src/PrManager.java:173-180 | one HQ1 promotion extends the moved-heads relation |
| DispatchProofs.MovedHeadsStep2 | src/PrManager.java:182-189 | one HQ2 promotion extends the moved-heads relation |
| DispatchProofs.SweepMovesOnlyHeads | src/PrManager.java:168-192 | the sweep removes prefixes of the hold queues and appends exactly their records to READY, which keeps its old prefix |
| DispatchProofs.RouteConserves | src/PrManager.java:74-83 | routing adds the record to exactly one queue and removes none |
| DispatchProofs.DrainConserves | src/PrManager.java:156-166 | draining moves every SUBMIT record into HQ1, HQ2 or READY: the multiset of waiting records is unchanged |
| DispatchProofs.SweepTriesHq1First | src/PrManager.java:173-180 | when HQ1's head can be allocated it is the first record the sweep appends to READY, ahead of anything from HQ2 |
| DispatchProofs.SweepIsHeadOnly | src/PrManager.java:173-189 | when neither head can be allocated nothing moves, whatever lies behind the heads |
| DispatchProofs.AdvanceNeverRewinds | src/PrManager.java:86-90 | cpuTimeAdvance never moves the clock backwards |
| DispatchProofs.DispatchLoopQuiescent | src/PrManager.java:133-153 | after the loop SUBMIT is empty, the holds are stuck, and a running slice ends after the target |
| DispatchProofs.DispatchEndsQuiescent | src/PrManager.java:120-154 | when dispatch returns, either nothing runs and READY is empty, or the slice ends after the clock; SUBMIT is empty and the holds are stuck |
| DispatchProofs.DispatchIdempotent | src/PrManager.java:120-154 | dispatching twice to the same target changes nothing the second time |
| DispatchProofs.AdvanceZeroAfterAdvance | src/PrManager.java:86-90 | an advance by zero right after an advance changes nothing |
| DispatchProofs.RunLength | src/PrManager.java:128-130 | a run lasts exactly max(1, min(remaining, slice)) ticks: at least 1, at most the slice, at most the remaining burst when positive, exactly the slice when the burst covers it |
| DispatchProofs.StaticRunAtMostQuantum | src/SRoundRobinScheduler.java:14-16 | under static round robin no run exceeds the quantum |
| DispatchProofs.FcfsCompletesInOneRun | src/FCFScheduler.java:9-13 | under FCFS the scheduled record completes at the end of its first run and never returns to READY |
| DispatchProofs.DynamicFirstRunCompletes | src/DRoundRobinScheduler.java:17-22 | the first record under a fresh dynamic policy runs its whole burst and completes |
| DispatchProofs.ArrivalRouting | src/PrManager.java:61-84 | arrival always records the burst; an infeasible record changes nothing else; a fitting one goes to READY with its reservation; otherwise it goes to HQ1 (priority 1) or the tail of HQ2 with the counters unchanged |
| DispatchProofs.CompletionStatistics | src/PrManager.java:209-223 | a completed job is recorded with completion = now, turnaround = now - arrival, waiting = turnaround - the burst recorded at arrival (0 when none was recorded, as getOrDefault gives), the slot is emptied, and its resources are returned |
| DispatchProofs.SnapshotUpToClock | src/PrManager.java:247-261 | the snapshot up to a bound reached by every job is the whole finished list |
| Dispatcher.KindsNormalised | src/PrManager.java:9-12 | the four queue names survive normalisation, so only HQ1 sorts |
| Dispatcher.SubmitNormalised | src/PrManager.java:9 | "SUBMIT" normalises to itself |
| Dispatcher.HoldsNormalised | src/PrManager.java:10-11 | "HQ1" and "HQ2" normalise to themselves |
| Dispatcher.ReadyNormalised | src/PrManager.java:12 | "READY" normalises to itself |
| Dispatcher.PrManager.constructor | src/PrManager.java:5-51 | the initial state: empty queues, idle processor, dynamic round robin, valid |
| Dispatcher.PrManager.SetScheduler | src/PrManager.java:53-55 | only the policy changes |
| Dispatcher.PrManager.ProcArrivalRoutine | src/PrManager.java:61-84 | the object becomes Arrive of its old abstraction and stays valid |
| Dispatcher.PrManager.RouteIncoming | src/PrManager.java:75-83 | the object becomes Route of its old abstraction |
| Dispatcher.PrManager.CpuTimeAdvance | src/PrManager.java:86-90 | the object becomes Advance of its old abstraction and stays valid |
| Dispatcher.PrManager.GetNextDecisionTime | src/PrManager.java:92-96 | 0 when idle or unbounded; otherwise the remaining ticks of the run, never negative |
| Dispatcher.PrManager.GetRunningProcId | src/PrManager.java:98-100 | the running record's id, -1 when idle |
| Dispatcher.PrManager.Dispatch | src/PrManager.java:120-154 | the loop leaves the object as the Dispatch function does |
| Dispatcher.PrManager.Refill | src/PrManager.java:144-152 | drain, sweep and start when idle: MaybeSchedule(Sweep(Drain(old))), with the run ending after the clock |
| Dispatcher.PrManager.DrainSubmitToSystem | src/PrManager.java:156-166 | the loop leaves the object as Drain does |
| Dispatcher.PrManager.TryAdmitFromHolds | src/PrManager.java:168-192 | the moved-flag loop leaves the object as Sweep does |
| Dispatcher.PrManager.AdmitHeadOf | src/PrManager.java:173-189 | moves the head iff it is admissible, exactly as Promote1/Promote2; otherwise nothing changes |
| Dispatcher.PrManager.ScheduleNext | src/PrManager.java:194-200 | READY's head becomes the running record in state 2 from now; an empty READY leaves the processor idle |
| Dispatcher.PrManager.StartRun | src/PrManager.java:126-131 | scheduleNext plus the slice: the object becomes Schedule of its old abstraction |
| Dispatcher.PrManager.CompleteOrPreemptRunning | src/PrManager.java:202-232 | the object becomes Settle of its old abstraction |
| Dispatcher.PrManager.GetFinishedJobsSnapshot | src/PrManager.java:247-261 | the filtering loop returns exactly FinishedUpTo(finished, bound) |
| Dispatcher.PrManager.GetTotalFinishedCount | src/PrManager.java:263-265 | the number of finished jobs |
| Scenarios.FcfsArrivals | src/PrManager.java:61-131 | two FCFS arrivals at 0: P1 runs until 8, P2 waits in READY, 10 memory and 8 devices reserved |
| Scenarios.FcfsRun | src/PrManager.java:133-232 | advancing to 20 completes P1 at 8 (waiting 0) and P2 at 11 (waiting 8), and leaves everything empty and released |
| Scenarios.FcfsTwoJobs | src/PrManager.java:61-265 | the whole FCFS run, including the snapshot at 20 |
| Scenarios.FcfsTwoJobsOnObjects | src/PrManager.java:48-265 | the same run driven through the objects returns the two finished jobs |
| Scenarios.AdmissionArrivals | src/PrManager.java:61-84 | with memory 10 the second 8-unit job, priority 2, waits in HQ2 |
| Scenarios.AdmissionStart | src/PrManager.java:120-131 | the first dynamic slice runs Q1 for its whole burst |
| Scenarios.AdmissionRelease | src/PrManager.java:202-225 | at 5 Q1 completes and releases its reservation |
| Scenarios.AdmissionReadmit | src/PrManager.java:144-152 | the same advance admits Q2 from HQ2 and starts it |
| Scenarios.AdmissionFinish | src/PrManager.java:133-153 | advancing to 5: Q1 finished, Q2 running, HQ2 empty |
| Scenarios.AdmissionAfterRelease | src/PrManager.java:61-232 | the whole admission run |

## Left out

- The simulation driver (`SimulationController`) is not part of this model. That covers command parsing, the report layout, sorting the finished table by id, and choosing the team-specific quantum. Everything it does is input/output around the dispatcher.
- `printSnapshot`, every `toString`, and the console message for an infeasible arrival are left out. They are output only; the infeasible record is still dropped as in the source.
- The `synchronized` qualifiers on the resource manager are left out. The model is sequential.
- Java `long`/`int` widths are left out, along with the `(int)` casts in the slice computation and `runningUntil` (`src/PrManager.java:130`). Integers are unbounded, so overflow and wrap-around are not modelled.
- Scheduling.RoundHalfUpIsNearest: `Math.round` on a `double` is modelled as exact rounding of the rational sum/cnt with halves rounded up. Floating-point error for very large sums is not modelled.
- Queues.ToUpper: `String.toUpperCase` is modelled for ASCII letters only. Locale-specific and non-ASCII case mapping are out of scope.
- `enqueue(null)` is a no-op in the source. Records are values here, so there is no null record.
- Records are held by value. The source shares one mutable `Process` object between the caller and the queues. Only the dispatcher ever updates it, through `setBurstTime`/`setState` on the running record, and the model applies those updates to its copy. Mutation through an outside alias is not modelled.
- The setters other than `setBurstTime`/`setState` (`src/Process.java:24-39`) are written as Dafny record updates. The dispatcher never calls them.
- `running.setState(4)` is left out (`src/PrManager.java:224`). It runs just before the object is dropped from the slot, so nothing in the dispatcher can observe it.
- `getSR`/`getAR` are left out. SR and AR are fields of the `DynamicRR` policy value.
- Plain getters are left out: `Queue.getSchType`, the resource manager's `getMemInUse`, `getDevsInUse`, `getMemorySize` and `getNoDevs`, and the four queue `get…Snapshot` methods of `PrManager`. Each reads a field directly (`schType`, the counters, the totals, or `q` through `Queue.Snapshot`).
- Dispatcher.PrManager.constructor: it requires a resource manager with nothing in use. The source builds both objects together, but a `PrManager` over a manager that already has reservations would break the accounting invariant from the start.
- Dispatcher.PrManager.Dispatch: its internal helpers (`Refill`, `DrainSubmitToSystem`, `TryAdmitFromHolds`, `StartRun`, `CompleteOrPreemptRunning`) state their effect on `Abs()` but not `Inv`. The invariant is carried over by `DispatchProofs` lemmas at the public entry points `ProcArrivalRoutine` and `CpuTimeAdvance`.
