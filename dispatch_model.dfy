/**
 * The dispatcher as a value: the whole state of a PrManager and one function
 * per operation. The class in module Dispatcher is proved against these
 * functions, and module DispatchProofs proves their properties.
 */
module DispatchModel {
  import opened Basics
  import opened ProcessRecord
  import opened Resources
  import opened Queues
  import opened Scheduling

  /** Long.MAX_VALUE, the initial slice end of an idle processor. */
  const LongMax: int := 0x7fff_ffff_ffff_ffff

  /** The normalised types of the four queues. */
  const SubmitKind: string := "SUBMIT"
  const Hold1Kind: string := "HQ1"
  const Hold2Kind: string := "HQ2"
  const ReadyKind: string := "READY"

  /** Statistics captured once, when a job completes. */
  datatype FinishedJob = FinishedJob(
    pid: int,
    arrivalTime: int,
    completionTime: int,
    turnaroundTime: int,
    waitingTime: int)

  /** Everything a PrManager and its resource manager hold. */
  datatype Sys = Sys(
    clock: int,
    caps: Caps,
    usage: Counters,
    submit: seq<Process>,
    hq1: seq<Process>,
    hq2: seq<Process>,
    ready: seq<Process>,
    running: Option<Process>,
    runningUntil: int,
    lastDispatchAt: int,
    policy: Policy,
    bursts: map<int, int>,
    finished: seq<FinishedJob>)

  /** A new dispatcher over a fresh resource manager. */
  function Initial(startTime: int, caps: Caps, policy: Policy): Sys {
    Sys(startTime, caps, Counters(0, 0), [], [], [], [], None, LongMax, 0, policy, map[], [])
  }

  /** `r` agrees with `s` on everything but the four queues and the usage counters. */
  ghost predicate SameSlot(s: Sys, r: Sys) {
    && r.clock == s.clock && r.caps == s.caps
    && r.running == s.running && r.runningUntil == s.runningUntil
    && r.lastDispatchAt == s.lastDispatchAt && r.policy == s.policy
    && r.bursts == s.bursts && r.finished == s.finished
  }

  /** allocate succeeds for `p` with the current usage. */
  predicate Admissible(s: Sys, p: Process) {
    GrantBoth(s.caps, s.usage, p.memoryReq, p.devReq).ok
  }

  /**
   * Admission of one record (arrival after the feasibility check, and the
   * submission drain): READY when allocate succeeds, else HQ1 for priority 1
   * and HQ2 otherwise. A failed allocate leaves the counters as they were.
   */
  function Route(s: Sys, p: Process): (r: Sys)
    ensures SameSlot(s, r) && r.submit == s.submit
  {
    if Admissible(s, p) then
      s.(usage := GrantBoth(s.caps, s.usage, p.memoryReq, p.devReq).after,
         ready := Enqueued(ReadyKind, s.ready, p))
    else if p.priority == 1 then s.(hq1 := Enqueued(Hold1Kind, s.hq1, p))
    else s.(hq2 := Enqueued(Hold2Kind, s.hq2, p))
  }

  /** procArrivalRoutine: record the original burst, drop an infeasible record, else route it. */
  function Arrive(s: Sys, p: Process): Sys {
    var s1 := s.(bursts := s.bursts[p.pid := p.burstTime]);
    if !FitsTotals(s.caps, p) then s1 else Route(s1, p)
  }

  /** drainSubmitToSystem: route every record of SUBMIT, head first, until SUBMIT is empty. */
  function Drain(s: Sys): (r: Sys)
    ensures SameSlot(s, r) && r.submit == []
    decreases |s.submit|
  {
    if s.submit == [] then s
    else Drain(Route(s.(submit := s.submit[1..]), s.submit[0]))
  }

  /** Move the head of HQ1 to the tail of READY, reserving its resources. */
  function Promote1(s: Sys): (r: Sys)
    requires s.hq1 != []
    ensures SameSlot(s, r) && r.submit == s.submit
    ensures r.hq1 == s.hq1[1..] && r.hq2 == s.hq2 && r.ready == s.ready + [s.hq1[0]]
  {
    var p := s.hq1[0];
    FifoEnqueueAppends(ReadyKind, s.ready, p);
    s.(usage := GrantBoth(s.caps, s.usage, p.memoryReq, p.devReq).after,
       hq1 := s.hq1[1..], ready := Enqueued(ReadyKind, s.ready, p))
  }

  /** Move the head of HQ2 to the tail of READY, reserving its resources. */
  function Promote2(s: Sys): (r: Sys)
    requires s.hq2 != []
    ensures SameSlot(s, r) && r.submit == s.submit
    ensures r.hq2 == s.hq2[1..] && r.hq1 == s.hq1 && r.ready == s.ready + [s.hq2[0]]
  {
    var p := s.hq2[0];
    FifoEnqueueAppends(ReadyKind, s.ready, p);
    s.(usage := GrantBoth(s.caps, s.usage, p.memoryReq, p.devReq).after,
       hq2 := s.hq2[1..], ready := Enqueued(ReadyKind, s.ready, p))
  }

  /** Neither hold queue's head can be allocated. */
  ghost predicate HoldsStuck(s: Sys) {
    && (s.hq1 != [] ==> !Admissible(s, s.hq1[0]))
    && (s.hq2 != [] ==> !Admissible(s, s.hq2[0]))
  }

  /**
   * tryAdmitFromHolds: in each round try the head of HQ1, and only if it did
   * not move the head of HQ2; stop after a round in which nothing moved.
   */
  function Sweep(s: Sys): (r: Sys)
    ensures SameSlot(s, r) && r.submit == s.submit
    ensures HoldsStuck(r)
    decreases |s.hq1| + |s.hq2|
  {
    if s.hq1 != [] && Admissible(s, s.hq1[0]) then Sweep(Promote1(s))
    else if s.hq2 != [] && Admissible(s, s.hq2[0]) then Sweep(Promote2(s))
    else s
  }

  /**
   * scheduleNext followed by the slice computation: the head of READY becomes
   * the running record (state 2) from the current clock, and its run ends at
   * clock + max(1, min(remaining burst, slice)).
   */
  function Schedule(s: Sys): (r: Sys)
    requires s.ready != []
    ensures r.clock == s.clock && r.caps == s.caps && r.usage == s.usage
    ensures r.submit == s.submit && r.hq1 == s.hq1 && r.hq2 == s.hq2
    ensures r.bursts == s.bursts && r.finished == s.finished
    ensures r.running.Some? && r.runningUntil > r.clock
    ensures r.running == Some(s.ready[0].WithState(StateRunning)) && r.ready == s.ready[1..]
    ensures r.lastDispatchAt == s.clock
    ensures r.policy == TimeSlice(s.policy, s.ready[0].WithState(StateRunning), s.ready[1..]).next
  {
    var p := s.ready[0].WithState(StateRunning);
    var t := TimeSlice(s.policy, p, s.ready[1..]);
    SliceAtLeastOne(s.policy, p, s.ready[1..]);
    s.(ready := s.ready[1..], running := Some(p), lastDispatchAt := s.clock,
       policy := t.next, runningUntil := s.clock + Max(1, Min(p.burstTime, t.slice)))
  }

  /** Start a run when the processor is idle and READY is not empty. */
  function MaybeSchedule(s: Sys): (r: Sys)
    ensures r.clock == s.clock && r.caps == s.caps && r.usage == s.usage
    ensures r.submit == s.submit && r.hq1 == s.hq1 && r.hq2 == s.hq2
    ensures r.bursts == s.bursts && r.finished == s.finished
    ensures r.running.Some? || r.ready == []
    ensures s.running.Some? ==> r == s
  {
    if s.running.None? && s.ready != [] then Schedule(s) else s
  }

  /**
   * completeOrPreemptRunning, at the end of a run: charge the elapsed time to
   * the running record (floored at zero); a finished record releases its
   * resources and leaves its statistics, any other goes back to the tail of
   * READY in state 1. The slot is empty afterwards.
   */
  function Settle(s: Sys): (r: Sys)
    ensures r.running.None? && r.clock == s.clock && r.caps == s.caps
    ensures r.submit == s.submit && r.hq1 == s.hq1 && r.hq2 == s.hq2
    ensures r.policy == s.policy && r.bursts == s.bursts
  {
    match s.running
    case None => s
    case Some(run) =>
      var elapsed := s.runningUntil - s.lastDispatchAt;
      var p := run.WithBurstTime(Max(0, run.burstTime - elapsed));
      if p.burstTime <= 0 then
        var original := if p.pid in s.bursts then s.bursts[p.pid] else 0;
        var turnaround := s.clock - p.arrivalTime;
        s.(finished := s.finished + [FinishedJob(p.pid, p.arrivalTime, s.clock, turnaround, turnaround - original)],
           usage := ReturnBoth(s.usage, p.memoryReq, p.devReq),
           running := None)
      else
        s.(ready := Enqueued(ReadyKind, s.ready, p.WithState(StateReady)), running := None)
  }

  /** A running record's slice ends strictly after the current clock. */
  ghost predicate RunWellFormed(s: Sys) {
    s.running.Some? ==> s.clock < s.runningUntil
  }

  /**
   * The event loop of dispatch: jump to the end of the current run while it
   * does not pass `target`, settle it, drain, sweep and schedule again; then
   * set the clock to `target`.
   */
  function DispatchLoop(s: Sys, target: int): (r: Sys)
    requires s.clock <= target
    requires RunWellFormed(s)
    ensures r.clock == target
    ensures r.caps == s.caps
    decreases target - s.clock
  {
    if s.running.None? || s.runningUntil > target then s.(clock := target)
    else
      var s1 := Sweep(Drain(Settle(s.(clock := s.runningUntil))));
      DispatchLoop(MaybeSchedule(s1), target)
  }

  /** dispatch(target): nothing for a target in the past; else drain, sweep, schedule, and loop. */
  function Dispatch(s: Sys, target: int): (r: Sys)
    requires RunWellFormed(s)
    ensures target < s.clock ==> r == s
    ensures target >= s.clock ==> r.clock == target
  {
    if target < s.clock then s
    else
      var s1 := Sweep(Drain(s));
      DispatchLoop(MaybeSchedule(s1), target)
  }

  /** cpuTimeAdvance(duration): nothing for a negative duration, else dispatch to clock + duration. */
  function Advance(s: Sys, duration: int): (r: Sys)
    requires RunWellFormed(s)
    ensures duration < 0 ==> r == s
    ensures duration >= 0 ==> r.clock == s.clock + duration
  {
    if duration < 0 then s else Dispatch(s, s.clock + duration)
  }

  /** Jobs listed in non-decreasing order of completion time. */
  ghost predicate CompletionOrdered(jobs: seq<FinishedJob>) {
    forall i, j :: 0 <= i < j < |jobs| ==> jobs[i].completionTime <= jobs[j].completionTime
  }

  /**
   * getFinishedJobsSnapshot(t): the jobs completed by `t`, in list order;
   * an ordered list gives an ordered snapshot.
   */
  function FinishedUpTo(jobs: seq<FinishedJob>, t: int): (r: seq<FinishedJob>)
    ensures |r| <= |jobs|
    ensures forall j :: j in r <==> j in jobs && j.completionTime <= t
    ensures CompletionOrdered(jobs) ==> CompletionOrdered(r)
  {
    if jobs == [] then []
    else
      var init := jobs[..|jobs| - 1];
      var last := jobs[|jobs| - 1];
      assert jobs == init + [last];
      assert CompletionOrdered(jobs) ==> CompletionOrdered(init);
      var r := FinishedUpTo(init, t) + (if last.completionTime <= t then [last] else []);
      assert CompletionOrdered(jobs) ==> forall j :: j in FinishedUpTo(init, t) ==> j.completionTime <= last.completionTime;
      r
  }

  /** The records that hold reservations: READY and the running slot. */
  function InCore(s: Sys): seq<Process> {
    s.ready + (if s.running.Some? then [s.running.value] else [])
  }

  /** The memory and device requirements summed over a sequence of records. */
  function Demand(ps: seq<Process>): Counters {
    if ps == [] then Counters(0, 0)
    else
      var d := Demand(ps[1..]);
      Counters(ps[0].memoryReq + d.memInUse, ps[0].devReq + d.devsInUse)
  }

  ghost predicate AllPositive(ps: seq<Process>) {
    forall p | p in ps :: p.memoryReq > 0 && p.devReq > 0
  }

  ghost predicate AllFit(caps: Caps, ps: seq<Process>) {
    forall p | p in ps :: FitsTotals(caps, p)
  }

  /** The counters are within bounds and equal what READY and the running record reserve. */
  ghost predicate Accounting(s: Sys) {
    && Within(s.caps, s.usage)
    && s.usage == Demand(InCore(s))
    && AllPositive(InCore(s))
    && AllFit(s.caps, InCore(s))
  }

  /** Every waiting record is feasible and HQ1 is ordered. */
  ghost predicate QueuesFeasible(s: Sys) {
    AllFit(s.caps, s.submit) && AllFit(s.caps, s.hq1) && AllFit(s.caps, s.hq2) && HoldOrdered(s.hq1)
  }

  /** The running record is in state 2 and was dispatched no later than now. */
  ghost predicate SlotConsistent(s: Sys) {
    s.running.Some? ==> s.lastDispatchAt <= s.clock && s.running.value.state == StateRunning
  }

  /** The finished list is ordered by completion, in the past, with turnaround = completion - arrival. */
  ghost predicate HistoryConsistent(s: Sys) {
    && CompletionOrdered(s.finished)
    && (forall j | j in s.finished ::
          j.completionTime <= s.clock && j.turnaroundTime == j.completionTime - j.arrivalTime)
  }

  /** The dispatcher invariant without the slice-end condition. */
  ghost predicate CoreInv(s: Sys) {
    Accounting(s) && QueuesFeasible(s) && SlotConsistent(s) && HistoryConsistent(s)
  }

  /** The dispatcher invariant. */
  ghost predicate Inv(s: Sys) {
    CoreInv(s) && RunWellFormed(s)
  }

  /** Nothing more can happen before the clock moves: SUBMIT empty, holds stuck, processor busy or READY empty. */
  ghost predicate Quiescent(s: Sys) {
    s.submit == [] && HoldsStuck(s) && (s.running.Some? || s.ready == [])
  }
}
