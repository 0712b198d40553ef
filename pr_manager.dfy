/**
 * The dispatcher object (PrManager): the logical clock, the four queues, the
 * running slot, the active policy, the original-burst map and the
 * finished-job list. Each state-changing method other than ScheduleNext and
 * SetScheduler is proved to update the object exactly as the matching
 * function of DispatchModel updates its value; ScheduleNext states its effect
 * field by field and SetScheduler replaces the policy.
 */
module Dispatcher {
  import opened Basics
  import opened ProcessRecord
  import opened Resources
  import opened Queues
  import opened Scheduling
  import opened DispatchModel
  import opened DispatchProofs

  /** The four queue names are already in upper case, so they survive normalisation. */
  lemma KindsNormalised()
    ensures NormaliseType(Some(SubmitKind)) == SubmitKind
    ensures NormaliseType(Some(Hold1Kind)) == Hold1Kind
    ensures NormaliseType(Some(Hold2Kind)) == Hold2Kind
    ensures NormaliseType(Some(ReadyKind)) == ReadyKind
  {
    SubmitNormalised();
    HoldsNormalised();
    ReadyNormalised();
  }

  lemma SubmitNormalised()
    ensures NormaliseType(Some(SubmitKind)) == SubmitKind
  {
    UpperFixed(SubmitKind);
  }

  lemma HoldsNormalised()
    ensures NormaliseType(Some(Hold1Kind)) == Hold1Kind
    ensures NormaliseType(Some(Hold2Kind)) == Hold2Kind
  {
    UpperFixed(Hold1Kind);
    UpperFixed(Hold2Kind);
  }

  lemma ReadyNormalised()
    ensures NormaliseType(Some(ReadyKind)) == ReadyKind
  {
    UpperFixed(ReadyKind);
  }

  class PrManager {
    var internalClock: int
    const oks: OtherKerServices
    const submit: Queue
    const hq1: Queue
    const hq2: Queue
    const ready: Queue
    var running: Option<Process>
    var runningUntil: int
    var lastDispatchAt: int
    var scheduler: Policy
    var totalBurstByPid: map<int, int>
    var finishedJobs: seq<FinishedJob>

    /** Four distinct queues with their normalised types over a consistent resource manager. */
    ghost predicate Frame()
      reads this, oks
    {
      && oks.Valid()
      && submit != hq1 && submit != hq2 && submit != ready
      && hq1 != hq2 && hq1 != ready && hq2 != ready
      && submit.schType == SubmitKind && hq1.schType == Hold1Kind
      && hq2.schType == Hold2Kind && ready.schType == ReadyKind
    }

    /** The value this object and its resource manager stand for. */
    ghost function Abs(): Sys
      reads this, oks, submit, hq1, hq2, ready
    {
      Sys(internalClock, oks.Totals(), oks.Usage(), submit.q, hq1.q, hq2.q, ready.q,
          running, runningUntil, lastDispatchAt, scheduler, totalBurstByPid, finishedJobs)
    }

    ghost predicate Valid()
      reads this, oks, submit, hq1, hq2, ready
    {
      Frame() && Inv(Abs())
    }

    /**
     * A dispatcher at `startTime` over a resource manager with nothing in use,
     * with the dynamic round robin as its default policy.
     */
    constructor (startTime: int, oks: OtherKerServices)
      requires oks.Valid() && oks.memInUse == 0 && oks.devsInUse == 0
      ensures Valid()
      ensures this.oks == oks
      ensures fresh(submit) && fresh(hq1) && fresh(hq2) && fresh(ready)
      ensures Abs() == Initial(startTime, oks.Totals(), NewDynamicRR())
    {
      internalClock := startTime;
      this.oks := oks;
      KindsNormalised();
      submit := new Queue(Some(SubmitKind));
      hq1 := new Queue(Some(Hold1Kind));
      hq2 := new Queue(Some(Hold2Kind));
      ready := new Queue(Some(ReadyKind));
      running := None;
      runningUntil := LongMax;
      lastDispatchAt := 0;
      scheduler := NewDynamicRR();
      totalBurstByPid := map[];
      finishedJobs := [];
      new;
      assert Abs() == Initial(startTime, oks.Totals(), NewDynamicRR());
      InitialInv(startTime, oks.Totals(), NewDynamicRR());
    }

    /** setScheduler: only the policy changes. */
    method SetScheduler(s: Policy)
      requires Valid()
      modifies this
      ensures Valid()
      ensures Abs() == old(Abs()).(policy := s)
    {
      scheduler := s;
    }

    /** procArrivalRoutine. */
    method ProcArrivalRoutine(p: Process)
      requires Valid()
      modifies this, oks, hq1, hq2, ready
      ensures Valid()
      ensures Abs() == Arrive(old(Abs()), p)
    {
      ArriveKeepsInv(Abs(), p);
      totalBurstByPid := totalBurstByPid[p.pid := p.burstTime];
      if !oks.CanEverFit(p) {
        return;
      }
      RouteIncoming(p);
    }

    /** Admit `p` to READY, or park it in HQ1 (priority 1) or HQ2 (any other priority). */
    method RouteIncoming(p: Process)
      requires Frame()
      modifies oks, hq1, hq2, ready
      ensures Frame()
      ensures Abs() == Route(old(Abs()), p)
    {
      var ok := oks.Allocate(p);
      if ok {
        ready.Enqueue(p);
      } else if p.priority == 1 {
        hq1.Enqueue(p);
      } else {
        hq2.Enqueue(p);
      }
    }

    /** cpuTimeAdvance. */
    method CpuTimeAdvance(duration: int)
      requires Valid()
      modifies this, oks, submit, hq1, hq2, ready
      ensures Valid()
      ensures Abs() == Advance(old(Abs()), duration)
    {
      if duration < 0 {
        return;
      }
      ghost var s := Abs();
      var target := internalClock + duration;
      Dispatch(target);
      AdvanceIsDispatch(s, duration, target);
      DispatchKeepsInv(s, target);
    }

    /** getNextDecisionTime: ticks left in the current run, 0 when idle. */
    function GetNextDecisionTime(): (r: int)
      reads this
      ensures r >= 0
      ensures running.None? || runningUntil == LongMax ==> r == 0
      ensures running.Some? && runningUntil != LongMax && runningUntil > internalClock ==>
                r == runningUntil - internalClock
    {
      if running.None? || runningUntil == LongMax then 0
      else Max(0, runningUntil - internalClock)
    }

    /** getRunningProcId: the running record's id, -1 when idle. */
    function GetRunningProcId(): (r: int)
      reads this
      ensures running.None? ==> r == -1
      ensures running.Some? ==> r == running.value.pid
    {
      if running.None? then -1 else running.value.pid
    }

    /** dispatch: the event loop up to `target`. */
    method Dispatch(target: int)
      requires Frame() && RunWellFormed(Abs())
      modifies this, oks, submit, hq1, hq2, ready
      ensures Frame()
      ensures Abs() == DispatchModel.Dispatch(old(Abs()), target)
    {
      if target < internalClock {
        return;
      }
      Refill();
      while true
        invariant Frame() && RunWellFormed(Abs())
        invariant internalClock <= target
        invariant DispatchLoop(Abs(), target) == DispatchModel.Dispatch(old(Abs()), target)
        decreases target - internalClock
      {
        if running.None? || runningUntil > target {
          internalClock := target;
          break;
        }
        internalClock := runningUntil;
        CompleteOrPreemptRunning();
        Refill();
      }
    }

    /**
     * The steps dispatch takes before its loop and after every completion or
     * preemption: drain SUBMIT, sweep the holds, and start a run when idle.
     */
    method Refill()
      requires Frame() && RunWellFormed(Abs())
      modifies this, oks, submit, hq1, hq2, ready
      ensures Frame() && RunWellFormed(Abs())
      ensures Abs() == MaybeSchedule(Sweep(Drain(old(Abs()))))
    {
      DrainSubmitToSystem();
      TryAdmitFromHolds();
      if running.None? && !ready.IsEmpty() {
        StartRun();
      }
    }

    /** drainSubmitToSystem: route every record of SUBMIT until it is empty. */
    method DrainSubmitToSystem()
      requires Frame()
      modifies oks, submit, hq1, hq2, ready
      ensures Frame()
      ensures Abs() == Drain(old(Abs()))
    {
      while !submit.IsEmpty()
        invariant Frame()
        invariant Drain(Abs()) == Drain(old(Abs()))
        decreases |submit.q|
      {
        var p := submit.Dequeue();
        RouteIncoming(p.value);
      }
    }

    /** tryAdmitFromHolds: move admissible heads to READY, HQ1 first in each round. */
    method TryAdmitFromHolds()
      requires Frame()
      modifies oks, hq1, hq2, ready
      ensures Frame()
      ensures Abs() == Sweep(old(Abs()))
    {
      var moved := true;
      while moved
        invariant Frame()
        invariant Sweep(Abs()) == Sweep(old(Abs()))
        invariant !moved ==> Sweep(Abs()) == Abs()
        decreases |hq1.q| + |hq2.q| + (if moved then 1 else 0)
      {
        moved := AdmitHeadOf(hq1);
        if !moved {
          moved := AdmitHeadOf(hq2);
        }
      }
    }

    /**
     * One attempt of tryAdmitFromHolds on hold queue `h`: if its head can be
     * allocated now, it moves to the tail of READY.
     */
    method AdmitHeadOf(h: Queue) returns (moved: bool)
      requires Frame() && (h == hq1 || h == hq2)
      modifies oks, h, ready
      ensures Frame()
      ensures moved <==> old(h.q) != [] && Admissible(old(Abs()), old(h.q)[0])
      ensures !moved ==> Abs() == old(Abs())
      ensures moved && h == hq1 ==> Abs() == Promote1(old(Abs()))
      ensures moved && h == hq2 ==> Abs() == Promote2(old(Abs()))
    {
      moved := false;
      if h.IsEmpty() {
        return;
      }
      var head := h.Peek().value;
      var ok := oks.Allocate(head);
      if ok {
        var taken := h.Dequeue();
        ready.Enqueue(head);
        moved := true;
      }
    }

    /** scheduleNext: the policy's pick becomes the running record, in state 2, from now. */
    method ScheduleNext()
      modifies this, ready
      ensures old(ready.q) == [] ==> running == None && ready.q == []
      ensures old(ready.q) != [] ==>
                running == Some(old(ready.q)[0].WithState(StateRunning)) && ready.q == old(ready.q)[1..]
      ensures lastDispatchAt == internalClock == old(internalClock)
      ensures runningUntil == old(runningUntil) && scheduler == old(scheduler)
      ensures totalBurstByPid == old(totalBurstByPid) && finishedJobs == old(finishedJobs)
    {
      running := SelectNextProcess(scheduler, ready);
      if running.Some? {
        running := Some(running.value.WithState(StateRunning));
      }
      lastDispatchAt := internalClock;
    }

    /** scheduleNext followed by the slice computation and the run's end time. */
    method StartRun()
      requires Frame() && running.None? && ready.q != []
      modifies this, ready
      ensures Frame()
      ensures Abs() == Schedule(old(Abs()))
    {
      ScheduleNext();
      var rem := running.value.burstTime;
      var slice, next := ComputeTimeSlice(scheduler, running.value, ready);
      scheduler := next;
      runningUntil := internalClock + Max(1, Min(rem, slice));
    }

    /** completeOrPreemptRunning: settle the run that ends now. */
    method CompleteOrPreemptRunning()
      requires Frame()
      modifies this, oks, ready
      ensures Frame()
      ensures Abs() == Settle(old(Abs()))
    {
      if running.None? {
        return;
      }
      var run := running.value;
      var elapsed := runningUntil - lastDispatchAt;
      var rem := run.burstTime - elapsed;
      run := run.WithBurstTime(Max(0, rem));
      if run.burstTime <= 0 {
        var pid := run.pid;
        var at := run.arrivalTime;
        var ct := internalClock;
        var originalBurst := if pid in totalBurstByPid then totalBurstByPid[pid] else 0;
        var turnaround := ct - at;
        var waiting := turnaround - originalBurst;
        finishedJobs := finishedJobs + [FinishedJob(pid, at, ct, turnaround, waiting)];
        oks.Release(run);
        running := None;
      } else {
        ready.Enqueue(run.WithState(StateReady));
        running := None;
      }
    }

    /** getFinishedJobsSnapshot: the jobs completed by `upToTime`, in completion order. */
    method GetFinishedJobsSnapshot(upToTime: int) returns (out: seq<FinishedJob>)
      ensures out == FinishedUpTo(finishedJobs, upToTime)
    {
      out := [];
      for i := 0 to |finishedJobs|
        invariant out == FinishedUpTo(finishedJobs[..i], upToTime)
      {
        var fj := finishedJobs[i];
        assert finishedJobs[..i + 1][..i] == finishedJobs[..i];
        if fj.completionTime <= upToTime {
          out := out + [fj];
        }
      }
      assert finishedJobs[..|finishedJobs|] == finishedJobs;
    }

    /** getTotalFinishedCount: the length of the finished list. */
    function GetTotalFinishedCount(): (n: nat)
      reads this
      ensures n == |finishedJobs|
    {
      |finishedJobs|
    }
  }
}
