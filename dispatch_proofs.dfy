/** Properties of the dispatcher model: the invariant, the clock, the sweep, run lengths, idempotence. */
module DispatchProofs {
  import opened Basics
  import opened ProcessRecord
  import opened Resources
  import opened Queues
  import opened Scheduling
  import opened DispatchModel

  // ---------------------------------------------------------------------
  // Reservation sums
  // ---------------------------------------------------------------------

  /** The requirement sum of a concatenation is the sum of the parts. */
  lemma {:induction false} DemandAppend(a: seq<Process>, b: seq<Process>)
    ensures Demand(a + b).memInUse == Demand(a).memInUse + Demand(b).memInUse
    ensures Demand(a + b).devsInUse == Demand(a).devsInUse + Demand(b).devsInUse
  {
    if a == [] {
      assert a + b == b;
    } else {
      assert (a + b)[0] == a[0] && (a + b)[1..] == a[1..] + b;
      DemandAppend(a[1..], b);
    }
  }

  /** Records with positive requirements sum to non-negative totals. */
  lemma {:induction false} DemandNonNegative(ps: seq<Process>)
    requires AllPositive(ps)
    ensures Demand(ps).memInUse >= 0 && Demand(ps).devsInUse >= 0
  {
    if ps != [] {
      assert forall p | p in ps[1..] :: p in ps;
      DemandNonNegative(ps[1..]);
    }
  }

  /** Advancing the clock keeps the invariant's clock-independent parts. */
  lemma ClockForward(s: Sys, t: int)
    requires CoreInv(s) && s.clock <= t
    ensures CoreInv(s.(clock := t))
  {
    assert InCore(s.(clock := t)) == InCore(s);
  }

  // ---------------------------------------------------------------------
  // Each step keeps the invariant
  // ---------------------------------------------------------------------

  /** Appending an admitted record to READY, with its reservation made, keeps the accounting. */
  lemma AdmitKeepsAccounting(s: Sys, p: Process, r: Sys)
    requires Accounting(s) && FitsTotals(s.caps, p) && Admissible(s, p)
    requires r.caps == s.caps && r.running == s.running && r.ready == s.ready + [p]
    requires r.usage == GrantBoth(s.caps, s.usage, p.memoryReq, p.devReq).after
    ensures Accounting(r)
  {
    var run := if s.running.Some? then [s.running.value] else [];
    assert InCore(s) == s.ready + run;
    assert InCore(r) == s.ready + [p] + run;
    DemandAppend(s.ready + [p], run);
    DemandAppend(s.ready, [p]);
    DemandAppend(s.ready, run);
    GrantBothKeepsBounds(s.caps, s.usage, p.memoryReq, p.devReq);
    assert forall x | x in InCore(r) :: x in InCore(s) || x == p;
  }

  /** Routing a feasible record keeps the invariant, whichever queue it reaches. */
  lemma RouteKeepsInv(s: Sys, p: Process)
    requires CoreInv(s) && FitsTotals(s.caps, p)
    ensures CoreInv(Route(s, p))
  {
    var r := Route(s, p);
    if Admissible(s, p) {
      FifoEnqueueAppends(ReadyKind, s.ready, p);
      AdmitKeepsAccounting(s, p, r);
      assert QueuesFeasible(r) && SlotConsistent(r) && HistoryConsistent(r);
    } else if p.priority == 1 {
      EnqueueKeepsHoldOrder(s.hq1, p);
      forall x | x in r.hq1 ensures x in s.hq1 || x == p {
        EnqueuedMembers(Hold1Kind, s.hq1, p, x);
      }
      assert InCore(r) == InCore(s);
      assert Accounting(r);
    } else {
      forall x | x in r.hq2 ensures x in s.hq2 || x == p {
        EnqueuedMembers(Hold2Kind, s.hq2, p, x);
      }
      assert InCore(r) == InCore(s);
      assert Accounting(r);
    }
  }

  /** Arrival keeps the invariant. */
  lemma ArriveKeepsInv(s: Sys, p: Process)
    requires Inv(s)
    ensures Inv(Arrive(s, p))
  {
    var s1 := s.(bursts := s.bursts[p.pid := p.burstTime]);
    assert InCore(s1) == InCore(s);
    if FitsTotals(s.caps, p) {
      RouteKeepsInv(s1, p);
    }
  }

  /** Routing the head of SUBMIT keeps the invariant. */
  lemma DrainStepKeepsInv(s: Sys)
    requires CoreInv(s) && s.submit != []
    ensures CoreInv(Route(s.(submit := s.submit[1..]), s.submit[0]))
  {
    var t := s.(submit := s.submit[1..]);
    assert InCore(t) == InCore(s);
    assert forall x | x in t.submit :: x in s.submit;
    assert s.submit[0] in s.submit;
    RouteKeepsInv(t, s.submit[0]);
  }

  /** Draining SUBMIT keeps the invariant. */
  lemma {:induction false} DrainKeepsInv(s: Sys)
    requires CoreInv(s)
    ensures CoreInv(Drain(s))
    decreases |s.submit|
  {
    if s.submit != [] {
      DrainStepKeepsInv(s);
      DrainKeepsInv(Route(s.(submit := s.submit[1..]), s.submit[0]));
    }
  }

  /** Promoting an admissible head of HQ1 keeps the invariant. */
  lemma Promote1KeepsInv(s: Sys)
    requires CoreInv(s) && s.hq1 != [] && Admissible(s, s.hq1[0])
    ensures CoreInv(Promote1(s))
  {
    var p := s.hq1[0];
    var r := Promote1(s);
    FifoEnqueueAppends(ReadyKind, s.ready, p);
    assert p in s.hq1;
    AdmitKeepsAccounting(s, p, r);
    assert QueuesFeasible(r) by {
      assert forall x | x in r.hq1 :: x in s.hq1;
      forall i, j | 0 <= i < j < |r.hq1| ensures !Precedes(r.hq1[j], r.hq1[i]) {
        assert r.hq1[i] == s.hq1[i + 1] && r.hq1[j] == s.hq1[j + 1];
      }
    }
    assert SlotConsistent(r) && HistoryConsistent(r);
  }

  /** Promoting an admissible head of HQ2 keeps the invariant. */
  lemma Promote2KeepsInv(s: Sys)
    requires CoreInv(s) && s.hq2 != [] && Admissible(s, s.hq2[0])
    ensures CoreInv(Promote2(s))
  {
    var p := s.hq2[0];
    var r := Promote2(s);
    FifoEnqueueAppends(ReadyKind, s.ready, p);
    assert p in s.hq2;
    AdmitKeepsAccounting(s, p, r);
    assert QueuesFeasible(r) by {
      assert forall x | x in r.hq2 :: x in s.hq2;
    }
    assert SlotConsistent(r) && HistoryConsistent(r);
  }

  /** The admission sweep keeps the invariant. */
  lemma {:induction false} SweepKeepsInv(s: Sys)
    requires CoreInv(s)
    ensures CoreInv(Sweep(s))
    decreases |s.hq1| + |s.hq2|
  {
    if s.hq1 != [] && Admissible(s, s.hq1[0]) {
      Promote1KeepsInv(s);
      SweepKeepsInv(Promote1(s));
    } else if s.hq2 != [] && Admissible(s, s.hq2[0]) {
      Promote2KeepsInv(s);
      SweepKeepsInv(Promote2(s));
    }
  }

  /** Starting a run on an idle processor keeps the invariant, slice end included. */
  lemma ScheduleKeepsInv(s: Sys)
    requires CoreInv(s) && s.running.None? && s.ready != []
    ensures Inv(Schedule(s))
  {
    var p := s.ready[0].WithState(StateRunning);
    var r := Schedule(s);
    assert InCore(s) == s.ready;
    assert InCore(r) == s.ready[1..] + [p];
    DemandAppend(s.ready[1..], [p]);
    assert s.ready[0] in s.ready;
    assert forall x | x in InCore(r) :: x == p || x in s.ready;
  }

  /** Scheduling when idle keeps the invariant. */
  lemma MaybeScheduleKeepsInv(s: Sys)
    requires CoreInv(s) && (s.running.None? || RunWellFormed(s))
    ensures Inv(MaybeSchedule(s))
  {
    if s.running.None? && s.ready != [] {
      ScheduleKeepsInv(s);
    }
  }

  /** A record that completes leaves READY's reservations as the counters. */
  lemma FinishKeepsAccounting(s: Sys, r: Sys)
    requires Accounting(s) && s.running.Some?
    requires r.caps == s.caps && r.ready == s.ready && r.running.None?
    requires r.usage == ReturnBoth(s.usage, s.running.value.memoryReq, s.running.value.devReq)
    ensures Accounting(r)
  {
    var run := s.running.value;
    assert InCore(s) == s.ready + [run];
    DemandAppend(s.ready, [run]);
    assert run in InCore(s);
    assert forall x | x in s.ready :: x in InCore(s);
    DemandNonNegative(s.ready);
    assert InCore(r) == s.ready;
  }

  /** A record that is preempted keeps its reservation from the tail of READY. */
  lemma RequeueKeepsAccounting(s: Sys, q: Process, r: Sys)
    requires Accounting(s) && s.running.Some?
    requires q.memoryReq == s.running.value.memoryReq && q.devReq == s.running.value.devReq
    requires r.caps == s.caps && r.usage == s.usage && r.ready == s.ready + [q] && r.running.None?
    ensures Accounting(r)
  {
    var run := s.running.value;
    assert InCore(s) == s.ready + [run];
    assert InCore(r) == s.ready + [q];
    DemandAppend(s.ready, [run]);
    DemandAppend(s.ready, [q]);
    assert run in InCore(s);
    assert forall x | x in InCore(r) :: x in InCore(s) || x == q;
  }

  /** Appending a job completed now keeps the finished list consistent. */
  lemma FinishKeepsHistory(s: Sys, j: FinishedJob, r: Sys)
    requires HistoryConsistent(s)
    requires j.completionTime == s.clock && j.turnaroundTime == j.completionTime - j.arrivalTime
    requires r.clock == s.clock && r.finished == s.finished + [j]
    ensures HistoryConsistent(r)
  {
    var f := s.finished + [j];
    forall i, k | 0 <= i < k < |f| ensures f[i].completionTime <= f[k].completionTime {
      assert f[i] == s.finished[i];
      if k < |s.finished| {
        assert f[k] == s.finished[k];
      } else {
        assert f[i] in s.finished;
      }
    }
    assert forall x | x in f :: x in s.finished || x == j;
  }

  /** Settling the running record keeps the invariant. */
  lemma SettleKeepsInv(s: Sys)
    requires CoreInv(s)
    ensures Inv(Settle(s))
  {
    if s.running.Some? {
      var run := s.running.value;
      var p := run.WithBurstTime(Max(0, run.burstTime - (s.runningUntil - s.lastDispatchAt)));
      if p.burstTime <= 0 {
        SettleFinishKeepsInv(s);
      } else {
        SettleRequeueKeepsInv(s);
      }
    }
  }

  /** The completion branch of Settle keeps the invariant. */
  lemma SettleFinishKeepsInv(s: Sys)
    requires CoreInv(s) && s.running.Some?
    requires s.running.value.burstTime - (s.runningUntil - s.lastDispatchAt) <= 0
    ensures CoreInv(Settle(s))
  {
    var run := s.running.value;
    var p := run.WithBurstTime(Max(0, run.burstTime - (s.runningUntil - s.lastDispatchAt)));
    var r := Settle(s);
    var original := if p.pid in s.bursts then s.bursts[p.pid] else 0;
    var tat := s.clock - p.arrivalTime;
    var j := FinishedJob(p.pid, p.arrivalTime, s.clock, tat, tat - original);
    assert r.finished == s.finished + [j] && r.ready == s.ready;
    assert r.usage == ReturnBoth(s.usage, run.memoryReq, run.devReq);
    FinishKeepsAccounting(s, r);
    FinishKeepsHistory(s, j, r);
  }

  /** The preemption branch of Settle keeps the invariant. */
  lemma SettleRequeueKeepsInv(s: Sys)
    requires CoreInv(s) && s.running.Some?
    requires s.running.value.burstTime - (s.runningUntil - s.lastDispatchAt) > 0
    ensures CoreInv(Settle(s))
  {
    var run := s.running.value;
    var p := run.WithBurstTime(Max(0, run.burstTime - (s.runningUntil - s.lastDispatchAt)));
    var r := Settle(s);
    var q := p.WithState(StateReady);
    FifoEnqueueAppends(ReadyKind, s.ready, q);
    assert r.ready == s.ready + [q] && r.usage == s.usage && r.finished == s.finished;
    RequeueKeepsAccounting(s, q, r);
  }

  /**
   * Settling a run that left work over: the remaining burst drops by the
   * elapsed slice, the record goes to the tail of READY in state 1, and the
   * counters and the finished list stay as they were.
   */
  lemma SettlePreempts(s: Sys)
    requires s.running.Some? && s.running.value.burstTime > s.runningUntil - s.lastDispatchAt
    ensures var run := s.running.value;
            var q := run.(burstTime := run.burstTime - (s.runningUntil - s.lastDispatchAt), state := StateReady);
            Settle(s) == s.(ready := s.ready + [q], running := None)
  {
    var run := s.running.value;
    var q := run.(burstTime := run.burstTime - (s.runningUntil - s.lastDispatchAt), state := StateReady);
    FifoEnqueueAppends(ReadyKind, s.ready, q);
  }

  /** The event loop keeps the invariant. */
  lemma {:induction false} DispatchLoopKeepsInv(s: Sys, target: int)
    requires Inv(s) && s.clock <= target
    ensures Inv(DispatchLoop(s, target))
    decreases target - s.clock
  {
    if s.running.None? || s.runningUntil > target {
      ClockForward(s, target);
    } else {
      var s0 := s.(clock := s.runningUntil);
      ClockForward(s, s.runningUntil);
      SettleKeepsInv(s0);
      DrainKeepsInv(Settle(s0));
      SweepKeepsInv(Drain(Settle(s0)));
      var s1 := Sweep(Drain(Settle(s0)));
      MaybeScheduleKeepsInv(s1);
      DispatchLoopKeepsInv(MaybeSchedule(s1), target);
    }
  }

  /** dispatch keeps the invariant. */
  lemma DispatchKeepsInv(s: Sys, target: int)
    requires Inv(s)
    ensures Inv(Dispatch(s, target))
  {
    if target >= s.clock {
      DrainKeepsInv(s);
      SweepKeepsInv(Drain(s));
      MaybeScheduleKeepsInv(Sweep(Drain(s)));
      DispatchLoopKeepsInv(MaybeSchedule(Sweep(Drain(s))), target);
    }
  }

  /** cpuTimeAdvance keeps the invariant. */
  lemma AdvanceKeepsInv(s: Sys, duration: int)
    requires Inv(s)
    ensures Inv(Advance(s, duration))
  {
    if duration >= 0 {
      var t := s.clock + duration;
      AdvanceIsDispatch(s, duration, t);
      DispatchKeepsInv(s, t);
    }
  }

  /** A non-negative advance is a dispatch to clock + duration. */
  lemma AdvanceIsDispatch(s: Sys, duration: int, target: int)
    requires RunWellFormed(s) && duration >= 0 && target == s.clock + duration
    ensures Advance(s, duration) == Dispatch(s, target)
  {
  }

  /** A fresh dispatcher satisfies the invariant. */
  lemma InitialInv(startTime: int, caps: Caps, policy: Policy)
    requires 0 <= caps.memorySize && 0 <= caps.noDevs
    ensures Inv(Initial(startTime, caps, policy))
  {
    assert InCore(Initial(startTime, caps, policy)) == [];
  }

  // ---------------------------------------------------------------------
  // The admission sweep
  // ---------------------------------------------------------------------

  /**
   * `r` is `s` after heads have moved from the hold queues to READY: each hold
   * queue lost a prefix, READY gained a suffix, and the suffix holds exactly
   * the records of the two lost prefixes.
   */
  ghost predicate MovedHeads(s: Sys, r: Sys) {
    Moved(s.hq1, s.hq2, s.ready, r.hq1, r.hq2, r.ready)
  }

  /**
   * MovedHeads on plain sequences: holds `a` and `b` became their suffixes
   * `ra` and `rb`, and READY `rd` became `rr` by gaining the lost prefixes.
   */
  ghost predicate Moved(a: seq<Process>, b: seq<Process>, rd: seq<Process>,
                        ra: seq<Process>, rb: seq<Process>, rr: seq<Process>) {
    && |ra| <= |a| && ra == a[|a| - |ra|..]
    && |rb| <= |b| && rb == b[|b| - |rb|..]
    && |rd| <= |rr| && rr[..|rd|] == rd
    && multiset(rr[|rd|..]) == multiset(a[..|a| - |ra|]) + multiset(b[..|b| - |rb|])
  }

  /** Moved extends by one head moved from `a` to the tail of READY. */
  lemma ShiftHead(a: seq<Process>, b: seq<Process>, rd: seq<Process>,
                  ra: seq<Process>, rb: seq<Process>, rr: seq<Process>)
    requires a != [] && Moved(a[1..], b, rd + [a[0]], ra, rb, rr)
    ensures Moved(a, b, rd, ra, rb, rr)
  {
    var n := |a| - |ra|;
    assert a[1..][n - 1..] == a[n..];
    assert a[..n] == [a[0]] + a[1..][..n - 1];
    assert rr[..|rd| + 1][..|rd|] == rr[..|rd|];
    assert rr[|rd|..] == [a[0]] + rr[|rd| + 1..];
  }

  /** Moved does not depend on which hold queue is named first. */
  lemma MovedSymmetric(a: seq<Process>, b: seq<Process>, rd: seq<Process>,
                       ra: seq<Process>, rb: seq<Process>, rr: seq<Process>)
    requires Moved(b, a, rd, rb, ra, rr)
    ensures Moved(a, b, rd, ra, rb, rr)
  {
  }

  lemma MovedHeadsStep1(s: Sys, t: Sys, r: Sys)
    requires s.hq1 != [] && t.ready == s.ready + [s.hq1[0]] && t.hq1 == s.hq1[1..] && t.hq2 == s.hq2
    requires MovedHeads(t, r)
    ensures MovedHeads(s, r)
  {
    ShiftHead(s.hq1, s.hq2, s.ready, r.hq1, r.hq2, r.ready);
  }

  lemma MovedHeadsStep2(s: Sys, t: Sys, r: Sys)
    requires s.hq2 != [] && t.ready == s.ready + [s.hq2[0]] && t.hq2 == s.hq2[1..] && t.hq1 == s.hq1
    requires MovedHeads(t, r)
    ensures MovedHeads(s, r)
  {
    MovedSymmetric(s.hq2[1..], s.hq1, t.ready, r.hq2, r.hq1, r.ready);
    ShiftHead(s.hq2, s.hq1, s.ready, r.hq2, r.hq1, r.ready);
    MovedSymmetric(s.hq1, s.hq2, s.ready, r.hq1, r.hq2, r.ready);
  }

  /** The waiting records of a state: SUBMIT, the hold queues and READY. */
  function Waiting(s: Sys): multiset<Process> {
    multiset(s.submit) + multiset(s.hq1) + multiset(s.hq2) + multiset(s.ready)
  }

  /** Routing puts the record in exactly one queue: the waiting records gain `p` and lose nothing. */
  lemma RouteConserves(s: Sys, p: Process)
    ensures Waiting(Route(s, p)) == Waiting(s) + multiset{p}
  {
  }

  /** Draining routes every record of SUBMIT into a queue: no record is dropped or duplicated. */
  lemma {:induction false} DrainConserves(s: Sys)
    ensures Waiting(Drain(s)) == Waiting(s)
    decreases |s.submit|
  {
    if s.submit != [] {
      var t := s.(submit := s.submit[1..]);
      assert s.submit == [s.submit[0]] + s.submit[1..];
      RouteConserves(t, s.submit[0]);
      DrainConserves(Route(t, s.submit[0]));
    }
  }

  /** The sweep moves only heads of the hold queues, each to the tail of READY, and loses no record. */
  lemma {:induction false} SweepMovesOnlyHeads(s: Sys)
    ensures MovedHeads(s, Sweep(s))
    decreases |s.hq1| + |s.hq2|
  {
    if s.hq1 != [] && Admissible(s, s.hq1[0]) {
      SweepMovesOnlyHeads(Promote1(s));
      FifoEnqueueAppends(ReadyKind, s.ready, s.hq1[0]);
      MovedHeadsStep1(s, Promote1(s), Sweep(s));
    } else if s.hq2 != [] && Admissible(s, s.hq2[0]) {
      SweepMovesOnlyHeads(Promote2(s));
      FifoEnqueueAppends(ReadyKind, s.ready, s.hq2[0]);
      MovedHeadsStep2(s, Promote2(s), Sweep(s));
    } else {
      assert s.ready[|s.ready|..] == [] && s.hq1[..0] == [] && s.hq2[..0] == [];
    }
  }

  /** Each round tries HQ1 first: an admissible HQ1 head is the first record the sweep adds to READY. */
  lemma SweepTriesHq1First(s: Sys)
    requires s.hq1 != [] && Admissible(s, s.hq1[0])
    ensures |Sweep(s).ready| > |s.ready| && Sweep(s).ready[|s.ready|] == s.hq1[0]
  {
    SweepMovesOnlyHeads(Promote1(s));
    FifoEnqueueAppends(ReadyKind, s.ready, s.hq1[0]);
    assert Sweep(s).ready[..|s.ready| + 1] == s.ready + [s.hq1[0]];
  }

  /** When neither head can be allocated the sweep changes nothing, however the rest of the holds look. */
  lemma SweepIsHeadOnly(s: Sys)
    requires HoldsStuck(s)
    ensures Sweep(s) == s
  {
  }

  // ---------------------------------------------------------------------
  // The clock and the end of dispatch
  // ---------------------------------------------------------------------

  /** cpuTimeAdvance never moves the clock backwards. */
  lemma AdvanceNeverRewinds(s: Sys, duration: int)
    requires RunWellFormed(s)
    ensures Advance(s, duration).clock >= s.clock
  {
  }

  /** After the event loop nothing is pending: quiescent, and a running slice ends after the target. */
  lemma {:induction false} DispatchLoopQuiescent(s: Sys, target: int)
    requires s.clock <= target && RunWellFormed(s) && Quiescent(s)
    ensures var r := DispatchLoop(s, target);
            Quiescent(r) && (r.running.Some? ==> r.runningUntil > target)
    decreases target - s.clock
  {
    if !(s.running.None? || s.runningUntil > target) {
      var s1 := Sweep(Drain(Settle(s.(clock := s.runningUntil))));
      DispatchLoopQuiescent(MaybeSchedule(s1), target);
    }
  }

  /**
   * When dispatch returns, either nothing runs and READY is empty, or the
   * running slice ends after the clock; SUBMIT is empty and neither hold
   * queue's head fits.
   */
  lemma DispatchEndsQuiescent(s: Sys, target: int)
    requires RunWellFormed(s) && target >= s.clock
    ensures var r := Dispatch(s, target);
            && Quiescent(r)
            && (r.running.None? ==> r.ready == [])
            && (r.running.Some? ==> r.runningUntil > r.clock)
  {
    DispatchLoopQuiescent(MaybeSchedule(Sweep(Drain(s))), target);
  }

  /** Calling dispatch twice with the same target changes nothing the second time. */
  lemma DispatchIdempotent(s: Sys, target: int)
    requires RunWellFormed(s)
    ensures RunWellFormed(Dispatch(s, target))
    ensures Dispatch(Dispatch(s, target), target) == Dispatch(s, target)
  {
    var r := Dispatch(s, target);
    if target >= s.clock {
      DispatchEndsQuiescent(s, target);
      assert Drain(r) == r;
      assert Sweep(r) == r;
      assert MaybeSchedule(r) == r;
      assert r.(clock := target) == r;
    }
  }

  /** An advance by zero right after an advance changes nothing. */
  lemma AdvanceZeroAfterAdvance(s: Sys, duration: int)
    requires RunWellFormed(s) && duration >= 0
    ensures RunWellFormed(Advance(s, duration))
    ensures Advance(Advance(s, duration), 0) == Advance(s, duration)
  {
    var t := s.clock + duration;
    AdvanceIsDispatch(s, duration, t);
    DispatchIdempotent(s, t);
    var r := Dispatch(s, t);
    AdvanceIsDispatch(r, 0, r.clock);
  }

  // ---------------------------------------------------------------------
  // Run lengths
  // ---------------------------------------------------------------------

  /**
   * A run lasts max(1, min(remaining burst, slice)) ticks: at least one, never
   * longer than the policy's slice, and never longer than the remaining work
   * when there is any.
   */
  lemma RunLength(s: Sys)
    requires s.ready != []
    ensures var r := Schedule(s);
            var len := r.runningUntil - s.clock;
            var slice := TimeSlice(s.policy, s.ready[0].WithState(StateRunning), s.ready[1..]).slice;
            && len == Max(1, Min(s.ready[0].burstTime, slice))
            && 1 <= len <= slice
            && (s.ready[0].burstTime >= 1 ==> len <= s.ready[0].burstTime)
            && (s.ready[0].burstTime >= slice ==> len == slice)
  {
    SliceAtLeastOne(s.policy, s.ready[0].WithState(StateRunning), s.ready[1..]);
  }

  /** Static round robin with quantum q: no run is longer than q. */
  lemma StaticRunAtMostQuantum(s: Sys)
    requires s.ready != [] && s.policy.StaticRR?
    ensures 1 <= Schedule(s).runningUntil - s.clock <= s.policy.quantum
  {
    RunLength(s);
  }

  /**
   * FCFS is non-preemptive: the scheduled record completes at the end of its
   * first run, is appended to the finished list and does not return to READY.
   */
  lemma FcfsCompletesInOneRun(s: Sys)
    requires s.ready != [] && s.running.None? && s.policy == FCFS
    ensures var t := Schedule(s);
            var r := Settle(t.(clock := t.runningUntil));
            && r.ready == s.ready[1..]
            && r.finished == s.finished + [r.finished[|r.finished| - 1]]
            && r.finished[|r.finished| - 1].pid == s.ready[0].pid
            && r.finished[|r.finished| - 1].completionTime == t.runningUntil
  {
    var b := s.ready[0].burstTime;
    assert TimeSlice(FCFS, s.ready[0].WithState(StateRunning), s.ready[1..]).slice == Max(1, b);
  }

  /** Dynamic round robin, first slice of a fresh instance: the first record runs its whole burst. */
  lemma DynamicFirstRunCompletes(s: Sys)
    requires s.ready != [] && s.running.None? && s.policy == NewDynamicRR()
    ensures var t := Schedule(s);
            var r := Settle(t.(clock := t.runningUntil));
            && t.policy == DynamicRR(false, 0, 0)
            && r.ready == s.ready[1..]
            && r.finished[|r.finished| - 1].pid == s.ready[0].pid
  {
    var b := s.ready[0].burstTime;
    assert TimeSlice(s.policy, s.ready[0].WithState(StateRunning), s.ready[1..]).slice == Max(1, b);
  }

  // ---------------------------------------------------------------------
  // Arrival and completion
  // ---------------------------------------------------------------------

  /**
   * Arrival: the original burst is always recorded; an infeasible record
   * touches no queue and no counter; a feasible one goes to READY iff both
   * requirements are positive and fit in what is free, else to HQ1 when its
   * priority is 1 and to HQ2 otherwise, with the counters unchanged.
   */
  lemma ArrivalRouting(s: Sys, p: Process)
    ensures var r := Arrive(s, p);
            var fits := 0 < p.memoryReq <= s.caps.memorySize - s.usage.memInUse
                        && 0 < p.devReq <= s.caps.noDevs - s.usage.devsInUse;
            && r.bursts == s.bursts[p.pid := p.burstTime]
            && (!FitsTotals(s.caps, p) ==> r == s.(bursts := r.bursts))
            && (FitsTotals(s.caps, p) && fits ==>
                  r == s.(bursts := r.bursts, ready := s.ready + [p],
                          usage := Counters(s.usage.memInUse + p.memoryReq, s.usage.devsInUse + p.devReq)))
            && (FitsTotals(s.caps, p) && !fits && p.priority == 1 ==>
                  r == s.(bursts := r.bursts, hq1 := Enqueued(Hold1Kind, s.hq1, p)))
            && (FitsTotals(s.caps, p) && !fits && p.priority != 1 ==>
                  r == s.(bursts := r.bursts, hq2 := s.hq2 + [p]))
  {
    var s1 := s.(bursts := s.bursts[p.pid := p.burstTime]);
    var g := GrantBoth(s1.caps, s1.usage, p.memoryReq, p.devReq);
    if FitsTotals(s.caps, p) {
      if g.ok {
        FifoEnqueueAppends(ReadyKind, s.ready, p);
        assert Arrive(s, p) == s1.(usage := g.after, ready := s.ready + [p]);
      } else if p.priority != 1 {
        FifoEnqueueAppends(Hold2Kind, s.hq2, p);
        assert Arrive(s, p) == s1.(hq2 := s.hq2 + [p]);
      }
    }
  }

  /**
   * Settling a run that used up the remaining burst appends the job's
   * statistics: completion now, turnaround = completion - arrival,
   * waiting = turnaround - the burst recorded at arrival (0 when no burst
   * was recorded for the id).
   */
  lemma CompletionStatistics(s: Sys)
    requires s.running.Some?
    requires s.running.value.burstTime <= s.runningUntil - s.lastDispatchAt
    ensures var run := s.running.value;
            var r := Settle(s);
            var original := if run.pid in s.bursts then s.bursts[run.pid] else 0;
            && r.finished == s.finished + [FinishedJob(run.pid, run.arrivalTime, s.clock,
                                                       s.clock - run.arrivalTime,
                                                       s.clock - run.arrivalTime - original)]
            && r.running.None? && r.ready == s.ready
            && r.usage == ReturnBoth(s.usage, run.memoryReq, run.devReq)
  {
  }

  /** The snapshot holds each job completed by `t` exactly as often as the finished list does, and no other. */
  lemma {:induction false} FinishedUpToCounts(jobs: seq<FinishedJob>, t: int)
    ensures forall j :: multiset(FinishedUpTo(jobs, t))[j]
                        == if j.completionTime <= t then multiset(jobs)[j] else 0
  {
    if jobs != [] {
      var init := jobs[..|jobs| - 1];
      var last := jobs[|jobs| - 1];
      assert jobs == init + [last];
      FinishedUpToCounts(init, t);
      assert multiset(jobs) == multiset(init) + multiset{last};
    }
  }

  /** In every consistent state the snapshot up to the clock is the whole finished list. */
  lemma {:induction false} SnapshotUpToClock(jobs: seq<FinishedJob>, t: int)
    requires forall j | j in jobs :: j.completionTime <= t
    ensures FinishedUpTo(jobs, t) == jobs
  {
    if jobs != [] {
      var init := jobs[..|jobs| - 1];
      assert jobs == init + [jobs[|jobs| - 1]];
      assert forall j | j in init :: j in jobs;
      SnapshotUpToClock(init, t);
    }
  }
}
