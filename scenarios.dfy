/**
 * Worked runs of the dispatcher model: the two-job FCFS run and the
 * admission run in which a second job waits in HQ2 until the first one
 * releases its memory. Each run is split at its quiet points, where the
 * whole state is written out.
 */
module Scenarios {
  import opened Basics
  import opened ProcessRecord
  import opened Resources
  import opened Scheduling
  import opened DispatchModel
  import opened Dispatcher
  import opened DispatchProofs

  const P1 := Process(1, 0, 8, 1, 5, 4, StateNew)
  const P2 := Process(2, 0, 3, 1, 5, 4, StateNew)

  /** Both FCFS jobs have arrived at 0 and P1 holds the processor until 8. */
  lemma FcfsArrivals(s0: Sys, s1: Sys, s2: Sys, s3: Sys)
    requires s0 == Initial(0, Caps(45, 12), FCFS)
    requires s1 == Arrive(s0, P1) && s2 == Advance(s1, 0) && s3 == Arrive(s2, P2)
    ensures s3 == Sys(0, Caps(45, 12), Counters(10, 8), [], [], [], [P2],
                      Some(P1.WithState(StateRunning)), 8, 0, FCFS, map[1 := 8, 2 := 3], [])
  {
    assert s1.ready == [P1] && s1.usage == Counters(5, 4);
    assert s1.submit == [] && s1.hq1 == [] && s1.hq2 == [];
    assert Advance(s1, 0) == Dispatch(s1, 0);
    assert Sweep(Drain(s1)) == s1;
    assert s2.running == Some(P1.WithState(StateRunning)) && s2.runningUntil == 8 && s2.ready == [];
  }

  /** From that state, P1 completes at 8, P2 runs 8..11, and at 20 nothing is left. */
  lemma FcfsRun(s3: Sys, s4: Sys)
    requires s3 == Sys(0, Caps(45, 12), Counters(10, 8), [], [], [], [P2],
                       Some(P1.WithState(StateRunning)), 8, 0, FCFS, map[1 := 8, 2 := 3], [])
    requires s4 == Advance(s3, 20)
    ensures s4.clock == 20
    ensures s4.finished == [FinishedJob(1, 0, 8, 8, 0), FinishedJob(2, 0, 11, 11, 8)]
    ensures s4.submit == [] && s4.hq1 == [] && s4.hq2 == [] && s4.ready == []
    ensures s4.running == None && s4.usage == Counters(0, 0)
  {
    assert Advance(s3, 20) == Dispatch(s3, 20);
    assert Sweep(Drain(s3)) == s3 && MaybeSchedule(s3) == s3;
    var t8 := Settle(s3.(clock := 8));
    assert t8.finished == [FinishedJob(1, 0, 8, 8, 0)] && t8.usage == Counters(5, 4);
    assert Sweep(Drain(t8)) == t8;
    var u8 := MaybeSchedule(t8);
    assert u8.running == Some(P2.WithState(StateRunning)) && u8.runningUntil == 11 && u8.lastDispatchAt == 8;
    var t11 := Settle(u8.(clock := 11));
    assert t11.finished == [FinishedJob(1, 0, 8, 8, 0), FinishedJob(2, 0, 11, 11, 8)];
    assert t11.usage == Counters(0, 0) && t11.ready == [] && t11.running == None;
    assert MaybeSchedule(Sweep(Drain(t11))) == t11;
    assert DispatchLoop(s3, 20) == DispatchLoop(u8, 20) == DispatchLoop(t11, 20) == t11.(clock := 20);
  }

  /**
   * Memory 45, 12 devices, FCFS. P1 (burst 8) and P2 (burst 3) arrive at 0;
   * P1 runs 0..8, P2 runs 8..11, so P2 waits 8 ticks; at 20 nothing is left.
   */
  lemma FcfsTwoJobs(s0: Sys, s1: Sys, s2: Sys, s3: Sys, s4: Sys)
    requires s0 == Initial(0, Caps(45, 12), FCFS)
    requires s1 == Arrive(s0, P1) && s2 == Advance(s1, 0) && s3 == Arrive(s2, P2)
    requires s4 == Advance(s3, 20)
    ensures s4.clock == 20
    ensures s4.finished == [FinishedJob(1, 0, 8, 8, 0), FinishedJob(2, 0, 11, 11, 8)]
    ensures FinishedUpTo(s4.finished, 20) == s4.finished
    ensures s4.submit == [] && s4.hq1 == [] && s4.hq2 == [] && s4.ready == []
    ensures s4.running == None && s4.usage == Counters(0, 0)
  {
    FcfsArrivals(s0, s1, s2, s3);
    FcfsRun(s3, s4);
    SnapshotUpToClock(s4.finished, 20);
  }

  /** The FCFS run driven through the objects, as the simulation driver drives them. */
  method FcfsTwoJobsOnObjects() returns (jobs: seq<FinishedJob>)
    ensures jobs == [FinishedJob(1, 0, 8, 8, 0), FinishedJob(2, 0, 11, 11, 8)]
  {
    var oks := new OtherKerServices(45, 12);
    var pm := new PrManager(0, oks);
    pm.SetScheduler(FCFS);
    ghost var s0 := pm.Abs();
    pm.ProcArrivalRoutine(P1);
    ghost var s1 := pm.Abs();
    pm.CpuTimeAdvance(0);
    ghost var s2 := pm.Abs();
    pm.ProcArrivalRoutine(P2);
    ghost var s3 := pm.Abs();
    pm.CpuTimeAdvance(20);
    FcfsTwoJobs(s0, s1, s2, s3, pm.Abs());
    jobs := pm.GetFinishedJobsSnapshot(20);
  }

  const Q1 := Process(1, 0, 5, 1, 8, 2, StateNew)
  const Q2 := Process(2, 0, 5, 2, 8, 2, StateNew)

  /** Memory 10, 5 devices: Q1 (memory 8) is admitted, Q2 (memory 8, priority 2) waits in HQ2. */
  lemma AdmissionArrivals(s0: Sys, s1: Sys, s2: Sys)
    requires s0 == Initial(0, Caps(10, 5), NewDynamicRR())
    requires s1 == Arrive(s0, Q1) && s2 == Arrive(s1, Q2)
    ensures s2 == Sys(0, Caps(10, 5), Counters(8, 2), [], [], [Q2], [Q1],
                      None, LongMax, 0, DynamicRR(true, 0, 0), map[1 := 5, 2 := 5], [])
  {
    assert s1.ready == [Q1] && s1.usage == Counters(8, 2);
    assert !Admissible(s1.(bursts := s1.bursts[2 := 5]), Q2);
  }

  /** The advance by 0 starts Q1 for its whole burst: the dynamic policy's first slice. */
  lemma AdmissionStart(s2: Sys, s3: Sys)
    requires s2 == Sys(0, Caps(10, 5), Counters(8, 2), [], [], [Q2], [Q1],
                       None, LongMax, 0, DynamicRR(true, 0, 0), map[1 := 5, 2 := 5], [])
    requires s3 == Advance(s2, 0)
    ensures s3 == Sys(0, Caps(10, 5), Counters(8, 2), [], [], [Q2], [],
                      Some(Q1.WithState(StateRunning)), 5, 0, DynamicRR(false, 0, 0), map[1 := 5, 2 := 5], [])
  {
    assert Advance(s2, 0) == Dispatch(s2, 0);
    assert Sweep(Drain(s2)) == s2;
  }

  /** At 5 Q1 completes and releases its reservation; Q2 is still in HQ2. */
  lemma AdmissionRelease(s3: Sys)
    requires s3 == Sys(0, Caps(10, 5), Counters(8, 2), [], [], [Q2], [],
                       Some(Q1.WithState(StateRunning)), 5, 0, DynamicRR(false, 0, 0), map[1 := 5, 2 := 5], [])
    ensures Settle(s3.(clock := 5))
            == Sys(5, Caps(10, 5), Counters(0, 0), [], [], [Q2], [],
                   None, 5, 0, DynamicRR(false, 0, 0), map[1 := 5, 2 := 5], [FinishedJob(1, 0, 5, 5, 0)])
  {
  }

  /** After the release the same advance admits Q2 from HQ2 and starts it. */
  lemma AdmissionReadmit(t5: Sys)
    requires t5 == Sys(5, Caps(10, 5), Counters(0, 0), [], [], [Q2], [],
                       None, 5, 0, DynamicRR(false, 0, 0), map[1 := 5, 2 := 5], [FinishedJob(1, 0, 5, 5, 0)])
    ensures var u5 := MaybeSchedule(Sweep(Drain(t5)));
            && u5.finished == t5.finished && u5.hq2 == [] && u5.ready == [] && u5.usage == Counters(8, 2)
            && u5.running == Some(Q2.WithState(StateRunning)) && u5.runningUntil > 5
  {
    assert Drain(t5) == t5;
    assert Admissible(t5, Q2);
    var m5 := Promote2(t5);
    assert m5.hq2 == [] && m5.ready == [Q2] && Sweep(m5) == m5;
  }

  /** The advance to 5: Q1 completes, and Q2 is admitted from HQ2 and started. */
  lemma AdmissionFinish(s3: Sys, s4: Sys)
    requires s3 == Sys(0, Caps(10, 5), Counters(8, 2), [], [], [Q2], [],
                       Some(Q1.WithState(StateRunning)), 5, 0, DynamicRR(false, 0, 0), map[1 := 5, 2 := 5], [])
    requires s4 == Advance(s3, 5)
    ensures s4.finished == [FinishedJob(1, 0, 5, 5, 0)]
    ensures s4.hq2 == [] && s4.ready == [] && s4.running == Some(Q2.WithState(StateRunning))
    ensures s4.usage == Counters(8, 2)
  {
    assert Advance(s3, 5) == Dispatch(s3, 5);
    assert Sweep(Drain(s3)) == s3 && MaybeSchedule(s3) == s3;
    AdmissionRelease(s3);
    var t5 := Settle(s3.(clock := 5));
    AdmissionReadmit(t5);
    var u5 := MaybeSchedule(Sweep(Drain(t5)));
    assert DispatchLoop(s3, 5) == DispatchLoop(u5, 5) == u5.(clock := 5);
  }

  /**
   * Memory 10, 5 devices. Q1 (memory 8) is admitted; Q2 (memory 8, priority 2)
   * cannot fit next to it and waits in HQ2. When Q1 completes at 5 the same
   * advance admits Q2 from HQ2 and starts it.
   */
  lemma AdmissionAfterRelease(s0: Sys, s1: Sys, s2: Sys, s3: Sys, s4: Sys)
    requires s0 == Initial(0, Caps(10, 5), NewDynamicRR())
    requires s1 == Arrive(s0, Q1) && s2 == Arrive(s1, Q2)
    requires s3 == Advance(s2, 0) && s4 == Advance(s3, 5)
    ensures s2.ready == [Q1] && s2.hq1 == [] && s2.hq2 == [Q2]
    ensures s4.finished == [FinishedJob(1, 0, 5, 5, 0)]
    ensures s4.hq2 == [] && s4.running == Some(Q2.WithState(StateRunning))
    ensures s4.usage == Counters(8, 2)
  {
    AdmissionArrivals(s0, s1, s2);
    AdmissionStart(s2, s3);
    AdmissionFinish(s3, s4);
  }
}
