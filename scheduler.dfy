/**
 * Scheduling policies. A policy has two operations: pick the next record from
 * READY, and compute the slice of the picked record given READY as it then
 * stands. The three policies are the variants of one datatype; the dynamic
 * round robin carries its own state (first-slice flag, SR, AR), which the
 * dispatcher keeps and hands back after every slice computation.
 */
module Scheduling {
  import opened Basics
  import opened ProcessRecord
  import opened Queues

  /** A static round-robin quantum: the constructor clamps it to at least one tick. */
  type Quantum = q: int | q >= 1 witness 1

  datatype Policy =
    | FCFS
    | StaticRR(quantum: Quantum)
    | DynamicRR(firstSlice: bool, sr: int, ar: int)

  /** A slice length together with the policy state after computing it. */
  datatype Sliced = Sliced(slice: int, next: Policy)

  /** SRoundRobinScheduler(q): quantum = max(1, q). */
  function NewStaticRR(q: int): (p: Policy)
    ensures p.StaticRR?
    ensures q >= 1 ==> p.quantum == q
    ensures q < 1 ==> p.quantum == 1
  {
    StaticRR(Max(1, q))
  }

  /** A fresh DRoundRobinScheduler: first slice pending, SR = AR = 0. */
  function NewDynamicRR(): (p: Policy)
    ensures p.DynamicRR? && p.firstSlice && p.sr == 0 && p.ar == 0
  {
    DynamicRR(true, 0, 0)
  }

  /** Sum of remaining bursts over a sequence of records, accumulated front to back. */
  function SumBursts(s: seq<Process>): int {
    if s == [] then 0 else SumBursts(s[..|s| - 1]) + s[|s| - 1].burstTime
  }

  /** Math.round(sum / cnt) on integers: floor(sum / cnt + 1/2). */
  function RoundHalfUp(sum: int, cnt: int): int
    requires cnt > 0
  {
    (2 * sum + cnt) / (2 * cnt)
  }

  /** RoundHalfUp is the nearest integer to sum / cnt, halves rounded up. */
  lemma RoundHalfUpIsNearest(sum: int, cnt: int)
    requires cnt > 0
    ensures 2 * sum - cnt < 2 * cnt * RoundHalfUp(sum, cnt) <= 2 * sum + cnt
  {
    var r := RoundHalfUp(sum, cnt);
    var d := 2 * cnt;
    var n := 2 * sum + cnt;
    assert n == d * (n / d) + n % d && 0 <= n % d < d;
    assert d * r == 2 * cnt * r;
  }

  /** The slice each policy computes for `selected`, with `ready` the READY queue without it. */
  function TimeSlice(policy: Policy, selected: Process, ready: seq<Process>): Sliced {
    match policy
    case FCFS => Sliced(Max(1, selected.burstTime), FCFS)
    case StaticRR(q) => Sliced(q, policy)
    case DynamicRR(first, _, _) =>
      if first then Sliced(Max(1, selected.burstTime), DynamicRR(false, 0, 0))
      else
        var sum := selected.burstTime + SumBursts(ready);
        var ar := Max(1, RoundHalfUp(sum, |ready| + 1));
        Sliced(ar, DynamicRR(false, sum, ar))
  }

  /** Every computed slice is at least one tick. */
  lemma SliceAtLeastOne(policy: Policy, selected: Process, ready: seq<Process>)
    ensures TimeSlice(policy, selected, ready).slice >= 1
  {
  }

  /** FCFS: the slice covers the whole remaining burst and reads neither READY nor any state. */
  lemma FcfsRunsToCompletion(selected: Process, ready: seq<Process>)
    ensures TimeSlice(FCFS, selected, ready).slice == Max(1, selected.burstTime)
    ensures TimeSlice(FCFS, selected, ready).slice >= selected.burstTime
    ensures TimeSlice(FCFS, selected, ready).next == FCFS
  {
  }

  /** Static RR: the quantum, whatever the selected record and READY hold; the policy is unchanged. */
  lemma StaticSliceIsQuantum(q: Quantum, a: Process, ra: seq<Process>, b: Process, rb: seq<Process>)
    ensures TimeSlice(StaticRR(q), a, ra) == TimeSlice(StaticRR(q), b, rb) == Sliced(q, StaticRR(q))
  {
  }

  /** Dynamic RR, first call: the full burst (at least one), flag cleared, SR = AR = 0. */
  lemma DynamicFirstSlice(selected: Process, ready: seq<Process>, sr: int, ar: int)
    ensures TimeSlice(DynamicRR(true, sr, ar), selected, ready)
            == Sliced(Max(1, selected.burstTime), DynamicRR(false, 0, 0))
  {
  }

  /**
   * Dynamic RR, later calls: SR is the selected burst plus every READY burst,
   * AR (the slice) is the rounded mean over |READY| + 1 records, at least one,
   * and the first-slice flag stays cleared.
   */
  lemma DynamicLaterSlice(selected: Process, ready: seq<Process>, sr: int, ar: int)
    ensures var t := TimeSlice(DynamicRR(false, sr, ar), selected, ready);
            var sum := selected.burstTime + SumBursts(ready);
            && t.slice == Max(1, RoundHalfUp(sum, |ready| + 1))
            && t.next == DynamicRR(false, sum, t.slice)
            && t.slice >= 1
            && (t.slice > 1 ==> 2 * sum - (|ready| + 1) < 2 * (|ready| + 1) * t.slice <= 2 * sum + |ready| + 1)
  {
    var sum := selected.burstTime + SumBursts(ready);
    RoundHalfUpIsNearest(sum, |ready| + 1);
  }

  /** Once a dynamic policy has computed a slice, its first-slice flag is false for good. */
  lemma DynamicFlagStaysCleared(policy: Policy, selected: Process, ready: seq<Process>)
    requires policy.DynamicRR?
    ensures TimeSlice(policy, selected, ready).next.DynamicRR?
    ensures !TimeSlice(policy, selected, ready).next.firstSlice
  {
  }

  /** selectNextProcess, shared by all three policies: dequeue the head of READY. */
  method SelectNextProcess(policy: Policy, readyQ: Queue) returns (r: Option<Process>)
    modifies readyQ
    ensures old(readyQ.q) == [] ==> r == None && readyQ.q == []
    ensures old(readyQ.q) != [] ==> r == Some(old(readyQ.q)[0]) && readyQ.q == old(readyQ.q)[1..]
  {
    r := readyQ.Dequeue();
  }

  /**
   * computeTimeSlice: the slice for `selected` and the policy state afterwards.
   * READY is only read, through its snapshot; the dynamic policy sums over it in a loop.
   */
  method ComputeTimeSlice(policy: Policy, selected: Process, readyQ: Queue) returns (slice: int, next: Policy)
    ensures Sliced(slice, next) == TimeSlice(policy, selected, readyQ.q)
  {
    match policy
    case FCFS =>
      var rem := selected.burstTime;
      return Max(1, rem), FCFS;
    case StaticRR(q) =>
      return q, policy;
    case DynamicRR(first, _, _) =>
      var remSel := selected.burstTime;
      if first {
        return Max(1, remSel), DynamicRR(false, 0, 0);
      }
      var sum := remSel;
      var cnt := 1;
      var snap := readyQ.Snapshot();
      assert snap == readyQ.q;
      for k := 0 to |snap|
        invariant sum == remSel + SumBursts(snap[..k])
        invariant cnt == k + 1
      {
        assert snap[..k + 1][..k] == snap[..k];
        sum := sum + snap[k].burstTime;
        cnt := cnt + 1;
      }
      assert snap[..|snap|] == snap;
      var ar := if cnt == 0 then 0 else Max(1, RoundHalfUp(sum, cnt));
      return ar, DynamicRR(false, sum, ar);
  }
}
