/**
 * Named queues of process records. Every queue is FIFO except the one named
 * HQ1, which keeps its records ordered by (memoryReq, arrivalTime) through a
 * linear-scan insertion.
 */
module Queues {
  import opened Basics
  import opened ProcessRecord

  /** ASCII upper-casing of one character. */
  function UpperChar(c: char): char {
    if 'a' <= c <= 'z' then (c as int - 32) as char else c
  }

  /** ASCII upper-casing of a string, character by character. */
  function ToUpper(s: string): (r: string)
    ensures |r| == |s|
    ensures forall i :: 0 <= i < |s| ==> r[i] == UpperChar(s[i])
  {
    if s == [] then [] else [UpperChar(s[0])] + ToUpper(s[1..])
  }

  /** A string without lower-case letters is its own upper-casing. */
  lemma UpperFixed(s: string)
    requires forall i :: 0 <= i < |s| ==> !('a' <= s[i] <= 'z')
    ensures ToUpper(s) == s
  {
    var u := ToUpper(s);
    assert forall i :: 0 <= i < |s| ==> u[i] == s[i];
  }

  /** The queue constructor's type normalisation: an absent type is "FIFO", others are upper-cased. */
  function NormaliseType(t: Option<string>): string {
    match t
    case None => "FIFO"
    case Some(s) => ToUpper(s)
  }

  /** Only a type spelled h/H, q/Q, 1 normalises to HQ1, so only that queue sorts. */
  lemma NormalisedHq1(t: Option<string>)
    ensures NormaliseType(t) == "HQ1" <==>
      t.Some? && |t.value| == 3 && t.value[0] in "hH" && t.value[1] in "qQ" && t.value[2] == '1'
  {
    if t.Some? && |t.value| == 3 {
      var u := ToUpper(t.value);
      assert u == [UpperChar(t.value[0]), UpperChar(t.value[1]), UpperChar(t.value[2])];
    }
  }

  /** `p` goes in front of `e` in HQ1: smaller memory, or equal memory and earlier arrival. */
  predicate Precedes(p: Process, e: Process) {
    p.memoryReq < e.memoryReq || (p.memoryReq == e.memoryReq && p.arrivalTime < e.arrivalTime)
  }

  /** Non-decreasing by (memoryReq, arrivalTime): no later record precedes an earlier one. */
  ghost predicate HoldOrdered(s: seq<Process>) {
    forall i, j :: 0 <= i < j < |s| ==> !Precedes(s[j], s[i])
  }

  /** Where the HQ1 scan inserts `p`: before the first record that `p` precedes, else at the end. */
  function InsertPos(s: seq<Process>, p: Process): (k: nat)
    ensures k <= |s|
    ensures forall j :: 0 <= j < k ==> !Precedes(p, s[j])
    ensures k < |s| ==> Precedes(p, s[k])
  {
    if s == [] then 0
    else if Precedes(p, s[0]) then 0
    else 1 + InsertPos(s[1..], p)
  }

  /** The position `p` takes in a queue of type `kind`. */
  function EnqueuePos(kind: string, s: seq<Process>, p: Process): (k: nat)
    ensures k <= |s|
  {
    if kind == "HQ1" then InsertPos(s, p) else |s|
  }

  /** The contents after enqueue: `p` inserted at its position, the rest untouched. */
  function Enqueued(kind: string, s: seq<Process>, p: Process): (r: seq<Process>)
    ensures |r| == |s| + 1
    ensures r[EnqueuePos(kind, s, p)] == p
    ensures r[..EnqueuePos(kind, s, p)] == s[..EnqueuePos(kind, s, p)]
    ensures r[EnqueuePos(kind, s, p) + 1..] == s[EnqueuePos(kind, s, p)..]
    ensures multiset(r) == multiset(s) + multiset{p}
  {
    var k := EnqueuePos(kind, s, p);
    assert s == s[..k] + s[k..];
    s[..k] + [p] + s[k..]
  }

  /** On any queue other than HQ1, enqueue appends at the tail. */
  lemma FifoEnqueueAppends(kind: string, s: seq<Process>, p: Process)
    requires kind != "HQ1"
    ensures Enqueued(kind, s, p) == s + [p]
  {
    var r := Enqueued(kind, s, p);
    assert r[..|s|] == s;
  }

  /** Membership after enqueue: the old records and `p`, nothing else. */
  lemma EnqueuedMembers(kind: string, s: seq<Process>, p: Process, x: Process)
    ensures x in Enqueued(kind, s, p) <==> x in s || x == p
  {
    assert x in Enqueued(kind, s, p) <==> x in multiset(Enqueued(kind, s, p));
  }

  /** HQ1 enqueue keeps a (memoryReq, arrivalTime)-ordered queue ordered. */
  lemma {:induction false} EnqueueKeepsHoldOrder(s: seq<Process>, p: Process)
    requires HoldOrdered(s)
    ensures HoldOrdered(Enqueued("HQ1", s, p))
  {
    var k := InsertPos(s, p);
    var r := Enqueued("HQ1", s, p);
    forall i, j | 0 <= i < j < |r| ensures !Precedes(r[j], r[i]) {
      if j < k {
        assert r[i] == s[i] && r[j] == s[j];
      } else if j == k {
        assert r[i] == s[i];
      } else if i == k {
        assert r[j] == s[j - 1] && Precedes(p, s[k]);
        assert k == j - 1 || !Precedes(s[j - 1], s[k]);
      } else if i < k {
        assert r[i] == s[i] && r[j] == s[j - 1];
      } else {
        assert r[i] == s[i - 1] && r[j] == s[j - 1];
      }
    }
  }

  /** In an ordered HQ1, a record with the same (memoryReq, arrivalTime) as `p` stays in front of it. */
  lemma HoldEnqueueIsStable(s: seq<Process>, p: Process, j: int)
    requires HoldOrdered(s)
    requires 0 <= j < |s|
    requires s[j].memoryReq == p.memoryReq && s[j].arrivalTime == p.arrivalTime
    ensures j < InsertPos(s, p)
  {
  }

  /** On FIFO queues enqueue and dequeue commute: the head stays the head, and the rest is the enqueue on the rest. */
  lemma EnqueueThenDequeueFifo(kind: string, s: seq<Process>, p: Process)
    requires kind != "HQ1" && s != []
    ensures Enqueued(kind, s, p)[0] == s[0] && Enqueued(kind, s, p)[1..] == Enqueued(kind, s[1..], p)
  {
    FifoEnqueueAppends(kind, s, p);
    FifoEnqueueAppends(kind, s[1..], p);
  }

  /** A queue of process records (the source's Queue over a LinkedList). */
  class Queue {
    const schType: string
    var q: seq<Process>

    constructor (schType: Option<string>)
      ensures this.schType == NormaliseType(schType)
      ensures q == []
    {
      this.schType := NormaliseType(schType);
      q := [];
    }

    /** enqueue: HQ1 scans for the first record `p` precedes and inserts before it; others append. */
    method Enqueue(p: Process)
      modifies this
      ensures q == Enqueued(schType, old(q), p)
    {
      if schType == "HQ1" {
        var i := 0;
        while i < |q|
          invariant 0 <= i <= |q|
          invariant q == old(q)
          invariant forall j :: 0 <= j < i ==> !Precedes(p, q[j])
        {
          var cur := q[i];
          if Precedes(p, cur) {
            assert i == InsertPos(q, p);
            q := q[..i] + [p] + q[i..];
            return;
          }
          i := i + 1;
        }
        assert i == InsertPos(q, p);
        q := q + [p];
      } else {
        q := q + [p];
      }
    }

    /** dequeue: the head, removed; `None` (and no change) on an empty queue. */
    method Dequeue() returns (r: Option<Process>)
      modifies this
      ensures old(q) == [] ==> r == None && q == []
      ensures old(q) != [] ==> r == Some(old(q)[0]) && q == old(q)[1..]
    {
      if q == [] {
        return None;
      }
      r := Some(q[0]);
      q := q[1..];
    }

    /** peek: the head without removing it. */
    function Peek(): (r: Option<Process>)
      reads this
      ensures r.Some? <==> q != []
      ensures r.Some? ==> r.value == q[0]
    {
      if q == [] then None else Some(q[0])
    }

    function IsEmpty(): (b: bool)
      reads this
      ensures b <==> Size() == 0
    {
      q == []
    }

    function Size(): (n: nat)
      reads this
      ensures n == |q|
    {
      |q|
    }

    /** snapshot: the current contents as an immutable sequence value. */
    function Snapshot(): (s: seq<Process>)
      reads this
      ensures |s| == Size() && forall i :: 0 <= i < |s| ==> s[i] == q[i]
    {
      q
    }
  }
}
