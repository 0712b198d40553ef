/**
 * The resource manager: two capacities (memory, devices) and two usage counters.
 * Value-level functions give the meaning of each operation; the class
 * `OtherKerServices` updates its counters in place and is proved against them.
 */
module Resources {
  import opened Basics
  import opened ProcessRecord

  /** The two totals, fixed at construction. */
  datatype Caps = Caps(memorySize: int, noDevs: int)

  /** The two usage counters. */
  datatype Counters = Counters(memInUse: int, devsInUse: int)

  /** Outcome of a reservation attempt and the counters it leaves behind. */
  datatype Grant = Grant(ok: bool, after: Counters)

  /** The resource invariant: each counter lies between zero and its total. */
  ghost predicate Within(caps: Caps, c: Counters) {
    0 <= c.memInUse <= caps.memorySize && 0 <= c.devsInUse <= caps.noDevs
  }

  /** allocateMemory on the counters. */
  function GrantMemory(caps: Caps, c: Counters, amount: int): Grant {
    if amount <= 0 then Grant(false, c)
    else if c.memInUse + amount > caps.memorySize then Grant(false, c)
    else Grant(true, c.(memInUse := c.memInUse + amount))
  }

  /** reserveDevices on the counters. */
  function GrantDevices(caps: Caps, c: Counters, n: int): Grant {
    if n <= 0 then Grant(false, c)
    else if c.devsInUse + n > caps.noDevs then Grant(false, c)
    else Grant(true, c.(devsInUse := c.devsInUse + n))
  }

  /** deallocateMemory on the counters: ignores a non-positive amount, clamps at zero. */
  function ReturnMemory(c: Counters, amount: int): Counters {
    if amount <= 0 then c else c.(memInUse := Max(0, c.memInUse - amount))
  }

  /** releaseDevices on the counters: ignores a non-positive amount, clamps at zero. */
  function ReturnDevices(c: Counters, n: int): Counters {
    if n <= 0 then c else c.(devsInUse := Max(0, c.devsInUse - n))
  }

  /**
   * allocate(p): memory first, then devices, rolling the memory step back when
   * the device step fails. The reservation is all-or-nothing.
   */
  function GrantBoth(caps: Caps, c: Counters, mem: int, dev: int): (g: Grant)
    ensures g.ok <==> 0 < mem && 0 < dev
                      && c.memInUse + mem <= caps.memorySize
                      && c.devsInUse + dev <= caps.noDevs
    ensures g.ok ==> g.after == Counters(c.memInUse + mem, c.devsInUse + dev)
    ensures !g.ok && 0 <= c.memInUse ==> g.after == c
  {
    var m := GrantMemory(caps, c, mem);
    if !m.ok then Grant(false, m.after)
    else
      var d := GrantDevices(caps, m.after, dev);
      if !d.ok then Grant(false, ReturnMemory(d.after, mem)) else d
  }

  /** release(p): devices first, then memory, each clamped at zero. */
  function ReturnBoth(c: Counters, mem: int, dev: int): (r: Counters)
    ensures r.memInUse == (if mem <= 0 then c.memInUse else Max(0, c.memInUse - mem))
    ensures r.devsInUse == (if dev <= 0 then c.devsInUse else Max(0, c.devsInUse - dev))
  {
    ReturnMemory(ReturnDevices(c, dev), mem)
  }

  /** canEverFit(p): the request against the totals, whatever is in use. */
  function FitsTotals(caps: Caps, p: Process): bool {
    p.memoryReq <= caps.memorySize && p.devReq <= caps.noDevs
  }

  /** An allocate, whatever its outcome, keeps each counter within zero and its total. */
  lemma GrantBothKeepsBounds(caps: Caps, c: Counters, mem: int, dev: int)
    requires Within(caps, c)
    ensures Within(caps, GrantBoth(caps, c, mem, dev).after)
  {
  }

  /** A release keeps each counter within zero and its total. */
  lemma ReturnBothKeepsBounds(caps: Caps, c: Counters, mem: int, dev: int)
    requires Within(caps, c)
    ensures Within(caps, ReturnBoth(c, mem, dev))
  {
  }

  /** allocate for a request with a non-positive part never succeeds and changes nothing. */
  lemma GrantBothRejectsNonPositive(caps: Caps, c: Counters, mem: int, dev: int)
    requires mem <= 0 || dev <= 0
    requires 0 <= c.memInUse
    ensures GrantBoth(caps, c, mem, dev) == Grant(false, c)
  {
  }

  /** A successful allocate followed by the matching release restores the counters. */
  lemma GrantThenReturn(caps: Caps, c: Counters, mem: int, dev: int)
    requires Within(caps, c)
    requires GrantBoth(caps, c, mem, dev).ok
    ensures ReturnBoth(GrantBoth(caps, c, mem, dev).after, mem, dev) == c
  {
  }

  /** A request that passes allocate also passes canEverFit. */
  lemma GrantImpliesFits(caps: Caps, c: Counters, p: Process)
    requires Within(caps, c)
    requires GrantBoth(caps, c, p.memoryReq, p.devReq).ok
    ensures FitsTotals(caps, p)
  {
  }

  /** The resource manager object (OtherKerServices). */
  class OtherKerServices {
    const memorySize: int
    const noDevs: int
    var memInUse: int
    var devsInUse: int

    ghost predicate Valid()
      reads this
    {
      Within(Totals(), Usage())
    }

    function Totals(): Caps {
      Caps(memorySize, noDevs)
    }

    function Usage(): Counters
      reads this
    {
      Counters(memInUse, devsInUse)
    }

    /** Negative totals are clamped to zero; nothing is in use. */
    constructor (memorySize: int, noDevs: int)
      ensures Valid()
      ensures this.memorySize == Max(0, memorySize) && this.noDevs == Max(0, noDevs)
      ensures memInUse == 0 && devsInUse == 0
    {
      this.memorySize := Max(0, memorySize);
      this.noDevs := Max(0, noDevs);
      memInUse := 0;
      devsInUse := 0;
    }

    method AllocateMemory(amount: int) returns (ok: bool)
      requires Valid()
      modifies this
      ensures Valid()
      ensures ok <==> 0 < amount && old(memInUse) + amount <= memorySize
      ensures memInUse == (if ok then old(memInUse) + amount else old(memInUse))
      ensures devsInUse == old(devsInUse)
    {
      if amount <= 0 {
        return false;
      }
      if memInUse + amount > memorySize {
        return false;
      }
      memInUse := memInUse + amount;
      return true;
    }

    method DeallocateMemory(amount: int)
      requires Valid()
      modifies this
      ensures Valid()
      ensures memInUse == (if amount <= 0 then old(memInUse) else Max(0, old(memInUse) - amount))
      ensures devsInUse == old(devsInUse)
    {
      if amount <= 0 {
        return;
      }
      memInUse := Max(0, memInUse - amount);
    }

    method ReserveDevices(n: int) returns (ok: bool)
      requires Valid()
      modifies this
      ensures Valid()
      ensures ok <==> 0 < n && old(devsInUse) + n <= noDevs
      ensures devsInUse == (if ok then old(devsInUse) + n else old(devsInUse))
      ensures memInUse == old(memInUse)
    {
      if n <= 0 {
        return false;
      }
      if devsInUse + n > noDevs {
        return false;
      }
      devsInUse := devsInUse + n;
      return true;
    }

    method ReleaseDevices(n: int)
      requires Valid()
      modifies this
      ensures Valid()
      ensures devsInUse == (if n <= 0 then old(devsInUse) else Max(0, old(devsInUse) - n))
      ensures memInUse == old(memInUse)
    {
      if n <= 0 {
        return;
      }
      devsInUse := Max(0, devsInUse - n);
    }

    /** allocate(p): all-or-nothing reservation of both requirements. */
    method Allocate(p: Process) returns (ok: bool)
      requires Valid()
      modifies this
      ensures Valid()
      ensures Grant(ok, Usage()) == GrantBoth(Totals(), old(Usage()), p.memoryReq, p.devReq)
      ensures ok ==> memInUse == old(memInUse) + p.memoryReq && devsInUse == old(devsInUse) + p.devReq
      ensures !ok ==> memInUse == old(memInUse) && devsInUse == old(devsInUse)
    {
      var mem := p.memoryReq;
      var dev := p.devReq;
      ok := AllocateMemory(mem);
      if !ok {
        return;
      }
      ok := ReserveDevices(dev);
      if !ok {
        DeallocateMemory(mem);
        return;
      }
    }

    /** release(p): gives back both requirements, clamped at zero. */
    method Release(p: Process)
      requires Valid()
      modifies this
      ensures Valid()
      ensures Usage() == ReturnBoth(old(Usage()), p.memoryReq, p.devReq)
    {
      ReleaseDevices(p.devReq);
      DeallocateMemory(p.memoryReq);
    }

    /** canEverFit(p): reads only the totals, so it cannot depend on what is in use. */
    function CanEverFit(p: Process): (b: bool)
      ensures b == FitsTotals(Totals(), p)
    {
      p.memoryReq <= memorySize && p.devReq <= noDevs
    }

    function GetFreeMemory(): (r: int)
      reads this
      ensures Valid() ==> 0 <= r <= memorySize
      ensures r + memInUse == memorySize
    {
      memorySize - memInUse
    }

    function GetFreeDevices(): (r: int)
      reads this
      ensures Valid() ==> 0 <= r <= noDevs
      ensures r + devsInUse == noDevs
    {
      noDevs - devsInUse
    }
  }
}
