/**
 * The process control block. Records are values: a queue holds copies, and the
 * dispatcher updates the single copy that sits in its running slot.
 */
module ProcessRecord {

  /** Lifecycle codes stored in `state`. */
  const StateNew: int := 0
  const StateReady: int := 1
  const StateRunning: int := 2
  const StateBlocked: int := 3
  const StateFinished: int := 4

  /**
   * One simulated job. The datatype constructor takes the seven values in the
   * source constructor's order and its field selectors are the getters.
   * `burstTime` is the remaining burst.
   */
  datatype Process = Process(
    pid: int,
    arrivalTime: int,
    burstTime: int,
    priority: int,
    memoryReq: int,
    devReq: int,
    state: int)
  {
    /** setBurstTime: the remaining burst becomes `v`; every other field is kept. */
    function WithBurstTime(v: int): (q: Process)
      ensures q.burstTime == v
      ensures q.pid == pid && q.arrivalTime == arrivalTime && q.priority == priority
      ensures q.memoryReq == memoryReq && q.devReq == devReq && q.state == state
    {
      this.(burstTime := v)
    }

    /** setState: the lifecycle code becomes `v`; every other field is kept. */
    function WithState(v: int): (q: Process)
      ensures q.state == v
      ensures q.pid == pid && q.arrivalTime == arrivalTime && q.burstTime == burstTime
      ensures q.priority == priority && q.memoryReq == memoryReq && q.devReq == devReq
    {
      this.(state := v)
    }
  }
}
