/**
  Process records and their two read-only predicates
  (deadlock_escape.py:31-36, 58-84).
*/
module Processes {
  import opened Resources

  /** The lifecycle states of a process (the `ProcessState` enum). */
  datatype ProcessState = Waiting | Running | Finished | Blocked

  /**
    A process: its identity, its demand per kind, what it has been granted
    so far per kind, and its state. Kinds missing from `allocation` read as 0,
    as with Python's `dict.get(kind, 0)`.
  */
  datatype Process = Process(
    id: string,
    name: string,
    required: Counts,
    allocation: Counts,
    state: ProcessState)
  {
    /** The grant covers the demand of every required kind. */
    predicate IsSatisfied()
    {
      forall k | k in required :: Get(allocation, k) >= required[k]
    }

    /** The outstanding need of every required kind fits in `available`. */
    predicate CanFinish(available: Counts)
    {
      forall k | k in required :: required[k] - Get(allocation, k) <= Get(available, k)
    }
  }

  /** A satisfied process can finish against any non-negative pool. */
  lemma SatisfiedCanFinish(p: Process, available: Counts)
    requires p.IsSatisfied() && NonNegative(available)
    ensures p.CanFinish(available)
  {
  }

  /** Against an empty pool, finishing is exactly being satisfied. */
  lemma CanFinishWithNothingIffSatisfied(p: Process)
    ensures p.CanFinish(map[]) <==> p.IsSatisfied()
    ensures p.CanFinish(Zero()) <==> p.IsSatisfied()
  {
  }

  /** A process that can finish against a pool can finish against any larger one. */
  lemma CanFinishMonotone(p: Process, a: Counts, b: Counts)
    requires p.CanFinish(a) && AtMost(a, b)
    ensures p.CanFinish(b)
  {
  }
}
