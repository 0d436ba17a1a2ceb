/**
  The reduction at the heart of `detect_deadlock`
  (deadlock_escape.py:155-182), as functions on values, with the
  safety-algorithm theorems about it.

  The scratch pool starts as a copy of the free units; the reduction
  repeatedly takes the FIRST unresolved process that can finish against
  the scratch pool, adds everything it holds to the pool and drops it from
  the list, and stops when a whole pass finds nobody.
*/
module Detection {
  import opened Resources
  import opened Processes

  /** `ps` without the element at index `i`. */
  function Without(ps: seq<Process>, i: nat): (r: seq<Process>)
    requires i < |ps|
    ensures |r| == |ps| - 1
    ensures multiset(r) + multiset{ps[i]} == multiset(ps)
    ensures forall p | p in r :: p in ps
  {
    assert ps == ps[..i] + [ps[i]] + ps[i + 1..];
    ps[..i] + ps[i + 1..]
  }

  /** The processes of `ps` that are not Finished, in list order. */
  function Unfinished(ps: seq<Process>): (u: seq<Process>)
    ensures |u| <= |ps|
    ensures forall p :: p in u <==> p in ps && p.state != Finished
  {
    if ps == [] then []
    else
      assert ps == [ps[0]] + ps[1..];
      (if ps[0].state != Finished then [ps[0]] else []) + Unfinished(ps[1..])
  }

  /** The index of the first process of `ps` that can finish against `pool`; `|ps|` when there is none. */
  function FirstFinishable(ps: seq<Process>, pool: Counts): (i: nat)
    ensures i <= |ps|
    ensures i < |ps| ==> ps[i].CanFinish(pool)
    ensures forall j :: 0 <= j < i ==> !ps[j].CanFinish(pool)
  {
    if ps == [] then 0
    else if ps[0].CanFinish(pool) then 0
    else 1 + FirstFinishable(ps[1..], pool)
  }

  /**
    The outcome of a reduction: the processes it resolved, in the order
    it resolved them; those it could not resolve, in list order; and the
    scratch pool it ended with.
  */
  datatype Reduction = Reduction(order: seq<Process>, remaining: seq<Process>, pool: Counts)

  /** The `while changed` loop of the detector, run from `pool` over the unresolved list `ps`. */
  function Reduce(pool: Counts, ps: seq<Process>): (r: Reduction)
    ensures |r.remaining| <= |ps|
    ensures multiset(r.order) + multiset(r.remaining) == multiset(ps)
    ensures forall p | p in r.remaining :: !p.CanFinish(r.pool)
    decreases |ps|
  {
    var i := FirstFinishable(ps, pool);
    if i == |ps| then
      assert forall p | p in ps :: exists j :: 0 <= j < |ps| && ps[j] == p;
      Reduction([], ps, pool)
    else
      var rest := Reduce(AddAll(pool, ps[i].allocation), Without(ps, i));
      assert multiset([ps[i]] + rest.order) == multiset{ps[i]} + multiset(rest.order);
      Reduction([ps[i]] + rest.order, rest.remaining, rest.pool)
  }

  /**
    No process before the first one that can finish is equal to it, so
    removing the first equal element, as `list.remove` does, removes the
    element at that index.
  */
  lemma FirstFinishableIsFirstOccurrence(ps: seq<Process>, pool: Counts)
    requires FirstFinishable(ps, pool) < |ps|
    ensures forall j :: 0 <= j < FirstFinishable(ps, pool) ==> ps[j] != ps[FirstFinishable(ps, pool)]
  {
  }

  /** One productive pass: the first process that can finish is removed and its holdings join the pool. */
  lemma ReduceStep(pool: Counts, ps: seq<Process>)
    requires FirstFinishable(ps, pool) < |ps|
    ensures var i := FirstFinishable(ps, pool);
      Reduce(pool, ps).remaining == Reduce(AddAll(pool, ps[i].allocation), Without(ps, i)).remaining
  {
  }

  /** A pass that finds nobody ends the reduction with the list as it is. */
  lemma ReduceStuck(pool: Counts, ps: seq<Process>)
    requires FirstFinishable(ps, pool) == |ps|
    ensures Reduce(pool, ps).remaining == ps
  {
  }

  /**
    The `while changed` loop of `detect_deadlock`, on the scratch pool and
    the list of unresolved processes, returning the processes left.
  */
  method ReduceInPlace(pool: Counts, ps: seq<Process>) returns (unfinished: seq<Process>)
    ensures unfinished == Reduce(pool, ps).remaining
  {
    var available := pool;
    unfinished := ps;
    var changed := true;
    while changed && unfinished != []
      invariant Reduce(available, unfinished).remaining == Reduce(pool, ps).remaining
      invariant !changed ==> FirstFinishable(unfinished, available) == |unfinished|
      decreases |unfinished| + (if changed then 1 else 0)
    {
      changed := false;
      var j := 0;
      ghost var first := FirstFinishable(unfinished, available);
      while j < |unfinished| && !unfinished[j].CanFinish(available)
        invariant 0 <= j <= first
      {
        j := j + 1;
      }
      assert j == first;
      if j < |unfinished| {
        ReduceStep(available, unfinished);
        available := AddAll(available, unfinished[j].allocation);
        unfinished := Without(unfinished, j);
        changed := true;
      }
    }
    if unfinished != [] {
      ReduceStuck(available, unfinished);
    }
  }

  /** The pool after each process of `order`, in turn, has given back what it holds. */
  function Released(pool: Counts, order: seq<Process>): Counts
    decreases |order|
  {
    if order == [] then pool
    else Released(AddAll(pool, order[0].allocation), order[1..])
  }

  /** Every process of `order` can finish against what the pool holds once all before it have finished. */
  ghost predicate IsSafeSequence(pool: Counts, order: seq<Process>)
    decreases |order|
  {
    order == [] ||
    (order[0].CanFinish(pool) && IsSafeSequence(AddAll(pool, order[0].allocation), order[1..]))
  }

  /** Some ordering of `ps` lets every process finish, one after another: the safe state of the Banker's algorithm. */
  ghost predicate SafeState(pool: Counts, ps: seq<Process>)
  {
    exists order :: multiset(order) == multiset(ps) && IsSafeSequence(pool, order)
  }

  ghost predicate HoldingsNonNegative(ps: seq<Process>)
  {
    forall p | p in ps :: NonNegative(p.allocation)
  }

  /** The detector's verdict: true iff some unfinished process is left once the reduction stops. */
  function Deadlocked(pool: Counts, ps: seq<Process>): bool
  {
    var u := Unfinished(ps);
    if u == [] then false else Reduce(pool, u).remaining != []
  }

  /** The processes the reduction resolves form a safe sequence, ending at the pool it reports. */
  lemma {:induction false} ReductionOrderIsSafe(pool: Counts, ps: seq<Process>)
    ensures IsSafeSequence(pool, Reduce(pool, ps).order)
    ensures Reduce(pool, ps).pool == Released(pool, Reduce(pool, ps).order)
    decreases |ps|
  {
    var i := FirstFinishable(ps, pool);
    if i < |ps| {
      var pool' := AddAll(pool, ps[i].allocation);
      ReductionOrderIsSafe(pool', Without(ps, i));
      var r, rest := Reduce(pool, ps), Reduce(pool', Without(ps, i));
      assert r.order == [ps[i]] + rest.order;
      assert r.order[1..] == rest.order;
    }
  }

  /** The two halves of a non-empty safe sequence. */
  lemma SafeUncons(pool: Counts, order: seq<Process>)
    requires order != [] && IsSafeSequence(pool, order)
    ensures order[0].CanFinish(pool)
    ensures IsSafeSequence(AddAll(pool, order[0].allocation), order[1..])
  {
  }

  lemma SafeCons(pool: Counts, first: Process, tail: seq<Process>)
    requires first.CanFinish(pool)
    requires IsSafeSequence(AddAll(pool, first.allocation), tail)
    ensures IsSafeSequence(pool, [first] + tail)
  {
    assert ([first] + tail)[1..] == tail;
  }

  /**
    Taking a process that holds non-negative amounts out of a safe
    sequence, and handing what it holds to the pool at the start, leaves a
    safe sequence.
  */
  lemma {:induction false} SafeWithout(pool: Counts, order: seq<Process>, m: nat)
    requires m < |order| && IsSafeSequence(pool, order)
    requires NonNegative(order[m].allocation)
    ensures IsSafeSequence(AddAll(pool, order[m].allocation), Without(order, m))
    decreases m
  {
    var p := order[m];
    SafeUncons(pool, order);
    if m == 0 {
      assert Without(order, 0) == order[1..];
    } else {
      var first, rest := order[0], order[1..];
      var pool' := AddAll(pool, p.allocation);
      AddAllGrows(pool, p.allocation);
      CanFinishMonotone(first, pool, pool');
      assert rest[m - 1] == p;
      SafeWithout(AddAll(pool, first.allocation), rest, m - 1);
      AddAllCommutes(pool, first.allocation, p.allocation);
      SafeCons(pool', first, Without(rest, m - 1));
      WithoutCons(order, m);
    }
  }

  /** Removing a later element keeps the head in front. */
  lemma WithoutCons(ps: seq<Process>, m: nat)
    requires 0 < m < |ps|
    ensures Without(ps, m) == [ps[0]] + Without(ps[1..], m - 1)
  {
    assert ps[..m] == [ps[0]] + ps[1..][..m - 1];
    assert ps[m + 1..] == ps[1..][m..];
  }

  /** Two lists that each give the same list once `p` is added back hold the same processes. */
  lemma SameWithout(a: seq<Process>, b: seq<Process>, p: Process)
    requires multiset(a) + multiset{p} == multiset(b) + multiset{p}
    ensures multiset(a) == multiset(b)
  {
    forall q ensures multiset(a)[q] == multiset(b)[q] {
      assert (multiset(a) + multiset{p})[q] == (multiset(b) + multiset{p})[q];
    }
  }

  /** Against a safe ordering somebody can finish, and the first-fit choice sits somewhere in that ordering. */
  lemma FirstFitInSafeOrder(pool: Counts, ps: seq<Process>, order: seq<Process>) returns (m: nat)
    requires ps != []
    requires multiset(order) == multiset(ps) && IsSafeSequence(pool, order)
    ensures FirstFinishable(ps, pool) < |ps|
    ensures m < |order| && order[m] == ps[FirstFinishable(ps, pool)]
  {
    var i := FirstFinishable(ps, pool);
    SafeUncons(pool, order);
    assert order[0] in multiset(ps);
    var j :| 0 <= j < |ps| && ps[j] == order[0];
    assert i <= j;
    assert ps[i] in multiset(order);
    m :| 0 <= m < |order| && order[m] == ps[i];
  }

  /** First-fit reduction is complete: if any ordering is safe, the reduction resolves everybody. */
  lemma {:induction false} SafeOrderLeavesNothing(pool: Counts, ps: seq<Process>, order: seq<Process>)
    requires HoldingsNonNegative(ps)
    requires multiset(order) == multiset(ps) && IsSafeSequence(pool, order)
    ensures Reduce(pool, ps).remaining == []
    decreases |ps|
  {
    if ps != [] {
      var m := FirstFitInSafeOrder(pool, ps, order);
      var i := FirstFinishable(ps, pool);
      var p := ps[i];
      assert NonNegative(p.allocation);
      SafeWithout(pool, order, m);
      var ps', order' := Without(ps, i), Without(order, m);
      SameWithout(order', ps', p);
      ReduceStep(pool, ps);
      SafeOrderLeavesNothing(AddAll(pool, p.allocation), ps', order');
    }
  }

  /**
    Safety-algorithm correctness: the reduction leaves nobody behind
    exactly when some ordering of the processes is safe.
  */
  lemma ReductionResolvesAllIffSafe(pool: Counts, ps: seq<Process>)
    requires HoldingsNonNegative(ps)
    ensures Reduce(pool, ps).remaining == [] <==> SafeState(pool, ps)
  {
    var r := Reduce(pool, ps);
    if r.remaining == [] {
      ReductionOrderIsSafe(pool, ps);
      assert multiset(r.order) == multiset(ps);
    }
    if SafeState(pool, ps) {
      var order :| multiset(order) == multiset(ps) && IsSafeSequence(pool, order);
      SafeOrderLeavesNothing(pool, ps, order);
    }
  }

  /** The detector reports a deadlock iff the unfinished processes are in no safe state. */
  lemma DeadlockedIffUnsafe(pool: Counts, ps: seq<Process>)
    requires HoldingsNonNegative(ps)
    ensures Deadlocked(pool, ps) <==> !SafeState(pool, Unfinished(ps))
  {
    var u := Unfinished(ps);
    if u == [] {
      assert IsSafeSequence(pool, []);
    } else {
      ReductionResolvesAllIffSafe(pool, u);
    }
  }

  /** The verdict does not depend on the order of the process list. */
  lemma OutcomeIgnoresOrder(pool: Counts, ps: seq<Process>, qs: seq<Process>)
    requires HoldingsNonNegative(ps)
    requires multiset(ps) == multiset(qs)
    ensures (Reduce(pool, ps).remaining == []) == (Reduce(pool, qs).remaining == [])
  {
    assert forall p | p in qs :: p in multiset(qs);
    ReductionResolvesAllIffSafe(pool, ps);
    ReductionResolvesAllIffSafe(pool, qs);
    if SafeState(pool, ps) {
      var order :| multiset(order) == multiset(ps) && IsSafeSequence(pool, order);
      assert multiset(order) == multiset(qs);
    }
    if SafeState(pool, qs) {
      var order :| multiset(order) == multiset(qs) && IsSafeSequence(pool, order);
      assert multiset(order) == multiset(ps);
    }
  }

  /** The unfinished processes of `ps`, as a multiset: every unfinished process with its multiplicity in `ps`. */
  lemma {:induction false} UnfinishedMultiset(ps: seq<Process>, p: Process)
    ensures multiset(Unfinished(ps))[p] == if p.state != Finished then multiset(ps)[p] else 0
  {
    if ps != [] {
      UnfinishedMultiset(ps[1..], p);
      assert ps == [ps[0]] + ps[1..];
    }
  }

  /** The detector's verdict does not depend on the order of the whole process list. */
  lemma DeadlockedIgnoresOrder(pool: Counts, ps: seq<Process>, qs: seq<Process>)
    requires HoldingsNonNegative(ps)
    requires multiset(ps) == multiset(qs)
    ensures Deadlocked(pool, ps) == Deadlocked(pool, qs)
  {
    var u, v := Unfinished(ps), Unfinished(qs);
    forall p ensures multiset(u)[p] == multiset(v)[p] {
      UnfinishedMultiset(ps, p);
      UnfinishedMultiset(qs, p);
    }
    assert multiset(u) == multiset(v);
    assert u == [] <==> v == [] by {
      assert |u| == |multiset(u)| && |v| == |multiset(v)|;
    }
    if u != [] {
      OutcomeIgnoresOrder(pool, u, v);
    }
  }

  /** With every process Finished there is nothing left to check. */
  lemma {:induction false} AllFinishedNothingUnfinished(ps: seq<Process>)
    requires forall i :: 0 <= i < |ps| ==> ps[i].state == Finished
    ensures Unfinished(ps) == []
  {
    if ps != [] {
      AllFinishedNothingUnfinished(ps[1..]);
    }
  }

  /** With every process Finished the detector returns false at once. */
  lemma AllFinishedNoDeadlock(pool: Counts, ps: seq<Process>)
    requires forall i :: 0 <= i < |ps| ==> ps[i].state == Finished
    ensures !Deadlocked(pool, ps)
  {
    AllFinishedNothingUnfinished(ps);
  }
}
