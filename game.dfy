/**
  The `GameState` class (deadlock_escape.py:87-222): the owner of the
  pool, the process list, the move counter and the log. Its methods work
  in place, as `deadlock_escape.py` does, and are proved to leave the object in
  the state that the functions of module Allocation and the reduction of
  module Detection prescribe.
*/
module Game {
  import opened Resources
  import opened Processes
  import opened Detection
  import opened Generation
  import opened Allocation

  /** `self.max_moves = 20` */
  const MoveLimit: int := 20

  /**
    `_initialize_resources` once the float scaling is done: `scaled[k]`
    stands for `int(base_amount * multiplier)`. Every kind gets a new full
    Resource of capacity `max(2, scaled[k])`.
  */
  method InitializeResources(scaled: Counts) returns (resources: map<ResourceType, Resource>)
    ensures forall k: ResourceType :: k in resources && resources[k].kind == k
    ensures forall k: ResourceType :: resources[k].total == Max(2, Get(scaled, k))
    ensures forall k: ResourceType :: resources[k].available == resources[k].total
    ensures forall k: ResourceType :: fresh(resources[k])
  {
    resources := map[];
    var t := 0;
    while t < |AllKinds|
      invariant 0 <= t <= |AllKinds|
      invariant forall k: ResourceType :: k in resources <==> KindIndex(k) < t
      invariant forall k | k in resources :: resources[k].kind == k
      invariant forall k | k in resources :: resources[k].total == Max(2, Get(scaled, k))
      invariant forall k | k in resources :: resources[k].available == resources[k].total
      invariant forall k | k in resources :: fresh(resources[k])
    {
      var kind := AllKinds[t];
      var total := Max(2, Get(scaled, kind));
      var resource := new Resource(kind, total, total);
      resources := resources[kind := resource];
      t := t + 1;
    }
  }

  /** The grant of the process being finished once the first `t` kinds of the enumeration have been released. */
  function PartialClear(held: Counts, t: nat): Counts
    requires t <= |AllKinds|
  {
    if t == 0 then held
    else
      var prev, kind := PartialClear(held, t - 1), AllKinds[t - 1];
      if Get(held, kind) > 0 then prev[kind := 0] else prev
  }

  /** The free units once the first `t` kinds of the enumeration of `held` have been released. */
  function PartialRelease(available: Counts, total: Counts, held: Counts, t: nat): Counts
    requires t <= |AllKinds|
  {
    if t == 0 then available
    else
      var prev, kind := PartialRelease(available, total, held, t - 1), AllKinds[t - 1];
      if Get(held, kind) > 0 then prev[kind := Min(Get(total, kind), Get(prev, kind) + Get(held, kind))] else prev
  }

  /** Kind `k` of the grant is cleared once its place in the enumeration is passed, and untouched before. */
  lemma {:induction false} PartialClearAt(held: Counts, t: nat, k: ResourceType)
    requires t <= |AllKinds|
    ensures k in PartialClear(held, t) <==> k in held
    ensures k in held ==> PartialClear(held, t)[k] == if KindIndex(k) < t && held[k] > 0 then 0 else held[k]
  {
    if t > 0 {
      PartialClearAt(held, t - 1, k);
      if k != AllKinds[t - 1] {
        assert KindIndex(k) != t - 1;
      }
    }
  }

  /** Kind `k` of the pool is released once its place in the enumeration is passed, and untouched before. */
  lemma {:induction false} PartialReleaseAt(available: Counts, total: Counts, held: Counts, t: nat, k: ResourceType)
    requires t <= |AllKinds| && HasAllKinds(available)
    ensures k in PartialRelease(available, total, held, t)
    ensures PartialRelease(available, total, held, t)[k] ==
      if KindIndex(k) < t then ReleasedCount(available[k], Get(total, k), Get(held, k)) else available[k]
  {
    if t > 0 {
      PartialReleaseAt(available, total, held, t - 1, k);
      if k != AllKinds[t - 1] {
        assert KindIndex(k) != t - 1;
      }
    }
  }

  /** After the last kind the loop has cleared every positive holding and released it. */
  lemma PartialAll(available: Counts, total: Counts, held: Counts)
    requires HasAllKinds(available)
    ensures PartialClear(held, |AllKinds|) == ClearHoldings(held)
    ensures PartialRelease(available, total, held, |AllKinds|) == ReleaseHoldings(available, total, held)
  {
    var all, clear := PartialClear(held, |AllKinds|), ClearHoldings(held);
    forall k: ResourceType ensures (k in all <==> k in clear) && (k in all ==> all[k] == clear[k]) {
      PartialClearAt(held, |AllKinds|, k);
    }
    assert all.Keys == clear.Keys;
    var rel, back := PartialRelease(available, total, held, |AllKinds|), ReleaseHoldings(available, total, held);
    forall k: ResourceType ensures k in rel && rel[k] == back[k] {
      PartialReleaseAt(available, total, held, |AllKinds|, k);
    }
    CountsEqual(rel, back);
  }

  class GameState {
    const level: int
    const resources: map<ResourceType, Resource>
    const maxMoves: int
    var processes: seq<Process>
    var log: seq<LogEntry>
    var moves: int

    /** One Resource per kind, stored under its own kind. */
    ghost predicate Valid()
    {
      forall k: ResourceType :: k in resources && resources[k].kind == k
    }

    /** `get_available_resources`: a fresh dictionary of the free units of every kind. */
    function AvailableResources(): (r: Counts)
      reads resources.Values
      requires Valid()
      ensures HasAllKinds(r)
      ensures forall k: ResourceType :: r[k] == resources[k].available
    {
      map k | k in resources :: resources[k].available
    }

    /** The capacities of every kind. */
    function Totals(): (r: Counts)
      requires Valid()
      ensures HasAllKinds(r)
      ensures forall k: ResourceType :: r[k] == resources[k].total
    {
      map k | k in resources :: resources[k].total
    }

    /** The whole state as a value. */
    function Snap(): Snapshot
      reads this, resources.Values
      requires Valid()
    {
      Snapshot(Totals(), AvailableResources(), processes, log, moves, maxMoves)
    }

    /**
      `GameState(level)`, with the level 1 by default: full resources, a
      freshly generated process list, an empty log, no moves and a limit of
      20 moves. The scaled amounts and the random draws come first, so that
      the level can keep its default and be left out by callers. The accounting
      invariant holds from the start.
    */
    constructor (scaled: Counts, picks: seq<nat>, offsets: seq<Counts>, level: int := 1)
      requires level >= 1
      requires ValidDraws(level, picks, offsets)
      ensures Valid()
      ensures forall k: ResourceType :: fresh(resources[k])
      ensures this.level == level && maxMoves == MoveLimit && moves == 0 && log == []
      ensures forall k: ResourceType :: resources[k].total == Max(2, Get(scaled, k))
      ensures forall k: ResourceType :: resources[k].available == resources[k].total
      ensures |processes| == ProcessCount(level)
      ensures forall i :: 0 <= i < |processes| ==>
        && processes[i].id == ProcessId(i + 1)
        && processes[i].name == Templates[picks[i]].name
        && processes[i].required == VariedDemand(level, Templates[picks[i]].demand, offsets[i])
        && processes[i].allocation == Zero()
        && processes[i].state == Waiting
      ensures Conserved(Snap())
    {
      var pool := InitializeResources(scaled);
      var generated := GenerateProcesses(level, picks, offsets);
      this.level := level;
      resources := pool;
      processes := generated;
      log := [];
      moves := 0;
      maxMoves := MoveLimit;
      new;
      assert AvailableResources() == Totals();
      InitialLevelConserved(Totals(), processes, maxMoves);
    }

    /**
      `detect_deadlock`: runs the reduction on a copy of the free units and
      a new list of the unfinished processes; the state is not touched.
    */
    method DetectDeadlock() returns (deadlock: bool)
      requires Valid()
      ensures deadlock == Deadlocked(AvailableResources(), processes)
    {
      var available := AvailableResources();
      var unfinished := Unfinished(processes);
      if unfinished == [] {
        return false;
      }
      var remaining := ReduceInPlace(available, unfinished);
      deadlock := remaining != [];
    }

    /**
      The loop of `_finish_process`: every positive holding in `held` goes
      back to its Resource and is set to 0 in the returned grant.
    */
    method ReleaseAll(held: Counts, ghost before: Counts) returns (cleared: Counts)
      requires Valid() && before == AvailableResources()
      modifies resources.Values
      ensures cleared == ClearHoldings(held)
      ensures AvailableResources() == ReleaseHoldings(before, Totals(), held)
    {
      ghost var totals := Totals();
      cleared := held;
      var t := 0;
      while t < |AllKinds|
        invariant 0 <= t <= |AllKinds|
        invariant cleared == PartialClear(held, t)
        invariant AvailableResources() == PartialRelease(before, totals, held, t)
      {
        cleared := ReleaseStep(held, t, cleared, before);
        t := t + 1;
      }
      PartialAll(before, totals, held);
    }

    /** One pass of the loop of `_finish_process`: the kind at position `t` of the enumeration. */
    method ReleaseStep(held: Counts, t: nat, cleared: Counts, ghost before: Counts) returns (next: Counts)
      requires Valid() && t < |AllKinds| && HasAllKinds(before)
      requires cleared == PartialClear(held, t)
      requires AvailableResources() == PartialRelease(before, Totals(), held, t)
      modifies resources[AllKinds[t]]
      ensures next == PartialClear(held, t + 1)
      ensures AvailableResources() == PartialRelease(before, Totals(), held, t + 1)
    {
      var kind := AllKinds[t];
      var amount := Get(held, kind);
      next := cleared;
      if amount > 0 {
        ReleaseKind(kind, amount, AvailableResources());
        next := cleared[kind := 0];
      }
    }

    /** `self.resources[kind].release(amount)`, seen on the whole pool. */
    method ReleaseKind(kind: ResourceType, amount: int, ghost before: Counts)
      requires Valid() && before == AvailableResources()
      modifies resources[kind]
      ensures AvailableResources() == before[kind := Min(Get(Totals(), kind), Get(before, kind) + amount)]
    {
      var resource := resources[kind];
      assert forall k: ResourceType :: k != kind ==> resources[k] != resource;
      resource.Release(amount);
      CountsEqual(AvailableResources(), before[kind := resource.available]);
    }

    /** `_finish_process`: mark process `i` Finished and release everything it holds. */
    method FinishProcess(i: nat)
      requires Valid() && i < |processes|
      modifies this, resources.Values
      ensures Snap() == Finish(old(Snap()), i)
    {
      ghost var s := Snap();
      var process := processes[i];
      processes := processes[i := process.(state := Finished)];
      var cleared := ReleaseAll(process.allocation, s.available);
      processes := processes[i := processes[i].(allocation := cleared)];
      log := log + [ProcessFinished(process.id, process.name)];
      assert Snap() == Finish(s, i);
    }

    /** `self.resources[kind].allocate(amount)`, seen on the whole pool. */
    method TakeUnits(kind: ResourceType, amount: int, ghost before: Counts) returns (taken: bool)
      requires Valid() && before == AvailableResources()
      modifies resources[kind]
      ensures taken <==> Get(before, kind) >= amount
      ensures AvailableResources() == if taken then before[kind := Get(before, kind) - amount] else before
    {
      var resource := resources[kind];
      assert forall k: ResourceType :: k != kind ==> resources[k] != resource;
      taken := resource.Allocate(amount);
      if taken {
        CountsEqual(AvailableResources(), before[kind := before[kind] - amount]);
      } else {
        CountsEqual(AvailableResources(), before);
      }
    }

    /**
      `allocate_resource`: refused (nothing changes) for an unknown id, a
      Finished process or too few free units; otherwise the units move to
      the process, the move is counted, a satisfied process is finished and
      the allocation is logged. Together with
      `Allocation.AllocatePreservesConservation`, this shows that a call with a
      non-negative amount keeps the accounting invariant.
    */
    method AllocateResource(processId: string, kind: ResourceType, amount: int := 1) returns (ok: bool)
      requires Valid()
      modifies this, resources.Values
      ensures Outcome(ok, Snap()) == Allocate(old(Snap()), processId, kind, amount)
    {
      ghost var before := Snap();
      var found := FindProcess(processes, processId);
      if found.None? {
        return false;
      }
      var i := found.value;
      var process := processes[i];
      if process.state == Finished {
        return false;
      }
      var taken := TakeUnits(kind, amount, before.available);
      if !taken {
        return false;
      }
      ghost var granted := GrantStep(before, i, kind, amount);
      ghost var pool := AvailableResources();
      assert pool == granted.available;
      processes := processes[i := Grant(process, kind, amount)];
      moves := moves + 1;
      assert AvailableResources() == pool;
      assert Snap() == granted;
      CompleteMove(i, kind, amount, granted);
      return true;
    }

    /** The rest of a successful `allocate_resource`: finish a satisfied process, then log. */
    method CompleteMove(i: nat, kind: ResourceType, amount: int, ghost before: Snapshot)
      requires Valid() && i < |processes| && before == Snap()
      modifies this, resources.Values
      ensures Snap() == Allocation.CompleteMove(before, i, kind, amount)
    {
      var process := processes[i];
      if process.IsSatisfied() {
        FinishProcess(i);
      }
      ghost var settled := Snap();
      log := log + [Allocated(amount, kind, process.id)];
      CountsEqual(AvailableResources(), settled.available);
      assert Snap() == settled.(log := log);
    }

    /** `is_level_complete` */
    function IsLevelComplete(): bool
      reads this, resources.Values
      requires Valid()
    {
      Allocation.IsLevelComplete(Snap())
    }

    /** `is_game_over` */
    function IsGameOver(): bool
      reads this, resources.Values
      requires Valid()
    {
      Allocation.IsGameOver(Snap())
    }
  }
}
