/**
  The state of a level as a value, and what `allocate_resource` and
  `_finish_process` do to it (deadlock_escape.py:87-222). The `GameState`
  class in module Game is proved to behave exactly like these functions;
  the lemmas here state what the functions guarantee: all-or-nothing
  failure, the effects of a successful move, and conservation of units.
*/
module Allocation {
  import opened Resources
  import opened Processes
  import opened Detection

  datatype Option<T> = None | Some(value: T)

  /** An entry of the action log; the human-readable text and the timestamp are not modelled. */
  datatype LogEntry =
    | Allocated(amount: int, kind: ResourceType, processId: string)
    | ProcessFinished(processId: string, name: string)

  /**
    A level at one moment: the capacity and the free units of every kind,
    the processes in list order, the log, and the move counter with its limit.
  */
  datatype Snapshot = Snapshot(
    total: Counts,
    available: Counts,
    processes: seq<Process>,
    log: seq<LogEntry>,
    moves: int,
    maxMoves: int)

  /** The index of the first process with the given id, as `next(...)` finds it. */
  function FindProcess(ps: seq<Process>, id: string): (r: Option<nat>)
    ensures r.Some? ==> r.value < |ps| && ps[r.value].id == id
    ensures r.Some? ==> forall j :: 0 <= j < r.value ==> ps[j].id != id
    ensures r.None? ==> forall j :: 0 <= j < |ps| ==> ps[j].id != id
  {
    if ps == [] then None
    else if ps[0].id == id then Some(0)
    else
      match FindProcess(ps[1..], id)
      case None => None
      case Some(j) => Some(j + 1)
  }

  /** The free units of one kind after a holding of `held` units is released (`Resource.release`, skipped unless positive). */
  function ReleasedCount(available: int, total: int, held: int): int
  {
    if held > 0 then Min(total, available + held) else available
  }

  /** The pool after every positive holding has been released, each release capped at its kind's capacity. */
  function ReleaseHoldings(available: Counts, total: Counts, held: Counts): Counts
  {
    map k | k in available :: ReleasedCount(available[k], Get(total, k), Get(held, k))
  }

  /** The holdings after every positive entry has been set to 0. */
  function ClearHoldings(held: Counts): Counts
  {
    map k | k in held :: if held[k] > 0 then 0 else held[k]
  }

  /** `_finish_process`: the process becomes Finished and hands back what it holds. */
  function Finish(s: Snapshot, i: nat): Snapshot
    requires i < |s.processes|
  {
    var p := s.processes[i];
    s.(available := ReleaseHoldings(s.available, s.total, p.allocation),
       processes := s.processes[i := p.(state := Finished, allocation := ClearHoldings(p.allocation))],
       log := s.log + [ProcessFinished(p.id, p.name)])
  }

  /** What `allocate_resource` answers, and the level after the call. */
  datatype Outcome = Outcome(ok: bool, after: Snapshot)

  /** The process `p` with `amount` more units of `kind`. */
  function Grant(p: Process, kind: ResourceType, amount: int): Process
  {
    p.(allocation := p.allocation[kind := Get(p.allocation, kind) + amount])
  }

  /** The level once `amount` units of `kind` have moved to process `i` and the move is counted, before the finish check. */
  function GrantStep(s: Snapshot, i: nat, kind: ResourceType, amount: int): Snapshot
    requires i < |s.processes|
  {
    s.(available := s.available[kind := Get(s.available, kind) - amount],
       processes := s.processes[i := Grant(s.processes[i], kind, amount)],
       moves := s.moves + 1)
  }

  /** The rest of a successful move: finish process `i` if it is now satisfied, then log the allocation. */
  function CompleteMove(s: Snapshot, i: nat, kind: ResourceType, amount: int): Snapshot
    requires i < |s.processes|
  {
    var p := s.processes[i];
    var settled := if p.IsSatisfied() then Finish(s, i) else s;
    settled.(log := settled.log + [Allocated(amount, kind, p.id)])
  }

  /** `allocate_resource(process_id, resource_type, amount)` */
  function Allocate(s: Snapshot, id: string, kind: ResourceType, amount: int): Outcome
  {
    match FindProcess(s.processes, id)
    case None => Outcome(false, s)
    case Some(i) =>
      var p := s.processes[i];
      if p.state == Finished || Get(s.available, kind) < amount then Outcome(false, s)
      else
        Outcome(true, CompleteMove(GrantStep(s, i, kind, amount), i, kind, amount))
  }

  /** `is_level_complete` */
  predicate IsLevelComplete(s: Snapshot)
  {
    forall i :: 0 <= i < |s.processes| ==> s.processes[i].state == Finished
  }

  /** `is_game_over` */
  predicate IsGameOver(s: Snapshot)
  {
    Deadlocked(s.available, s.processes) || s.moves >= s.maxMoves
  }

  // ---------------------------------------------------------------------
  // Conservation of units
  // ---------------------------------------------------------------------

  /** Units of `kind` held by the processes of `ps`. */
  function SumHeld(ps: seq<Process>, kind: ResourceType): int
  {
    if ps == [] then 0 else Get(ps[0].allocation, kind) + SumHeld(ps[1..], kind)
  }

  /** Every dictionary has an entry for every kind. */
  ghost predicate WellFormed(s: Snapshot)
  {
    && HasAllKinds(s.total)
    && HasAllKinds(s.available)
    && (forall i :: 0 <= i < |s.processes| ==> HasAllKinds(s.processes[i].allocation))
  }

  /**
    The accounting invariant of a level: no count is negative, a Finished
    process holds nothing, and for every kind the free units plus the units
    held by the processes make up the capacity.
  */
  ghost predicate Conserved(s: Snapshot)
  {
    && WellFormed(s)
    && (forall k: ResourceType :: s.available[k] >= 0)
    && (forall i :: 0 <= i < |s.processes| ==> NonNegative(s.processes[i].allocation))
    && (forall i :: 0 <= i < |s.processes| && s.processes[i].state == Finished ==> AllZero(s.processes[i].allocation))
    && (forall k: ResourceType :: s.available[k] + SumHeld(s.processes, k) == s.total[k])
  }

  lemma {:induction false} SumHeldOfZeros(ps: seq<Process>, kind: ResourceType)
    requires forall i :: 0 <= i < |ps| ==> AllZero(ps[i].allocation)
    ensures SumHeld(ps, kind) == 0
  {
    if ps != [] {
      SumHeldOfZeros(ps[1..], kind);
    }
  }

  /** A single process never holds more than all processes together. */
  lemma {:induction false} HeldWithinSum(ps: seq<Process>, i: nat, kind: ResourceType)
    requires i < |ps|
    requires forall j :: 0 <= j < |ps| ==> NonNegative(ps[j].allocation)
    ensures 0 <= Get(ps[i].allocation, kind) <= SumHeld(ps, kind)
  {
    assert NonNegative(ps[0].allocation);
    if i == 0 {
      SumHeldNonNegative(ps[1..], kind);
    } else {
      HeldWithinSum(ps[1..], i - 1, kind);
    }
  }

  lemma {:induction false} SumHeldNonNegative(ps: seq<Process>, kind: ResourceType)
    requires forall j :: 0 <= j < |ps| ==> NonNegative(ps[j].allocation)
    ensures SumHeld(ps, kind) >= 0
  {
    if ps != [] {
      assert NonNegative(ps[0].allocation);
      SumHeldNonNegative(ps[1..], kind);
    }
  }

  /** Replacing one process changes the sum by exactly the change of its holding. */
  lemma {:induction false} SumHeldUpdate(ps: seq<Process>, i: nat, p: Process, kind: ResourceType)
    requires i < |ps|
    ensures SumHeld(ps[i := p], kind) == SumHeld(ps, kind) - Get(ps[i].allocation, kind) + Get(p.allocation, kind)
  {
    if i > 0 {
      assert ps[i := p][1..] == ps[1..][i - 1 := p];
      SumHeldUpdate(ps[1..], i - 1, p, kind);
    }
  }

  /** With Finished processes holding nothing, the sum over all processes is the sum over the unfinished ones. */
  lemma {:induction false} SumHeldOverUnfinished(ps: seq<Process>, kind: ResourceType)
    requires forall i :: 0 <= i < |ps| && ps[i].state == Finished ==> AllZero(ps[i].allocation)
    ensures SumHeld(Unfinished(ps), kind) == SumHeld(ps, kind)
  {
    if ps != [] {
      SumHeldOverUnfinished(ps[1..], kind);
      var rest := Unfinished(ps[1..]);
      if ps[0].state != Finished {
        assert Unfinished(ps) == [ps[0]] + rest;
        assert ([ps[0]] + rest)[1..] == rest;
      } else {
        assert AllZero(ps[0].allocation);
        assert Unfinished(ps) == rest;
      }
    }
  }

  /** Under the invariant every free count lies between 0 and the capacity. */
  lemma ConservedBounds(s: Snapshot, kind: ResourceType)
    requires Conserved(s)
    ensures 0 <= s.available[kind] <= s.total[kind]
  {
    SumHeldNonNegative(s.processes, kind);
  }

  /** The invariant in terms of the unfinished processes only. */
  lemma ConservedOverUnfinished(s: Snapshot, kind: ResourceType)
    requires Conserved(s)
    ensures s.available[kind] + SumHeld(Unfinished(s.processes), kind) == s.total[kind]
  {
    SumHeldOverUnfinished(s.processes, kind);
  }

  /** A fresh level (every unit free, nothing held, nobody Finished) satisfies the invariant. */
  lemma InitialLevelConserved(total: Counts, ps: seq<Process>, maxMoves: int)
    requires HasAllKinds(total)
    requires forall k: ResourceType :: total[k] >= 0
    requires forall i :: 0 <= i < |ps| ==> ps[i].allocation == Zero() && ps[i].state != Finished
    ensures Conserved(Snapshot(total, total, ps, [], 0, maxMoves))
  {
    forall k: ResourceType ensures SumHeld(ps, k) == 0 {
      SumHeldOfZeros(ps, k);
    }
  }

  // ---------------------------------------------------------------------
  // Finishing a process
  // ---------------------------------------------------------------------

  /**
    Under the invariant the capacity clamp of `release` never bites:
    finishing returns every unit the process held to the pool and leaves
    it holding nothing.
  */
  lemma FinishReturnsHoldings(s: Snapshot, i: nat)
    requires Conserved(s) && i < |s.processes|
    ensures var t := Finish(s, i);
      && t.processes[i].state == Finished
      && AllZero(t.processes[i].allocation)
      && (forall k: ResourceType :: k in t.available && t.available[k] == s.available[k] + Get(s.processes[i].allocation, k))
  {
    var p, t := s.processes[i], Finish(s, i);
    forall k: ResourceType ensures k in t.available && t.available[k] == s.available[k] + Get(p.allocation, k) {
      HeldWithinSum(s.processes, i, k);
    }
    assert NonNegative(p.allocation);
    forall k: ResourceType ensures Get(t.processes[i].allocation, k) == 0 {
      assert Get(p.allocation, k) >= 0;
    }
  }

  lemma FinishPreservesConservation(s: Snapshot, i: nat)
    requires Conserved(s) && i < |s.processes|
    ensures Conserved(Finish(s, i))
  {
    var p, t := s.processes[i], Finish(s, i);
    FinishReturnsHoldings(s, i);
    forall k: ResourceType ensures t.available[k] + SumHeld(t.processes, k) == t.total[k] {
      SumHeldUpdate(s.processes, i, t.processes[i], k);
    }
    assert forall j :: 0 <= j < |s.processes| && j != i ==> t.processes[j] == s.processes[j];
  }

  // ---------------------------------------------------------------------
  // allocate_resource
  // ---------------------------------------------------------------------

  /**
    All-or-nothing failure: the call is refused exactly when the id is
    unknown, the process is Finished, or fewer than `amount` units are
    free, and a refused call leaves the level as it was.
  */
  lemma AllocateRefusal(s: Snapshot, id: string, kind: ResourceType, amount: int)
    ensures var r := Allocate(s, id, kind, amount);
      && (!r.ok <==>
           || FindProcess(s.processes, id).None?
           || s.processes[FindProcess(s.processes, id).value].state == Finished
           || Get(s.available, kind) < amount)
      && (!r.ok ==> r.after == s)
  {
  }

  /**
    A successful call counts one move, keeps every other process and the
    capacities as they were, and logs the allocation last.
  */
  lemma AllocateSuccessBookkeeping(s: Snapshot, id: string, kind: ResourceType, amount: int)
    requires Allocate(s, id, kind, amount).ok
    ensures var i, t := FindProcess(s.processes, id).value, Allocate(s, id, kind, amount).after;
      && t.moves == s.moves + 1
      && t.maxMoves == s.maxMoves
      && t.total == s.total
      && |t.processes| == |s.processes|
      && (forall j :: 0 <= j < |s.processes| && j != i ==> t.processes[j] == s.processes[j])
      && t.processes[i].id == id
      && t.processes[i].name == s.processes[i].name
      && t.processes[i].required == s.processes[i].required
      && |t.log| >= |s.log| + 1
      && t.log[..|s.log|] == s.log
      && t.log[|t.log| - 1] == Allocated(amount, kind, id)
  {
  }

  /**
    A successful call that leaves the process unsatisfied moves exactly
    `amount` units of `kind` from the pool to the process. Nothing caps the
    grant at the demand.
  */
  lemma AllocateWithoutFinishing(s: Snapshot, id: string, kind: ResourceType, amount: int)
    requires Allocate(s, id, kind, amount).ok
    requires !Grant(s.processes[FindProcess(s.processes, id).value], kind, amount).IsSatisfied()
    ensures var i, t := FindProcess(s.processes, id).value, Allocate(s, id, kind, amount).after;
      && t.available == s.available[kind := Get(s.available, kind) - amount]
      && t.processes[i] == Grant(s.processes[i], kind, amount)
      && Get(t.processes[i].allocation, kind) == Get(s.processes[i].allocation, kind) + amount
      && t.log == s.log + [Allocated(amount, kind, id)]
  {
  }

  /**
    A successful call that satisfies the process finishes it in the same
    step: it ends Finished, holding nothing, and the pool gets back
    everything it held, the new grant included; the log records the finish
    before the allocation.
  */
  lemma AllocateAndFinish(s: Snapshot, id: string, kind: ResourceType, amount: int)
    requires Conserved(s) && amount >= 0
    requires Allocate(s, id, kind, amount).ok
    requires Grant(s.processes[FindProcess(s.processes, id).value], kind, amount).IsSatisfied()
    ensures var i, t := FindProcess(s.processes, id).value, Allocate(s, id, kind, amount).after;
      && t.processes[i].state == Finished
      && AllZero(t.processes[i].allocation)
      && (forall k: ResourceType :: t.available[k] == s.available[k] + Get(s.processes[i].allocation, k))
      && t.log == s.log + [ProcessFinished(id, s.processes[i].name), Allocated(amount, kind, id)]
  {
    var i := FindProcess(s.processes, id).value;
    var s1 := GrantStep(s, i, kind, amount);
    GrantStepConserved(s, i, kind, amount);
    FinishReturnsHoldings(s1, i);
    var s2 := Finish(s1, i);
    var t := Allocate(s, id, kind, amount).after;
    assert t == s2.(log := s2.log + [Allocated(amount, kind, id)]);
    forall k: ResourceType ensures t.available[k] == s.available[k] + Get(s.processes[i].allocation, k) {
      assert s2.available[k] == s1.available[k] + Get(s1.processes[i].allocation, k);
    }
  }

  lemma GrantStepConserved(s: Snapshot, i: nat, kind: ResourceType, amount: int)
    requires Conserved(s) && i < |s.processes|
    requires s.processes[i].state != Finished
    requires 0 <= amount <= s.available[kind]
    ensures Conserved(GrantStep(s, i, kind, amount))
  {
    var t := GrantStep(s, i, kind, amount);
    assert NonNegative(s.processes[i].allocation);
    forall k: ResourceType ensures Get(t.processes[i].allocation, k) >= 0 {
      assert Get(s.processes[i].allocation, k) >= 0;
    }
    forall k: ResourceType ensures t.available[k] + SumHeld(t.processes, k) == t.total[k] {
      SumHeldUpdate(s.processes, i, t.processes[i], k);
    }
  }

  /** Conservation: a call with a non-negative amount keeps the accounting invariant. */
  lemma AllocatePreservesConservation(s: Snapshot, id: string, kind: ResourceType, amount: int)
    requires Conserved(s) && amount >= 0
    ensures Conserved(Allocate(s, id, kind, amount).after)
  {
    if Allocate(s, id, kind, amount).ok {
      var i := FindProcess(s.processes, id).value;
      var s1 := GrantStep(s, i, kind, amount);
      GrantStepConserved(s, i, kind, amount);
      if s1.processes[i].IsSatisfied() {
        FinishPreservesConservation(s1, i);
      }
    }
  }

  // ---------------------------------------------------------------------
  // Terminal conditions
  // ---------------------------------------------------------------------

  /** Under the invariant the detector's verdict is exactly "no safe ordering exists". */
  lemma DeadlockedIffNoSafeOrdering(s: Snapshot)
    requires Conserved(s)
    ensures Deadlocked(s.available, s.processes) <==> !SafeState(s.available, Unfinished(s.processes))
  {
    forall p | p in s.processes ensures NonNegative(p.allocation) {
      var j :| 0 <= j < |s.processes| && s.processes[j] == p;
    }
    DeadlockedIffUnsafe(s.available, s.processes);
  }

  /**
    Under the invariant the game is over exactly when the unfinished
    processes have no safe ordering or the moves have run out.
  */
  lemma GameOverIffUnsafeOrOutOfMoves(s: Snapshot)
    requires Conserved(s)
    ensures IsGameOver(s) <==> !SafeState(s.available, Unfinished(s.processes)) || s.moves >= s.maxMoves
  {
    DeadlockedIffNoSafeOrdering(s);
  }

  /**
    On a completed level every unit is free again, no deadlock is reported,
    and the game is over only if the moves ran out.
  */
  lemma CompletedLevel(s: Snapshot)
    requires Conserved(s) && IsLevelComplete(s)
    ensures forall k: ResourceType :: s.available[k] == s.total[k]
    ensures !Deadlocked(s.available, s.processes)
    ensures IsGameOver(s) <==> s.moves >= s.maxMoves
  {
    forall k: ResourceType ensures s.available[k] == s.total[k] {
      SumHeldOfZeros(s.processes, k);
    }
    AllFinishedNoDeadlock(s.available, s.processes);
  }
}
