# Deadlock Escape engine in Dafny

A model of the simulation engine of the Deadlock Escape game
(`deadlock_escape.py`, lines 23-222), with proofs about it. A level has:

- a pool of four resource kinds, each with a fixed capacity and a count of free units;
- a list of processes, each with a demand per kind, a grant per kind and a state;
- a move counter with a limit of 20, and an action log.

The player grants units to processes. A process whose grant covers its
demand finishes at once and hands everything it holds back to the pool.
The level is lost when the deadlock detector finds that the unfinished
processes can never all finish, or when the moves run out.

The project has seven modules:

- `Resources` (`resources.dfy`): the kinds, per-kind count maps, and the
  `Resource` class with its guarded `Allocate` and clamped `Release`.
- `Processes` (`processes.dfy`): the `Process` record and its two
  predicates, `IsSatisfied` and `CanFinish`.
- `Detection` (`detection.dfy`): the reduction that `detect_deadlock`
  runs, first written as a function and then as the source's `while changed`
  loop. For processes that hold non-negative amounts, as every level does
  when every granted amount is at least 0
  (`Allocation.DeadlockedIffNoSafeOrdering`), it proves the
  safety-algorithm theorem: the reduction leaves nobody behind exactly
  when some ordering of the processes lets each one finish in turn. For
  such processes it also proves that the verdict does not depend on the
  order of the process list (`Detection.DeadlockedIgnoresOrder`). The
  premise is needed: with a negative holding the order can change the
  verdict (`Scenarios.NegativeHoldingMakesOrderMatter`).
- `Generation` (`generation.dfy`): the template catalogue and
  `_generate_processes`, with the random draws as parameters.
- `Allocation` (`allocation.dfy`): a level as a value (`Snapshot`), with
  `allocate_resource` and `_finish_process` as functions on it. The accounting
  invariant `Conserved` says that free units plus the units held by the processes
  equal the capacity, for every kind. This module proves the invariant holds
  at the start and that every allocation keeps it.
- `Game` (`game.dfy`): the `GameState` class. Its methods change the
  Resource objects and the object's own fields in place, step by step as
  `deadlock_escape.py` does. Each is proved to reach exactly the state that
  the functions of `Allocation` and `Detection` prescribe. As in the
  source, `level` defaults to 1 and `amount` to 1. The constructor takes
  the random draws and the scaled amounts before `level`, so that `level`
  can keep its default.
- `Scenarios` (`scenarios.dfy`): concrete levels built by hand: a circular
  wait, a grant beyond the demand, and a negative holding that lets the
  order of the list change the verdict.

Three points about the engine that the model makes explicit:

- A process finishes once its grant is at least its demand for every
  kind it requires (`is_satisfied` compares with `<`,
  deadlock_escape.py:73-75), so a grant may exceed the demand.
- `allocate_resource` never compares a grant with the demand
  (deadlock_escape.py:191-192). So `allocated <= required` is not an
  invariant of the engine: a process can hold more of a kind than it
  requires, even of a kind it does not require at all
  (`Scenarios.GrantBeyondDemand`).
- Conservation is stated over all processes. Finished processes hold
  nothing, so it equals the sum over the unfinished ones
  (`Allocation.ConservedOverUnfinished`).

`unfinished_processes.remove(process)` removes the first field-equal
element of the list. The process was itself the first one that can finish,
and an equal element would also be able to finish. So the removed element
is always the one found (`Detection.FirstFinishableIsFirstOccurrence`),
and the model removes it by index.

## Model

| member | source | states |
|---|---|---|
| Resources.KindIndex | deadlock_escape.py:23-28 | every kind has a position in the declaration order of the enum, and the enumeration lists it there |
| Resources.Zero | deadlock_escape.py:67-69 | the default grant has an entry for every kind, and every entry is 0 |
| Resources.AddAll | deadlock_escape.py:175-176 | adding the holdings of a process to a pool adds each kind's count, missing entries reading as 0 |
| Resources.AddAllGrows | deadlock_escape.py:175-176 | adding non-negative holdings never lowers any count of the pool |
| Resources.AddAllCommutes | deadlock_escape.py:175-176 | the order in which two processes return their holdings does not change the pool |
| Resources.Resource.constructor | deadlock_escape.py:39-44 | a Resource starts with the given kind, capacity and free units |
| Resources.Resource.Allocate | deadlock_escape.py:46-51 | succeeds iff at least `amount` units are free; on success exactly `amount` units are taken, otherwise nothing changes |
| Resources.Resource.Release | deadlock_escape.py:53-55 | the free count becomes `min(total, available + amount)`, so it never exceeds the capacity and is exact whenever the sum fits |
| Processes.Process.IsSatisfied | deadlock_escape.py:71-76 | the definition of `is_satisfied`: every required kind is granted at least its demand, a missing grant reading as 0; its properties are stated by the lemmas below |
| Processes.Process.CanFinish | deadlock_escape.py:78-84 | the definition of `can_finish`: for every required kind the units still needed are at most the free units, missing entries reading as 0 |
| Processes.SatisfiedCanFinish | deadlock_escape.py:71-84 | a satisfied process can finish against any non-negative pool |
| Processes.CanFinishWithNothingIffSatisfied | deadlock_escape.py:71-84 | against an empty or all-zero pool, being able to finish is exactly being satisfied, in both directions |
| Processes.CanFinishMonotone | deadlock_escape.py:78-84 | a process that can finish against a pool can finish against any pointwise larger pool |
| Detection.Without | deadlock_escape.py:177 | removing one element shortens the list by one, takes out exactly that element as a multiset, and adds nothing; at the first-fit index this is the element `remove(process)` removes (`Detection.FirstFinishableIsFirstOccurrence`) |
| Detection.FirstFinishableIsFirstOccurrence | deadlock_escape.py:172-177 | no process before the first one that can finish equals it, so `remove(process)`, which removes the first equal element, removes the one the scan found |
| Detection.Unfinished | deadlock_escape.py:161 | the list comprehension keeps exactly the processes that are not Finished |
| Detection.FirstFinishable | deadlock_escape.py:172-179 | the scan stops at the first process that can finish, and no earlier process can; the result is the list length if none can |
| Detection.Reduce | deadlock_escape.py:168-179 | the processes resolved and those left together are the input as a multiset, and no process left can finish against the final scratch pool |
| Detection.ReduceStep | deadlock_escape.py:172-179 | a productive pass removes the first process that can finish and adds its holdings to the scratch pool |
| Detection.ReduceStuck | deadlock_escape.py:169-179 | a pass that finds nobody ends the loop with the list unchanged |
| Detection.ReduceInPlace | deadlock_escape.py:168-182 | the `while changed` loop over a local pool and list stops and leaves exactly the processes the reduction leaves |
| Detection.ReductionOrderIsSafe | deadlock_escape.py:168-179 | the processes resolved, in the order resolved, form a safe sequence ending at the reported scratch pool |
| Detection.SafeWithout | deadlock_escape.py:172-177 | taking a process that holds non-negative amounts out of a safe sequence and giving its holdings to the pool first leaves a safe sequence |
| Detection.SafeOrderLeavesNothing | deadlock_escape.py:168-182 | for processes that hold non-negative amounts, first-fit is complete: if any ordering of them is safe, the reduction resolves every process |
| Detection.ReductionResolvesAllIffSafe | deadlock_escape.py:155-182 | for processes that hold non-negative amounts, the reduction ends with nobody left iff some ordering of the processes is safe |
| Detection.DeadlockedIffUnsafe | deadlock_escape.py:155-182 | for processes that hold non-negative amounts, the detector reports a deadlock iff the unfinished processes have no safe ordering |
| Detection.OutcomeIgnoresOrder | deadlock_escape.py:168-182 | two permutations of the same processes, all holding non-negative amounts, get the same verdict |
| Detection.UnfinishedMultiset | deadlock_escape.py:161 | the unfinished processes, as a multiset, are the non-Finished processes of the list with their multiplicities |
| Detection.DeadlockedIgnoresOrder | deadlock_escape.py:155-182 | for processes that hold non-negative amounts, the detector gives the same verdict on any permutation of the process list |
| Detection.Deadlocked | deadlock_escape.py:155-182 | the definition of `detect_deadlock`: the reduction of the unfinished processes against the free units leaves somebody behind; its meaning is stated by `Detection.DeadlockedIffUnsafe` |
| Detection.AllFinishedNothingUnfinished | deadlock_escape.py:161-164 | with every process Finished, the list of unfinished processes is empty |
| Detection.AllFinishedNoDeadlock | deadlock_escape.py:161-164 | with every process Finished, the detector returns false |
| Generation.TemplateDemandsPositive | deadlock_escape.py:122-131 | every nominal demand in the catalogue is at least 1 |
| Generation.VariedDemand | deadlock_escape.py:137-140 | a varied demand has the template's kinds, and every entry is at least 1 |
| Generation.LowLevelsKeepTemplateDemand | deadlock_escape.py:139-140 | up to level 2 the generated demand is the catalogue's demand |
| Generation.VariationWithinOne | deadlock_escape.py:139-140 | with an offset in {-1, 0, 1}, a demand of at least 1 moves by at most one unit |
| Generation.TemplateVariationWithinOne | deadlock_escape.py:122-140 | every generated demand is within one unit of the catalogue's |
| Generation.ProcessCount | deadlock_escape.py:119 | `min(2 + level, 6)`: at most six, and at least three from level 1 on |
| Generation.ProcessId | deadlock_escape.py:143 | the id `P{i+1}` is `P` followed by one or more decimal digits |
| Generation.NatToString | deadlock_escape.py:143 | the decimal numeral is never empty and consists of decimal digits only |
| Generation.NatToStringInjective | deadlock_escape.py:143 | different numbers have different numerals |
| Generation.ProcessIdInjective | deadlock_escape.py:143 | different positions get different ids `P{i+1}` |
| Generation.PartialDemandAt | deadlock_escape.py:137-140 | after the inner loop has seen the first `t` kinds, it has set exactly those of them that the template names, each to its varied value |
| Generation.PartialDemandAll | deadlock_escape.py:137-140 | once every kind has been seen, the inner loop has built the varied demand |
| Generation.VaryRequirements | deadlock_escape.py:137-140 | the inner loop returns the varied demand of the template |
| Generation.GenerateProcesses | deadlock_escape.py:117-149 | `min(2 + level, 6)` processes with ids `P1..Pn`, each with its sampled template's name and varied demand, a zero grant of every kind and state Waiting; the ids are pairwise distinct and every demand is at least 1 |
| Allocation.FindProcess | deadlock_escape.py:186 | returns the position of the first process with the id, or none when no process has it |
| Allocation.InitialLevelConserved | deadlock_escape.py:110-113 | a level with every unit free and every grant zero satisfies the accounting invariant |
| Allocation.ConservedBounds | deadlock_escape.py:44-55 | under the invariant, every free count lies between 0 and the capacity |
| Allocation.ConservedOverUnfinished | deadlock_escape.py:161 | under the invariant, free units plus the units held by the unfinished processes make up the capacity |
| Allocation.FinishReturnsHoldings | deadlock_escape.py:204-214 | under the invariant, finishing a process leaves it Finished with nothing held, and returns every unit it held to the pool; the capacity clamp never applies |
| Allocation.FinishPreservesConservation | deadlock_escape.py:204-214 | on a level that keeps the accounting invariant, finishing a process keeps it |
| Allocation.AllocateRefusal | deadlock_escape.py:184-202 | the call is refused exactly when the id is unknown, the process is Finished, or too few units are free; a refused call changes nothing |
| Allocation.AllocateSuccessBookkeeping | deadlock_escape.py:190-200 | a successful call counts one move, keeps the capacities, the limit and every other process as they were, and logs the allocation last |
| Allocation.AllocateWithoutFinishing | deadlock_escape.py:190-200 | a successful call that leaves the process unsatisfied moves exactly `amount` units of the kind from the pool to its grant, with no cap at the demand |
| Allocation.AllocateAndFinish | deadlock_escape.py:190-214 | on a level that keeps the accounting invariant, a successful call with a non-negative amount that satisfies the process leaves it Finished with nothing held, returns all it held to the pool, and logs the finish before the allocation |
| Allocation.GrantStepConserved | deadlock_escape.py:190-193 | moving units that are free from the pool to an unfinished process keeps the accounting invariant |
| Allocation.AllocatePreservesConservation | deadlock_escape.py:184-214 | every call with a non-negative amount keeps the accounting invariant |
| Allocation.Allocate | deadlock_escape.py:184-202 | the definition of `allocate_resource` on a level value; its properties are stated by the five lemmas above |
| Allocation.Finish | deadlock_escape.py:204-214 | the definition of `_finish_process` on a level value; its properties are stated by `FinishReturnsHoldings` and `FinishPreservesConservation` |
| Allocation.IsLevelComplete | deadlock_escape.py:216-218 | the definition of `is_level_complete`: every process is Finished; its consequences are stated by `Allocation.CompletedLevel` |
| Allocation.IsGameOver | deadlock_escape.py:220-222 | the definition of `is_game_over`: a deadlock is reported or the moves have reached the limit; its meaning is stated by `Allocation.GameOverIffUnsafeOrOutOfMoves` |
| Allocation.DeadlockedIffNoSafeOrdering | deadlock_escape.py:155-182 | on a level that keeps the invariant, a deadlock is reported iff the unfinished processes have no safe ordering |
| Allocation.GameOverIffUnsafeOrOutOfMoves | deadlock_escape.py:220-222 | on a level that keeps the accounting invariant, the game is over iff the unfinished processes have no safe ordering or the moves have reached the limit |
| Allocation.CompletedLevel | deadlock_escape.py:216-222 | on a completed level that keeps the accounting invariant, every unit is free again, no deadlock is reported, and the game is over only when the moves ran out |
| Game.InitializeResources | deadlock_escape.py:98-115 | every kind gets a new Resource of its own kind, with capacity `max(2, scaled amount)` and every unit free |
| Game.PartialClearAt | deadlock_escape.py:209-212 | after the loop has seen the first `t` kinds, exactly their positive holdings are set to 0 |
| Game.PartialReleaseAt | deadlock_escape.py:209-212 | after the loop has seen the first `t` kinds, exactly their holdings have been released to the pool |
| Game.PartialAll | deadlock_escape.py:209-212 | once every kind has been seen, the loop has cleared and released every positive holding |
| Game.GameState.AvailableResources | deadlock_escape.py:151-153 | a dictionary with every kind, holding that kind's free units |
| Game.GameState.constructor | deadlock_escape.py:90-96 | full resources, the generated processes, an empty log, no moves, a limit of 20, and the accounting invariant |
| Game.GameState.DetectDeadlock | deadlock_escape.py:155-182 | returns the detector's verdict on the current free units and processes, and changes nothing |
| Game.GameState.ReleaseAll | deadlock_escape.py:209-212 | the loop returns the grant with every positive entry set to 0, and the pool with every positive holding released, capped at the capacity |
| Game.GameState.ReleaseStep | deadlock_escape.py:209-212 | one pass of the loop moves from the state after `t` kinds to the state after `t + 1` kinds |
| Game.GameState.ReleaseKind | deadlock_escape.py:211 | releasing into one Resource changes that kind's free count to `min(total, available + amount)` and no other |
| Game.GameState.FinishProcess | deadlock_escape.py:204-214 | the object ends in the state that `Allocation.Finish` prescribes |
| Game.GameState.TakeUnits | deadlock_escape.py:190-191 | units are taken from one Resource iff enough are free, and no other kind changes |
| Game.GameState.AllocateResource | deadlock_escape.py:184-202 | the answer and the new state are exactly those that `Allocation.Allocate` prescribes |
| Game.GameState.CompleteMove | deadlock_escape.py:196-200 | finishing a satisfied process and logging the allocation give the state that `Allocation.CompleteMove` prescribes |
| Scenarios.CircularWaitIsDeadlock | deadlock_escape.py:155-182 | two processes waiting for each other's only unit are reported as a deadlock, which ends the game |
| Scenarios.OrderChangesVerdict | deadlock_escape.py:155-182 | when `a` can finish first but then blocks `b`, while `b` first lets both finish, the detector reports a deadlock for `[a, b]` and none for `[b, a]` |
| Scenarios.NegativeHoldingMakesOrderMatter | deadlock_escape.py:155-182 | with a process holding minus one unit, as a negative amount at line 192 can leave it, two orderings of the same list get different verdicts, so the non-negative premise of the order and safety theorems cannot be dropped |
| Scenarios.GrantBeyondDemand | deadlock_escape.py:190-192 | granting units of a kind the process does not require succeeds, and the process then holds more than it requires |

## Left out

- The float difficulty multiplier of `_initialize_resources` (deadlock_escape.py:100-112) is floating-point arithmetic. The truncated products `int(base_amount * multiplier)` are an input map (`scaled`). The model applies only the `max(2, ...)` floor, so the base amounts 4, 4, 3 and 2 do not appear.
- `random.sample` and `random.randint` are random draws. They are parameters: the sampled template indices (distinct) and one offset in {-1, 0, 1} per process and kind.
- The log's human-readable strings and timestamps are not modelled. The log is a sequence of structured entries: which process got how many units of which kind, and which process finished.
- The `DeadlockEscapeGame` user interface, `main` and `run_game.py` are presentation and launcher code. They are not part of this model.
- `Process` is a value, not a shared object. The methods replace `processes[i]` instead of mutating the object that `next(...)` returned. Only the engine holds references to processes, so no aliasing is lost.
- `allocated_resources[resource_type] += amount` raises KeyError for a kind missing from the grant. The model reads a missing entry as 0. Every process the engine generates has an entry for every kind, so the KeyError path cannot be reached from a constructed level.
- Python dictionaries are iterated in insertion order. The model iterates in the enum's declaration order (`AllKinds`). This is the order every grant and pool is built in, and the per-kind steps of each loop are independent of each other.
- The states Running and Blocked exist in `ProcessState` (`Processes.ProcessState`), but the core never assigns them.
- Allocation.AllocatePreservesConservation: proved only for `amount >= 0`. The source accepts a negative amount, which would push a free count above the capacity and a grant below zero.
- Detection.ReductionResolvesAllIffSafe, Detection.DeadlockedIffUnsafe, Detection.OutcomeIgnoresOrder and Detection.DeadlockedIgnoresOrder: stated only for processes that hold non-negative amounts. A negative amount would leave a negative holding, and then the premise is needed (`Scenarios.NegativeHoldingMakesOrderMatter`).
- `GameState.is_level_complete` and `GameState.is_game_over` are read-only functions of the class that delegate to `Allocation.IsLevelComplete` and `Allocation.IsGameOver`. Their properties are stated by `Allocation.CompletedLevel` and `Allocation.GameOverIffUnsafeOrOutOfMoves`.
