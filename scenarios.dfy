/**
  Small concrete levels that show the behaviour of the engine on
  particular inputs: a circular wait, a grant beyond the demand, and a
  negative holding that makes the order of the process list matter.
*/
module Scenarios {
  import opened Resources
  import opened Processes
  import opened Detection
  import opened Allocation

  /**
    A level built by hand rather than by the generator (which never scales
    a total below two): A holds the only Cpu and waits for the only Disco;
    B holds the Disco and waits for the Cpu.
  */
  function CircularWait(): Snapshot
  {
    var total := map[Cpu := 1, Memoria := 0, Disco := 1, Impressora := 0];
    var p1 := Process("A", "A", map[Cpu := 1, Disco := 1], map[Cpu := 1, Memoria := 0, Disco := 0, Impressora := 0], Waiting);
    var p2 := Process("B", "B", map[Cpu := 1, Disco := 1], map[Cpu := 0, Memoria := 0, Disco := 1, Impressora := 0], Waiting);
    Snapshot(total, map[Cpu := 0, Memoria := 0, Disco := 0, Impressora := 0], [p1, p2], [], 2, 20)
  }

  /** The circular wait is reported as a deadlock, and so ends the game. */
  lemma CircularWaitIsDeadlock()
    ensures Deadlocked(CircularWait().available, CircularWait().processes)
    ensures IsGameOver(CircularWait())
  {
    var s := CircularWait();
    var ps := s.processes;
    assert !ps[0].CanFinish(s.available) by {
      assert ps[0].required[Disco] - Get(ps[0].allocation, Disco) > Get(s.available, Disco);
    }
    assert !ps[1].CanFinish(s.available) by {
      assert ps[1].required[Cpu] - Get(ps[1].allocation, Cpu) > Get(s.available, Cpu);
    }
    assert Unfinished(ps) == ps by {
      assert Unfinished(ps[1..][1..]) == [];
    }
    assert FirstFinishable(ps[1..][1..], s.available) == 0;
    assert FirstFinishable(ps, s.available) == 2;
  }

  /** A level built by hand with one process, E, that needs a Cpu and two units of memory. */
  function OneEditor(): Snapshot
  {
    var total := map[Cpu := 2, Memoria := 2, Disco := 2, Impressora := 2];
    var p := Process("E", "Editor de Texto", map[Cpu := 1, Memoria := 2], Zero(), Waiting);
    Snapshot(total, total, [p], [], 0, 20)
  }

  /**
    Nothing limits a grant to the demand: granting a kind the process does
    not need at all succeeds, and the process then holds more of it than it
    requires.
  */
  lemma GrantBeyondDemand()
    ensures Allocate(OneEditor(), "E", Disco, 2).ok
    ensures var p := Allocate(OneEditor(), "E", Disco, 2).after.processes[0];
      Disco !in p.required && Get(p.allocation, Disco) == 2
  {
    var s := OneEditor();
    assert FindProcess(s.processes, "E") == Some(0);
    var g := GrantStep(s, 0, Disco, 2);
    assert !g.processes[0].IsSatisfied() by {
      assert Get(g.processes[0].allocation, Cpu) == 0;
    }
  }

  /** A pool with one Cpu and one Disco free. */
  function DebtPool(): Counts
  {
    map[Cpu := 1, Memoria := 0, Disco := 1, Impressora := 0]
  }

  /** A needs one Cpu and holds minus one Disco, as a call with a negative amount leaves it. */
  function Debtor(): Process
  {
    Process("A", "A", map[Cpu := 1], map[Cpu := 0, Memoria := 0, Disco := -1, Impressora := 0], Waiting)
  }

  /** B needs one Disco and holds nothing. */
  function DiscoUser(): Process
  {
    Process("B", "B", map[Disco := 1], Zero(), Waiting)
  }

  /** What each process can do against the free pool and against the pool the other one leaves. */
  lemma DebtFacts()
    ensures Debtor().CanFinish(DebtPool())
    ensures !DiscoUser().CanFinish(AddAll(DebtPool(), Debtor().allocation))
    ensures DiscoUser().CanFinish(DebtPool())
    ensures Debtor().CanFinish(AddAll(DebtPool(), DiscoUser().allocation))
  {
    var pool, a, b := DebtPool(), Debtor(), DiscoUser();
    assert Get(pool, Cpu) == 1 && Get(pool, Disco) == 1;
    assert Get(a.allocation, Cpu) == 0 && Get(a.allocation, Disco) == -1;
    assert Get(b.allocation, Cpu) == 0 && Get(b.allocation, Disco) == 0;
    assert Get(AddAll(pool, a.allocation), Disco) == 0;
    assert Get(AddAll(pool, b.allocation), Cpu) == 1;
  }

  /** When the head of a two-process list can finish, the reduction goes on with the other one against the enlarged pool. */
  lemma ReduceHeadOfTwo(pool: Counts, a: Process, b: Process)
    requires a.CanFinish(pool)
    ensures Reduce(pool, [a, b]).remaining == Reduce(AddAll(pool, a.allocation), [b]).remaining
  {
    ReduceStep(pool, [a, b]);
    assert Without([a, b], 0) == [b];
  }

  /** A single process is resolved iff it can finish. */
  lemma ReduceOne(pool: Counts, a: Process)
    ensures Reduce(pool, [a]).remaining == (if a.CanFinish(pool) then [] else [a])
  {
    if a.CanFinish(pool) {
      ReduceStep(pool, [a]);
      assert Without([a], 0) == [];
      ReduceStuck(AddAll(pool, a.allocation), []);
    } else {
      assert FirstFinishable([a][1..], pool) == 0;
      ReduceStuck(pool, [a]);
    }
  }

  /** Two processes that are not Finished are both unfinished, in list order. */
  lemma UnfinishedTwo(a: Process, b: Process)
    requires a.state != Finished && b.state != Finished
    ensures Unfinished([a, b]) == [a, b]
  {
    assert Unfinished([a, b][1..][1..]) == [];
  }

  /**
    Two unfinished processes whose verdict depends on their order: `a` can
    finish first but then blocks `b`, while `b` can finish first and then
    lets `a` finish.
  */
  lemma OrderChangesVerdict(pool: Counts, a: Process, b: Process)
    requires a.state != Finished && b.state != Finished
    requires a.CanFinish(pool) && !b.CanFinish(AddAll(pool, a.allocation))
    requires b.CanFinish(pool) && a.CanFinish(AddAll(pool, b.allocation))
    ensures Deadlocked(pool, [a, b]) && !Deadlocked(pool, [b, a])
  {
    UnfinishedTwo(a, b);
    ReduceHeadOfTwo(pool, a, b);
    ReduceOne(AddAll(pool, a.allocation), b);
    UnfinishedTwo(b, a);
    ReduceHeadOfTwo(pool, b, a);
    ReduceOne(AddAll(pool, b.allocation), a);
  }

  /**
    Without non-negative holdings, the order of the process list changes
    the verdict: the premise of `Detection.DeadlockedIgnoresOrder` is needed.
    The two processes are passed in, pinned to the concrete ones.
  */
  lemma NegativeHoldingMakesOrderMatter(pool: Counts, a: Process, b: Process)
    requires pool == DebtPool() && a == Debtor() && b == DiscoUser()
    ensures a.allocation[Disco] < 0
    ensures multiset([a, b]) == multiset([b, a])
    ensures Deadlocked(pool, [a, b]) != Deadlocked(pool, [b, a])
  {
    DebtFacts();
    OrderChangesVerdict(pool, a, b);
  }
}
