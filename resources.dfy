/**
  Resource kinds, per-kind counts and the Resource record of the game
  engine (deadlock_escape.py:23-55).
*/
module Resources {

  /** The closed set of resource kinds (the `ResourceType` enum). */
  datatype ResourceType = Cpu | Memoria | Disco | Impressora

  /** Every kind, in the order in which the enum is declared and iterated. */
  const AllKinds: seq<ResourceType> := [Cpu, Memoria, Disco, Impressora]

  /** The position of a kind in `AllKinds`. */
  function KindIndex(k: ResourceType): (i: nat)
    ensures i < |AllKinds| && AllKinds[i] == k
  {
    match k
    case Cpu => 0
    case Memoria => 1
    case Disco => 2
    case Impressora => 3
  }

  lemma EveryKindListed()
    ensures forall k: ResourceType :: k in AllKinds
  {
    forall k: ResourceType ensures k in AllKinds {
      assert AllKinds[KindIndex(k)] == k;
    }
  }

  /** A dictionary from resource kinds to integers. */
  type Counts = map<ResourceType, int>

  /** Python's `d.get(k, 0)`. */
  function Get(c: Counts, k: ResourceType): int
  {
    if k in c then c[k] else 0
  }

  /** A dictionary with an entry for every kind. */
  ghost predicate HasAllKinds(c: Counts)
  {
    forall k: ResourceType :: k in c
  }

  /** Two dictionaries with every kind are equal once they agree on every kind. */
  lemma CountsEqual(a: Counts, b: Counts)
    requires HasAllKinds(a) && HasAllKinds(b)
    requires forall k: ResourceType :: a[k] == b[k]
    ensures a == b
  {
    assert a.Keys == b.Keys;
  }

  ghost predicate NonNegative(c: Counts)
  {
    forall k: ResourceType :: Get(c, k) >= 0
  }

  ghost predicate AllZero(c: Counts)
  {
    forall k: ResourceType :: Get(c, k) == 0
  }

  /** Pointwise `a[k] <= b[k]`, missing entries read as 0. */
  ghost predicate AtMost(a: Counts, b: Counts)
  {
    forall k: ResourceType :: Get(a, k) <= Get(b, k)
  }

  /** `{rt: 0 for rt in ResourceType}` */
  function Zero(): (z: Counts)
    ensures HasAllKinds(z) && AllZero(z)
  {
    EveryKindListed();
    map k | k in AllKinds :: 0
  }

  /** The pointwise sum of two dictionaries: every count of `b` added to `a`. */
  function AddAll(a: Counts, b: Counts): (r: Counts)
    ensures r.Keys == a.Keys + b.Keys
    ensures forall k: ResourceType :: Get(r, k) == Get(a, k) + Get(b, k)
  {
    map k | k in a.Keys + b.Keys :: Get(a, k) + Get(b, k)
  }

  /** Adding non-negative counts never lowers a pool. */
  lemma AddAllGrows(a: Counts, b: Counts)
    requires NonNegative(b)
    ensures AtMost(a, AddAll(a, b))
  {
  }

  /** The order in which two dictionaries are added to a pool does not matter. */
  lemma AddAllCommutes(a: Counts, b: Counts, c: Counts)
    ensures AddAll(AddAll(a, b), c) == AddAll(AddAll(a, c), b)
  {
    var l, r := AddAll(AddAll(a, b), c), AddAll(AddAll(a, c), b);
    assert l.Keys == r.Keys;
    forall k | k in l.Keys ensures l[k] == r[k] {
      assert l[k] == Get(l, k) && r[k] == Get(r, k);
    }
  }

  function Min(a: int, b: int): int
  {
    if a <= b then a else b
  }

  function Max(a: int, b: int): int
  {
    if a >= b then a else b
  }

  /** One kind of resource with its fixed capacity and its free units. */
  class Resource {
    const kind: ResourceType
    const total: int
    var available: int

    constructor (kind: ResourceType, total: int, available: int)
      ensures this.kind == kind && this.total == total && this.available == available
    {
      this.kind := kind;
      this.total := total;
      this.available := available;
    }

    /** Takes `amount` units when at least that many are free; otherwise changes nothing. */
    method Allocate(amount: int) returns (ok: bool)
      modifies this
      ensures ok <==> old(available) >= amount
      ensures ok ==> available == old(available) - amount
      ensures !ok ==> available == old(available)
    {
      if available >= amount {
        available := available - amount;
        return true;
      }
      return false;
    }

    /** Gives back `amount` units, never raising `available` above `total`. */
    method Release(amount: int)
      modifies this
      ensures available == Min(total, old(available) + amount)
      ensures available <= total
      ensures old(available) + amount <= total ==> available == old(available) + amount
    {
      available := Min(total, available + amount);
    }
  }
}
