/**
  Building the process list of a level from the template catalogue
  (deadlock_escape.py:117-149). The two random draws of the source, the
  templates sampled without replacement and the per-demand offsets in
  {-1, 0, 1}, are parameters.
*/
module Generation {
  import opened Resources
  import opened Processes

  /** A named process template with its nominal demand per kind. */
  datatype Template = Template(name: string, demand: Counts)

  /** The catalogue, in source order. */
  const Templates: seq<Template> := [
    Template("Editor de Texto", map[Cpu := 1, Memoria := 2]),
    Template("Compilador", map[Cpu := 2, Memoria := 1, Disco := 1]),
    Template("Backup", map[Disco := 2, Memoria := 1]),
    Template("Impressão", map[Impressora := 1, Memoria := 1]),
    Template("Antivírus", map[Cpu := 1, Disco := 1, Memoria := 1]),
    Template("Navegador", map[Cpu := 2, Memoria := 3]),
    Template("Streaming", map[Cpu := 2, Memoria := 2, Disco := 1]),
    Template("Banco de Dados", map[Cpu := 1, Memoria := 2, Disco := 2])
  ]

  /** Every nominal demand in the catalogue is at least 1. */
  lemma TemplateDemandsPositive(t: nat, k: ResourceType)
    requires t < |Templates| && k in Templates[t].demand
    ensures Templates[t].demand[k] >= 1
  {
  }

  /** `min(2 + level, 6)` */
  function ProcessCount(level: int): (n: int)
    ensures n <= 6
    ensures level >= 1 ==> n >= 3
  {
    Min(2 + level, 6)
  }

  /** The offset actually applied: the drawn one above level 2, none otherwise. */
  function Variation(level: int, offset: int): int
  {
    if level > 2 then offset else 0
  }

  /** The demand of a generated process: each nominal demand plus its offset, floored at 1. */
  function VariedDemand(level: int, demand: Counts, offsets: Counts): (r: Counts)
    ensures r.Keys == demand.Keys
    ensures forall k | k in r :: r[k] >= 1
  {
    map k | k in demand :: Max(1, demand[k] + Variation(level, Get(offsets, k)))
  }

  /** Up to level 2 the catalogue's demands are used as they are. */
  lemma LowLevelsKeepTemplateDemand(level: int, t: nat, offsets: Counts)
    requires level <= 2 && t < |Templates|
    ensures VariedDemand(level, Templates[t].demand, offsets) == Templates[t].demand
  {
    var d := Templates[t].demand;
    forall k | k in d ensures VariedDemand(level, d, offsets)[k] == d[k] {
      TemplateDemandsPositive(t, k);
    }
  }

  /**
    With offsets in {-1, 0, 1}, no demand moves more than one unit from its
    nominal value, provided that is at least 1 (as every catalogue demand is).
  */
  lemma VariationWithinOne(level: int, demand: Counts, offsets: Counts, k: ResourceType)
    requires k in demand && demand[k] >= 1
    requires -1 <= Get(offsets, k) <= 1
    ensures demand[k] - 1 <= VariedDemand(level, demand, offsets)[k] <= demand[k] + 1
  {
  }

  /** The same for the demands generated from the catalogue. */
  lemma TemplateVariationWithinOne(level: int, t: nat, offsets: Counts, k: ResourceType)
    requires t < |Templates| && k in Templates[t].demand
    requires -1 <= Get(offsets, k) <= 1
    ensures Templates[t].demand[k] - 1 <= VariedDemand(level, Templates[t].demand, offsets)[k] <= Templates[t].demand[k] + 1
  {
    TemplateDemandsPositive(t, k);
    VariationWithinOne(level, Templates[t].demand, offsets, k);
  }

  function DigitChar(d: nat): char
    requires d < 10
  {
    ('0' as int + d) as char
  }

  /** The decimal numeral of `n`, as Python's f-string writes it. */
  function NatToString(n: nat): (s: string)
    ensures |s| >= 1
    ensures forall i :: 0 <= i < |s| ==> '0' <= s[i] <= '9'
    decreases n
  {
    if n < 10 then [DigitChar(n)] else NatToString(n / 10) + [DigitChar(n % 10)]
  }

  lemma {:induction false} NatToStringInjective(a: nat, b: nat)
    requires NatToString(a) == NatToString(b)
    ensures a == b
    decreases a
  {
    var sa, sb := NatToString(a), NatToString(b);
    if a < 10 && b < 10 {
      assert sa[0] == DigitChar(a) && sb[0] == DigitChar(b);
    } else if a >= 10 && b >= 10 {
      assert sa[|sa| - 1] == DigitChar(a % 10) && sb[|sb| - 1] == DigitChar(b % 10);
      assert sa[..|sa| - 1] == NatToString(a / 10);
      assert sb[..|sb| - 1] == NatToString(b / 10);
      NatToStringInjective(a / 10, b / 10);
    }
  }

  /** `f"P{n}"` */
  function ProcessId(n: nat): (id: string)
    ensures |id| >= 2 && id[0] == 'P'
    ensures forall i :: 1 <= i < |id| ==> '0' <= id[i] <= '9'
  {
    "P" + NatToString(n)
  }

  /** Different numbers give different process ids. */
  lemma ProcessIdInjective(a: nat, b: nat)
    requires ProcessId(a) == ProcessId(b)
    ensures a == b
  {
    assert ProcessId(a)[1..] == NatToString(a);
    assert ProcessId(b)[1..] == NatToString(b);
    NatToStringInjective(a, b);
  }

  /**
    What `random.sample` and `random.randint` supply: as many distinct
    template indices as the level asks for, and for every generated
    process an offset in {-1, 0, 1} per kind.
  */
  ghost predicate ValidDraws(level: int, picks: seq<nat>, offsets: seq<Counts>)
  {
    && |picks| == Min(ProcessCount(level), |Templates|)
    && (forall i :: 0 <= i < |picks| ==> picks[i] < |Templates|)
    && (forall i, j :: 0 <= i < j < |picks| ==> picks[i] != picks[j])
    && |offsets| == |picks|
    && (forall i, k :: 0 <= i < |offsets| ==> -1 <= Get(offsets[i], k) <= 1)
  }

  /** The demand map the inner loop has built after looking at the first `t` kinds of the enumeration. */
  function PartialDemand(level: int, demand: Counts, offsets: Counts, t: nat): Counts
    requires t <= |AllKinds|
  {
    if t == 0 then map[]
    else
      var prev, kind := PartialDemand(level, demand, offsets, t - 1), AllKinds[t - 1];
      if kind in demand then prev[kind := Max(1, demand[kind] + Variation(level, Get(offsets, kind)))] else prev
  }

  /** Kind `k` is in the partial map once its place in the enumeration is passed, with its varied demand. */
  lemma {:induction false} PartialDemandAt(level: int, demand: Counts, offsets: Counts, t: nat, k: ResourceType)
    requires t <= |AllKinds|
    ensures k in PartialDemand(level, demand, offsets, t) <==> k in demand && KindIndex(k) < t
    ensures k in PartialDemand(level, demand, offsets, t) ==>
      PartialDemand(level, demand, offsets, t)[k] == Max(1, demand[k] + Variation(level, Get(offsets, k)))
  {
    if t > 0 {
      PartialDemandAt(level, demand, offsets, t - 1, k);
      if k != AllKinds[t - 1] {
        assert KindIndex(k) != t - 1;
      }
    }
  }

  /** Once every kind has been looked at, the partial map is the varied demand. */
  lemma PartialDemandAll(level: int, demand: Counts, offsets: Counts)
    ensures PartialDemand(level, demand, offsets, |AllKinds|) == VariedDemand(level, demand, offsets)
  {
    var all, varied := PartialDemand(level, demand, offsets, |AllKinds|), VariedDemand(level, demand, offsets);
    forall k: ResourceType ensures (k in all <==> k in varied) && (k in all ==> all[k] == varied[k]) {
      PartialDemandAt(level, demand, offsets, |AllKinds|, k);
    }
    assert all.Keys == varied.Keys;
  }

  /** The inner loop of `_generate_processes`: vary every demand of one template. */
  method VaryRequirements(level: int, demand: Counts, offsets: Counts) returns (varied: Counts)
    ensures varied == VariedDemand(level, demand, offsets)
  {
    varied := map[];
    var t := 0;
    while t < |AllKinds|
      invariant 0 <= t <= |AllKinds|
      invariant varied == PartialDemand(level, demand, offsets, t)
    {
      var k := AllKinds[t];
      if k in demand {
        var variation := if level > 2 then Get(offsets, k) else 0;
        varied := varied[k := Max(1, demand[k] + variation)];
      }
      t := t + 1;
    }
    PartialDemandAll(level, demand, offsets);
  }

  /**
    `_generate_processes`: process `i` gets id `P{i+1}`, the name of the
    `i`-th sampled template, that template's demand varied by its offsets,
    a zero grant of every kind, and state Waiting.
  */
  method GenerateProcesses(level: int, picks: seq<nat>, offsets: seq<Counts>) returns (processes: seq<Process>)
    requires level >= 1
    requires ValidDraws(level, picks, offsets)
    ensures |processes| == ProcessCount(level)
    ensures forall i :: 0 <= i < |processes| ==>
      && processes[i].id == ProcessId(i + 1)
      && processes[i].name == Templates[picks[i]].name
      && processes[i].required == VariedDemand(level, Templates[picks[i]].demand, offsets[i])
      && processes[i].allocation == Zero()
      && processes[i].state == Waiting
    ensures forall i, j :: 0 <= i < j < |processes| ==> processes[i].id != processes[j].id
    ensures forall i, k :: 0 <= i < |processes| && k in processes[i].required ==> processes[i].required[k] >= 1
  {
    processes := [];
    var i := 0;
    while i < |picks|
      invariant 0 <= i <= |picks|
      invariant |processes| == i
      invariant forall j :: 0 <= j < i ==>
        && processes[j].id == ProcessId(j + 1)
        && processes[j].name == Templates[picks[j]].name
        && processes[j].required == VariedDemand(level, Templates[picks[j]].demand, offsets[j])
        && processes[j].allocation == Zero()
        && processes[j].state == Waiting
    {
      var template := Templates[picks[i]];
      var varied := VaryRequirements(level, template.demand, offsets[i]);
      processes := processes + [Process(ProcessId(i + 1), template.name, varied, Zero(), Waiting)];
      i := i + 1;
    }
    forall i, j | 0 <= i < j < |processes| ensures processes[i].id != processes[j].id {
      if processes[i].id == processes[j].id {
        ProcessIdInjective(i + 1, j + 1);
      }
    }
  }
}
