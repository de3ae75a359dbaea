/** Grouping of orbitals by energy level, as both auto-fill and the rule check
    do it: the distinct levels in ascending order, and per level the number of
    orbitals, the number of orbitals below it and the electrons it holds. */
module Energy {
  import opened Types

  predicate StrictlyIncreasing(s: seq<int>)
  {
    forall i, j :: 0 <= i < j < |s| ==> s[i] < s[j]
  }

  /** Adds `x` to an ascending list of distinct values. */
  function Insert(s: seq<int>, x: int): (r: seq<int>)
    requires StrictlyIncreasing(s)
    ensures StrictlyIncreasing(r)
    ensures forall y :: y in r <==> y in s || y == x
  {
    if s == [] then [x]
    else if x < s[0] then [x] + s
    else if x == s[0] then s
    else
      var rest := Insert(s[1..], x);
      assert forall j :: 0 <= j < |rest| ==> s[0] < rest[j] by {
        forall j | 0 <= j < |rest| ensures s[0] < rest[j] {
          assert rest[j] in rest;
        }
      }
      [s[0]] + rest
  }

  /** The distinct values of `xs` in ascending order. */
  function SortedDistinct(xs: seq<int>): (r: seq<int>)
    ensures StrictlyIncreasing(r)
    ensures forall y :: y in r <==> y in xs
  {
    if xs == [] then []
    else
      var r := Insert(SortedDistinct(xs[..|xs| - 1]), xs[|xs| - 1]);
      assert xs == xs[..|xs| - 1] + [xs[|xs| - 1]];
      r
  }

  function Energies(os: seq<Orbital>): (r: seq<int>)
    ensures |r| == |os| && forall i :: 0 <= i < |os| ==> r[i] == os[i].energyLevel
  {
    seq(|os|, i requires 0 <= i < |os| => os[i].energyLevel)
  }

  /** The energy levels present, ascending and without repetition: the keys of the
      grouping, sorted numerically. */
  function Levels(os: seq<Orbital>): (r: seq<int>)
    ensures StrictlyIncreasing(r)
    ensures forall e :: e in r <==> exists i :: 0 <= i < |os| && os[i].energyLevel == e
  {
    var r := SortedDistinct(Energies(os));
    assert forall i :: 0 <= i < |os| ==> Energies(os)[i] in Energies(os);
    r
  }

  /** Number of orbitals at level `e` among the first `n`. */
  function CountBefore(os: seq<Orbital>, e: int, n: nat): (c: nat)
    requires n <= |os|
    ensures c <= n
  {
    if n == 0 then 0 else CountBefore(os, e, n - 1) + (if os[n - 1].energyLevel == e then 1 else 0)
  }

  /** Size of the group at level `e`. */
  function LevelCount(os: seq<Orbital>, e: int): nat
  {
    CountBefore(os, e, |os|)
  }

  /** Number of orbitals below level `e` among the first `n`. */
  function BelowUpTo(os: seq<Orbital>, e: int, n: nat): (c: nat)
    requires n <= |os|
    ensures c <= n
  {
    if n == 0 then 0 else BelowUpTo(os, e, n - 1) + (if os[n - 1].energyLevel < e then 1 else 0)
  }

  function CountBelow(os: seq<Orbital>, e: int): nat
  {
    BelowUpTo(os, e, |os|)
  }

  /** Electrons held at level `e` among the first `n` orbitals. */
  function GroupSumUpTo(os: seq<Orbital>, e: int, n: nat): int
    requires n <= |os|
  {
    if n == 0 then 0
    else GroupSumUpTo(os, e, n - 1) + (if os[n - 1].energyLevel == e then os[n - 1].electrons else 0)
  }

  function GroupSum(os: seq<Orbital>, e: int): int
  {
    GroupSumUpTo(os, e, |os|)
  }

  /** The group at level `e` holds two electrons per orbital. */
  predicate GroupFull(os: seq<Orbital>, e: int)
  {
    GroupSum(os, e) == 2 * LevelCount(os, e)
  }

  /** Some orbital at level `e` holds exactly `k` electrons. */
  predicate HasOccupancy(os: seq<Orbital>, e: int, k: int)
  {
    exists i :: 0 <= i < |os| && os[i].energyLevel == e && os[i].electrons == k
  }

  /** Orbitals in the groups before index `g` of the ascending level list. */
  function Done(os: seq<Orbital>, levels: seq<int>, g: nat): nat
  {
    if g < |levels| then CountBelow(os, levels[g]) else |os|
  }

  lemma {:induction false} CountBeforeMonotone(os: seq<Orbital>, e: int, m: nat, n: nat)
    requires m <= n <= |os|
    ensures CountBefore(os, e, m) <= CountBefore(os, e, n)
  {
    if m < n {
      CountBeforeMonotone(os, e, m, n - 1);
    }
  }

  /** The rank of an orbital inside its group is smaller than the group's size. */
  lemma RankInGroup(os: seq<Orbital>, i: nat)
    requires i < |os|
    ensures CountBefore(os, os[i].energyLevel, i) < LevelCount(os, os[i].energyLevel)
  {
    CountBeforeMonotone(os, os[i].energyLevel, i + 1, |os|);
  }

  /** With no level strictly between `a` and `b`, the orbitals below `b` are those
      below `a` and those at `a`. */
  lemma {:induction false} BelowStep(os: seq<Orbital>, a: int, b: int, n: nat)
    requires a < b && n <= |os|
    requires forall i :: 0 <= i < n ==> !(a < os[i].energyLevel < b)
    ensures BelowUpTo(os, b, n) == BelowUpTo(os, a, n) + CountBefore(os, a, n)
  {
    if n > 0 {
      BelowStep(os, a, b, n - 1);
    }
  }

  /** With no level above `a`, every orbital is below `a` or at `a`. */
  lemma {:induction false} AllBelowStep(os: seq<Orbital>, a: int, n: nat)
    requires n <= |os|
    requires forall i :: 0 <= i < n ==> os[i].energyLevel <= a
    ensures n == BelowUpTo(os, a, n) + CountBefore(os, a, n)
  {
    if n > 0 {
      AllBelowStep(os, a, n - 1);
    }
  }

  /** No orbital lies below `a` when no level is below `a`. */
  lemma {:induction false} NoneBelow(os: seq<Orbital>, a: int, n: nat)
    requires n <= |os|
    requires forall i :: 0 <= i < n ==> a <= os[i].energyLevel
    ensures BelowUpTo(os, a, n) == 0
  {
    if n > 0 {
      NoneBelow(os, a, n - 1);
    }
  }

  /** Before the first group nothing has been processed. */
  lemma DoneAtStart(os: seq<Orbital>)
    ensures Done(os, Levels(os), 0) == 0
  {
    var levels := Levels(os);
    if |os| > 0 {
      assert os[0].energyLevel in levels;
      forall i | 0 <= i < |os| ensures levels[0] <= os[i].energyLevel {
        assert os[i].energyLevel in levels;
      }
      NoneBelow(os, levels[0], |os|);
    }
  }

  /** Processing the group at index `g` adds exactly that group's orbitals. */
  lemma DoneStep(os: seq<Orbital>, g: nat)
    requires g < |Levels(os)|
    ensures Done(os, Levels(os), g + 1) == Done(os, Levels(os), g) + LevelCount(os, Levels(os)[g])
  {
    var levels := Levels(os);
    if g + 1 < |levels| {
      forall i | 0 <= i < |os| ensures !(levels[g] < os[i].energyLevel < levels[g + 1]) {
        var x := os[i].energyLevel;
        assert x in levels;
        var h :| 0 <= h < |levels| && levels[h] == x;
        assert h <= g || g + 1 <= h;
      }
      BelowStep(os, levels[g], levels[g + 1], |os|);
    } else {
      forall i | 0 <= i < |os| ensures os[i].energyLevel <= levels[g] {
        var x := os[i].energyLevel;
        assert x in levels;
        var h :| 0 <= h < |levels| && levels[h] == x;
      }
      AllBelowStep(os, levels[g], |os|);
    }
  }

  /** Levels before index `g + 1` are those before `g` and the level at `g`,
      which is not among the earlier ones. */
  lemma PrefixStep(levels: seq<int>, g: nat)
    requires g < |levels| && StrictlyIncreasing(levels)
    ensures levels[g] !in levels[..g]
    ensures forall x :: x in levels[..g + 1] <==> x in levels[..g] || x == levels[g]
  {
    assert levels[..g + 1] == levels[..g] + [levels[g]];
  }

  /** The group at level `e` is the run of positions from `lo` up to `hi`: every
      orbital before it lies below `e` and every orbital after it above. */
  predicate IsRun(os: seq<Orbital>, e: int, lo: nat, hi: nat)
  {
    lo <= hi <= |os| &&
    (forall i :: 0 <= i < lo ==> os[i].energyLevel < e) &&
    (forall i :: lo <= i < hi ==> os[i].energyLevel == e) &&
    (forall i :: hi <= i < |os| ==> e < os[i].energyLevel)
  }

  /** On a run, the counts of the grouping are positions. */
  lemma {:induction false} RunCounts(os: seq<Orbital>, e: int, lo: nat, hi: nat, n: nat)
    requires IsRun(os, e, lo, hi) && n <= |os|
    ensures CountBefore(os, e, n) == Max(0, Min(n, hi) - lo)
    ensures BelowUpTo(os, e, n) == Min(n, lo)
  {
    if n > 0 {
      RunCounts(os, e, lo, hi, n - 1);
    }
  }

  /** Grouping depends on the energy levels only, not on the electrons. */
  lemma {:induction false} SameLevelsSameGroups(a: seq<Orbital>, b: seq<Orbital>, e: int, n: nat)
    requires |a| == |b| && n <= |a|
    requires forall i :: 0 <= i < |a| ==> a[i].energyLevel == b[i].energyLevel
    ensures CountBefore(a, e, n) == CountBefore(b, e, n)
    ensures BelowUpTo(a, e, n) == BelowUpTo(b, e, n)
    ensures Levels(a) == Levels(b)
  {
    assert Energies(a) == Energies(b);
    if n > 0 {
      SameLevelsSameGroups(a, b, e, n - 1);
    }
  }
}
