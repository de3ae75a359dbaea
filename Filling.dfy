/** The ground-state filling that auto-fill installs (App.tsx, handleAutoFill):
    energy groups in ascending order, each first given one electron per orbital
    and then a second one, while the electron budget lasts. */
module Filling {
  import opened Types
  import opened Stats
  import opened Energy

  /** Electrons the filling leaves in the group at level `e`: what is left of
      `total` after the lower groups took two per orbital, capped at the group's
      own two per orbital. */
  function GroupBudget(os: seq<Orbital>, total: int, e: int): (r: int)
    ensures 0 <= r <= 2 * LevelCount(os, e)
  {
    Min(Max(total - 2 * CountBelow(os, e), 0), 2 * LevelCount(os, e))
  }

  /** Electrons of orbital `j` in the ground state: with `p` the number of orbitals
      of its group that come before it, `k` the group's size and `r` the group's
      budget, one electron if p < r (singles first) and a second if p < r - k. */
  function FillAt(os: seq<Orbital>, total: int, j: nat): (n: int)
    requires j < |os|
    ensures 0 <= n <= 2
  {
    var e := os[j].energyLevel;
    var k := LevelCount(os, e);
    var r := GroupBudget(os, total, e);
    var p := CountBefore(os, e, j);
    (if p < r then 1 else 0) + (if p < r - k then 1 else 0)
  }

  /** The ground state of `total` electrons over the orbitals of `os`; a reference
      definition in closed form, independent of the two-pass loop. */
  function GroundState(os: seq<Orbital>, total: int): (g: seq<Orbital>)
    ensures SameShape(g, os)
    ensures forall j :: 0 <= j < |g| ==> 0 <= g[j].electrons <= 2
  {
    seq(|os|, j requires 0 <= j < |os| => os[j].(electrons := FillAt(os, total, j)))
  }

  /** When the group at level `e` is the run of positions from `lo` to `hi`, the
      ground state of the orbital at `i` in it depends only on its offset in the
      run, the run's length and the number of positions before the run. */
  lemma FillInRun(os: seq<Orbital>, total: int, e: int, lo: nat, hi: nat, i: nat)
    requires IsRun(os, e, lo, hi) && lo <= i < hi
    ensures var k, r := hi - lo, Min(Max(total - 2 * lo, 0), 2 * (hi - lo));
      FillAt(os, total, i) == (if i - lo < r then 1 else 0) + (if i - lo < r - k then 1 else 0)
  {
    RunCounts(os, e, lo, hi, i);
    RunCounts(os, e, lo, hi, |os|);
  }

  /** Electrons of the orbital at `i` after the first pass has visited the
      orbitals before `j`. */
  function SingledAt(s0: seq<Orbital>, e: int, remaining: nat, j: nat, i: nat): int
    requires i < |s0|
  {
    if s0[i].energyLevel == e && i < j && CountBefore(s0, e, i) < remaining then 1
    else s0[i].electrons
  }

  ghost predicate SinglesInvariant(s0: seq<Orbital>, s: seq<Orbital>, e: int, remaining: nat,
                                   j: nat, left: nat)
  {
    |s| == |s0| && j <= |s0| &&
    left == remaining - Min(remaining, CountBefore(s0, e, j)) &&
    forall i :: 0 <= i < |s| ==> s[i] == s0[i].(electrons := SingledAt(s0, e, remaining, j, i))
  }

  /** A step of the first pass keeps its invariant, whether or not it places an electron. */
  lemma SinglesStep(s0: seq<Orbital>, s: seq<Orbital>, e: int, remaining: nat, j: nat, left: nat)
    requires j < |s0|
    requires SinglesInvariant(s0, s, e, remaining, j, left)
    ensures s[j].energyLevel == e && left > 0 ==>
      SinglesInvariant(s0, s[j := s[j].(electrons := 1)], e, remaining, j + 1, left - 1)
    ensures !(s[j].energyLevel == e && left > 0) ==>
      SinglesInvariant(s0, s, e, remaining, j + 1, left)
  {
    var p := CountBefore(s0, e, j);
    assert s[j] == s0[j].(electrons := SingledAt(s0, e, remaining, j, j));
    assert CountBefore(s0, e, j + 1) == p + (if s0[j].energyLevel == e then 1 else 0);
    if s[j].energyLevel == e && left > 0 {
      var s' := s[j := s[j].(electrons := 1)];
      forall i | 0 <= i < |s'|
        ensures s'[i] == s0[i].(electrons := SingledAt(s0, e, remaining, j + 1, i))
      {
        if i != j {
          assert s'[i] == s[i];
        }
      }
    } else {
      forall i | 0 <= i < |s|
        ensures s[i] == s0[i].(electrons := SingledAt(s0, e, remaining, j + 1, i))
      {
        if i == j {
          assert SingledAt(s0, e, remaining, j + 1, i) == s0[i].electrons;
        }
      }
    }
  }

  /** First pass over the group at level `e`: one electron to each of its
      orbitals, in order, while `remaining` lasts. Other groups are untouched. */
  method SinglesPass(a: array<Orbital>, e: int, remaining: nat) returns (left: nat)
    requires forall i :: 0 <= i < a.Length && a[i].energyLevel == e ==> a[i].electrons == 0
    modifies a
    ensures SinglesInvariant(old(a[..]), a[..], e, remaining, a.Length, left)
    ensures ElectronsUpTo(a[..], a.Length) == old(ElectronsUpTo(a[..], a.Length)) + (remaining - left)
  {
    ghost var s0 := a[..];
    left := remaining;
    var j := 0;
    while j < a.Length
      invariant SinglesInvariant(s0, a[..], e, remaining, j, left)
      invariant ElectronsUpTo(a[..], a.Length) == ElectronsUpTo(s0, a.Length) + (remaining - left)
    {
      SinglesStep(s0, a[..], e, remaining, j, left);
      if a[j].energyLevel == e && left > 0 {
        assert a[j] == s0[j];
        ElectronsAfterSet(a[..], j, a[j].(electrons := 1), a.Length);
        a[j] := a[j].(electrons := 1);
        left := left - 1;
      }
      j := j + 1;
    }
  }

  /** Number of singly occupied orbitals at level `e` among the first `n`. */
  function OnesBefore(s: seq<Orbital>, e: int, n: nat): (c: nat)
    requires n <= |s|
    ensures c <= CountBefore(s, e, n)
  {
    if n == 0 then 0
    else OnesBefore(s, e, n - 1) + (if s[n - 1].energyLevel == e && s[n - 1].electrons == 1 then 1 else 0)
  }

  /** Electrons of the orbital at `i` after the second pass has visited the
      orbitals before `j`: a singly occupied orbital of the group is paired when
      fewer than `remaining` singly occupied ones come before it. */
  function PairedAt(s0: seq<Orbital>, e: int, remaining: nat, j: nat, i: nat): int
    requires i < |s0|
  {
    if s0[i].energyLevel == e && i < j && s0[i].electrons == 1 && OnesBefore(s0, e, i) < remaining then 2
    else s0[i].electrons
  }

  ghost predicate PairsInvariant(s0: seq<Orbital>, s: seq<Orbital>, e: int, remaining: nat, j: nat, left: nat)
  {
    |s| == |s0| && j <= |s0| &&
    left == remaining - Min(remaining, OnesBefore(s0, e, j)) &&
    forall i :: 0 <= i < |s| ==> s[i] == s0[i].(electrons := PairedAt(s0, e, remaining, j, i))
  }

  /** Whether the second pass pairs up the orbital at `j` of `s`. */
  predicate Pairs(s: seq<Orbital>, e: int, j: nat, left: nat)
    requires j < |s|
  {
    s[j].energyLevel == e && left > 0 && s[j].electrons == 1
  }

  /** A step of the second pass keeps its invariant and accounts for the
      electron it places, whether or not it pairs up the orbital at `j`. */
  lemma PairsStep(s0: seq<Orbital>, s: seq<Orbital>, e: int, remaining: nat, j: nat, left: nat)
    returns (s': seq<Orbital>, left': nat)
    requires j < |s0|
    requires PairsInvariant(s0, s, e, remaining, j, left)
    ensures s' == if Pairs(s, e, j, left) then s[j := s[j].(electrons := 2)] else s
    ensures left' == if Pairs(s, e, j, left) then left - 1 else left
    ensures PairsInvariant(s0, s', e, remaining, j + 1, left')
    ensures ElectronsUpTo(s', |s'|) == ElectronsUpTo(s, |s|) + (left - left')
  {
    s', left' := s, left;
    var p := OnesBefore(s0, e, j);
    assert s[j] == s0[j].(electrons := PairedAt(s0, e, remaining, j, j));
    assert OnesBefore(s0, e, j + 1) == p + (if s0[j].energyLevel == e && s0[j].electrons == 1 then 1 else 0);
    if Pairs(s, e, j, left) {
      s', left' := s[j := s[j].(electrons := 2)], left - 1;
      ElectronsAfterSet(s, j, s[j].(electrons := 2), |s|);
      forall i | 0 <= i < |s'|
        ensures s'[i] == s0[i].(electrons := PairedAt(s0, e, remaining, j + 1, i))
      {
        if i != j {
          assert s'[i] == s[i];
        }
      }
    } else {
      forall i | 0 <= i < |s|
        ensures s[i] == s0[i].(electrons := PairedAt(s0, e, remaining, j + 1, i))
      {
        if i == j {
          assert PairedAt(s0, e, remaining, j + 1, i) == s0[i].electrons;
        }
      }
    }
  }

  /** Second pass over the group at level `e`: a second electron to each singly
      occupied orbital of the group, in order, while `remaining` lasts. */
  method PairsPass(a: array<Orbital>, e: int, remaining: nat) returns (left: nat)
    modifies a
    ensures PairsInvariant(old(a[..]), a[..], e, remaining, a.Length, left)
    ensures ElectronsUpTo(a[..], a.Length) == old(ElectronsUpTo(a[..], a.Length)) + (remaining - left)
  {
    ghost var s0 := a[..];
    left := remaining;
    var j := 0;
    while j < a.Length
      invariant 0 <= j <= a.Length
      invariant PairsInvariant(s0, a[..], e, remaining, j, left)
      invariant ElectronsUpTo(a[..], a.Length) == ElectronsUpTo(s0, a.Length) + (remaining - left)
    {
      ghost var s', left' := PairsStep(s0, a[..], e, remaining, j, left);
      if a[j].energyLevel == e && left > 0 && a[j].electrons == 1 {
        a[j] := a[j].(electrons := 2);
        left := left - 1;
      }
      assert a[..] == s' && left == left';
      j := j + 1;
    }
  }

  /** The orbitals of the group at level `e` of rank below `singles` hold one
      electron, the others none. */
  ghost predicate SinglyFilled(s: seq<Orbital>, e: int, singles: nat)
  {
    forall i :: 0 <= i < |s| && s[i].energyLevel == e ==>
      s[i].electrons == if CountBefore(s, e, i) < singles then 1 else 0
  }

  /** After the first pass, the singly occupied orbitals before a position are
      the group's orbitals there, up to the number of singles placed. */
  lemma {:induction false} OnesAfterSingles(s: seq<Orbital>, e: int, singles: nat, n: nat)
    requires n <= |s|
    requires SinglyFilled(s, e, singles)
    ensures OnesBefore(s, e, n) == Min(CountBefore(s, e, n), singles)
  {
    if n > 0 {
      OnesAfterSingles(s, e, singles, n - 1);
    }
  }

  /** The configuration after the groups before index `g` are filled and the
      others are still empty. */
  ghost predicate FilledThrough(t: seq<Orbital>, total: int, levels: seq<int>, g: nat, s: seq<Orbital>)
    requires g <= |levels|
  {
    |s| == |t| &&
    forall i :: 0 <= i < |s| ==>
      s[i] == t[i].(electrons := if t[i].energyLevel in levels[..g] then FillAt(t, total, i) else 0)
  }

  /** After the first pass, the orbitals of the group that hold one electron are
      exactly those of rank below `r0`, the others hold none. */
  lemma AfterSingles(t: seq<Orbital>, total: int, levels: seq<int>, g: nat,
                     s0: seq<Orbital>, s1: seq<Orbital>, r0: nat, r1: nat)
    requires levels == Levels(t) && g < |levels|
    requires FilledThrough(t, total, levels, g, s0)
    requires SinglesInvariant(s0, s1, levels[g], r0, |s0|, r1)
    ensures SinglyFilled(s1, levels[g], r0)
  {
    var e := levels[g];
    assert e !in levels[..g];
    forall i | 0 <= i < |s1| && s1[i].energyLevel == e
      ensures s1[i].electrons == if CountBefore(s1, e, i) < r0 then 1 else 0
    {
      SameLevelsSameGroups(s1, s0, e, i);
    }
  }

  /** Budget arithmetic of one orbital of the group being filled: one electron
      for rank below the group's budget, a second for rank below the budget
      left after the singles, is what the closed form gives it. */
  lemma FillAtRank(t: seq<Orbital>, total: int, levels: seq<int>, g: nat, i: nat,
                   r0: nat, r1: nat, n1: int, n2: int)
    requires levels == Levels(t) && g < |levels| && i < |t| && t[i].energyLevel == levels[g]
    requires r0 == Max(total - 2 * Done(t, levels, g), 0)
    requires r1 == r0 - Min(r0, LevelCount(t, levels[g]))
    requires n1 == if CountBefore(t, levels[g], i) < r0 then 1 else 0
    requires n2 == if n1 == 1 && Min(CountBefore(t, levels[g], i), r0) < r1 then 2 else n1
    ensures n2 == FillAt(t, total, i)
  {
    RankInGroup(t, i);
  }

  /** The two passes over the group at index `g` fill exactly that group as the
      closed form prescribes and leave the budget the next group starts from. */
  lemma GroupStep(t: seq<Orbital>, total: int, levels: seq<int>, g: nat,
                  s0: seq<Orbital>, s1: seq<Orbital>, s2: seq<Orbital>, r0: nat, r1: nat, r2: nat)
    requires levels == Levels(t) && g < |levels|
    requires FilledThrough(t, total, levels, g, s0)
    requires r0 == Max(total - 2 * Done(t, levels, g), 0)
    requires SinglesInvariant(s0, s1, levels[g], r0, |s0|, r1)
    requires SinglyFilled(s1, levels[g], r0)
    requires PairsInvariant(s1, s2, levels[g], r1, |s1|, r2)
    ensures FilledThrough(t, total, levels, g + 1, s2)
    ensures r2 == Max(total - 2 * Done(t, levels, g + 1), 0)
  {
    var e := levels[g];
    SameLevelsSameGroups(s0, t, e, |t|);
    SameLevelsSameGroups(s1, t, e, |t|);
    OnesAfterSingles(s1, e, r0, |s1|);
    DoneStep(t, g);
    PrefixStep(levels, g);
    forall i | 0 <= i < |s2|
      ensures s2[i] == t[i].(electrons := if t[i].energyLevel in levels[..g + 1] then FillAt(t, total, i) else 0)
    {
      if t[i].energyLevel == e {
        SameLevelsSameGroups(s0, t, e, i);
        SameLevelsSameGroups(s1, t, e, i);
        OnesAfterSingles(s1, e, r0, i);
        FillAtRank(t, total, levels, g, i, r0, r1, s1[i].electrons, s2[i].electrons);
      }
    }
  }

  /** Before any group is filled the configuration is the empty template, and
      the group about to be filled is still empty. */
  lemma FilledThroughStart(t: seq<Orbital>, total: int)
    requires forall i :: 0 <= i < |t| ==> t[i].electrons == 0
    ensures FilledThrough(t, total, Levels(t), 0, t)
  {
  }

  lemma GroupStillEmpty(t: seq<Orbital>, total: int, levels: seq<int>, g: nat, s: seq<Orbital>)
    requires g < |levels| && StrictlyIncreasing(levels)
    requires FilledThrough(t, total, levels, g, s)
    ensures forall i :: 0 <= i < |s| && s[i].energyLevel == levels[g] ==> s[i].electrons == 0
  {
    assert levels[g] !in levels[..g];
  }

  /** Once every group is filled the configuration is the ground state. */
  lemma FilledThroughEnd(t: seq<Orbital>, total: int, s: seq<Orbital>)
    requires FilledThrough(t, total, Levels(t), |Levels(t)|, s)
    ensures s == GroundState(t, total)
  {
    var levels := Levels(t);
    forall i | 0 <= i < |t| ensures t[i].energyLevel in levels {
    }
    assert levels[..|levels|] == levels;
  }

  /** One energy group of auto-fill: the singles pass then the pairs pass over
      the group at index `g`, with the electrons still to place. */
  method FillGroup(a: array<Orbital>, template: seq<Orbital>, total: int, levels: seq<int>, g: nat,
                   remaining: nat) returns (left: nat)
    requires levels == Levels(template) && g < |levels|
    requires FilledThrough(template, total, levels, g, a[..])
    requires remaining == Max(total - 2 * Done(template, levels, g), 0)
    modifies a
    ensures FilledThrough(template, total, levels, g + 1, a[..])
    ensures left == Max(total - 2 * Done(template, levels, g + 1), 0)
    ensures ElectronsUpTo(a[..], a.Length) == old(ElectronsUpTo(a[..], a.Length)) + (remaining - left)
  {
    var e := levels[g];
    ghost var s0 := a[..];
    GroupStillEmpty(template, total, levels, g, s0);
    var r1 := SinglesPass(a, e, remaining);
    ghost var s1 := a[..];
    AfterSingles(template, total, levels, g, s0, s1, remaining, r1);
    left := PairsPass(a, e, r1);
    GroupStep(template, total, levels, g, s0, s1, a[..], remaining, r1, left);
  }

  /** The walk over all energy groups in ascending order. */
  method FillAllGroups(a: array<Orbital>, template: seq<Orbital>, total: nat, levels: seq<int>)
    returns (remaining: nat)
    requires levels == Levels(template)
    requires FilledThrough(template, total, levels, 0, a[..])
    requires ElectronsUpTo(a[..], a.Length) == 0
    modifies a
    ensures FilledThrough(template, total, levels, |levels|, a[..])
    ensures remaining == Max(total - 2 * |template|, 0)
    ensures ElectronsUpTo(a[..], a.Length) + remaining == total
  {
    DoneAtStart(template);
    remaining := total;
    var g := 0;
    while g < |levels|
      invariant 0 <= g <= |levels|
      invariant FilledThrough(template, total, levels, g, a[..])
      invariant remaining == Max(total - 2 * Done(template, levels, g), 0)
      invariant ElectronsUpTo(a[..], a.Length) + remaining == total
    {
      remaining := FillGroup(a, template, total, levels, g, remaining);
      g := g + 1;
    }
  }

  /** Auto-fill: starting from an empty template, walk the energy groups in
      ascending order; in each, give one electron to every orbital while any
      remain, then a second to every singly occupied orbital while any remain. */
  method FillGroundState(template: seq<Orbital>, total: nat) returns (os: seq<Orbital>)
    requires forall i :: 0 <= i < |template| ==> template[i].electrons == 0
    ensures os == GroundState(template, total)
    ensures ElectronsPlaced(os) == Min(total, 2 * |template|)
  {
    var a := new Orbital[|template|](i requires 0 <= i < |template| => template[i]);
    NoElectrons(template, |template|);
    FilledThroughStart(template, total);
    assert a[..] == template;
    var remaining := FillAllGroups(a, template, total, Levels(template));
    os := a[..];
    FilledThroughEnd(template, total, os);
  }
}
