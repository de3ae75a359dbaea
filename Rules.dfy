/** The rule check run by the "Check" button (App.tsx, handleCheck): the
    electron count first, then one ascending scan over the energy groups that
    stops at the first Aufbau or Hund violation. */
module Rules {
  import opened Types
  import opened Stats
  import opened Energy
  import opened Filling

  /** Aufbau is violated at the group of index `g` when it holds electrons while
      the group just below it is not full. */
  predicate AufbauAt(os: seq<Orbital>, levels: seq<int>, g: nat)
    requires g < |levels|
  {
    g > 0 && GroupSum(os, levels[g]) > 0 && !GroupFull(os, levels[g - 1])
  }

  /** Hund's rule is violated at level `e` when one of its orbitals is paired
      while another is empty. */
  predicate HundAt(os: seq<Orbital>, e: int)
  {
    HasOccupancy(os, e, 2) && HasOccupancy(os, e, 0)
  }

  /** The group of index `g` breaks neither rule. */
  predicate Clean(os: seq<Orbital>, levels: seq<int>, g: nat)
    requires g < |levels|
  {
    !AufbauAt(os, levels, g) && !HundAt(os, levels[g])
  }

  /** Outcome of the scan from the group of index `g` on: the first group that
      breaks a rule decides, Aufbau before Hund at the same group. */
  function Scan(os: seq<Orbital>, levels: seq<int>, g: nat): (f: Feedback)
    requires g <= |levels|
    decreases |levels| - g
  {
    if g == |levels| then Success
    else if AufbauAt(os, levels, g) then Aufbau
    else if HundAt(os, levels[g]) then Hund
    else Scan(os, levels, g + 1)
  }

  /** What the check reports for a configuration of a molecule with `total` electrons. */
  function Verdict(os: seq<Orbital>, total: int): (f: Feedback)
  {
    var placed := ElectronsPlaced(os);
    if placed != total then CountMismatch(total, placed) else Scan(os, Levels(os), 0)
  }

  /** The scan reports the first group that breaks a rule, and success exactly
      when no group does. */
  lemma {:induction false} ScanFindsFirstViolation(os: seq<Orbital>, levels: seq<int>, from: nat)
    requires from <= |levels|
    ensures Scan(os, levels, from) == Success <==>
      forall g :: from <= g < |levels| ==> Clean(os, levels, g)
    ensures Scan(os, levels, from) == Aufbau <==>
      exists g :: from <= g < |levels| && AufbauAt(os, levels, g) &&
        forall h :: from <= h < g ==> Clean(os, levels, h)
    ensures Scan(os, levels, from) == Hund <==>
      exists g :: from <= g < |levels| && !AufbauAt(os, levels, g) && HundAt(os, levels[g]) &&
        forall h :: from <= h < g ==> Clean(os, levels, h)
    ensures Scan(os, levels, from) in {Success, Aufbau, Hund}
    decreases |levels| - from
  {
    if from < |levels| {
      ScanFindsFirstViolation(os, levels, from + 1);
      if Clean(os, levels, from) {
        if Scan(os, levels, from) == Aufbau {
          var g :| from + 1 <= g < |levels| && AufbauAt(os, levels, g) &&
            forall h :: from + 1 <= h < g ==> Clean(os, levels, h);
          assert forall h :: from <= h < g ==> Clean(os, levels, h);
        }
        if Scan(os, levels, from) == Hund {
          var g :| from + 1 <= g < |levels| && !AufbauAt(os, levels, g) && HundAt(os, levels[g]) &&
            forall h :: from + 1 <= h < g ==> Clean(os, levels, h);
          assert forall h :: from <= h < g ==> Clean(os, levels, h);
        }
      }
    }
  }

  /** A wrong electron count is reported before any rule, with both numbers; with
      the right count only a rule violation or success can be reported. */
  lemma CountMismatchFirst(os: seq<Orbital>, total: int)
    ensures ElectronsPlaced(os) != total ==> Verdict(os, total) == CountMismatch(total, ElectronsPlaced(os))
    ensures ElectronsPlaced(os) == total ==> Verdict(os, total) in {Success, Aufbau, Hund}
  {
    ScanFindsFirstViolation(os, Levels(os), 0);
  }

  /** The check: compare the count, then walk the groups in ascending order,
      carrying whether the group just visited was full. */
  method CheckConfiguration(os: seq<Orbital>, total: int) returns (f: Feedback)
    ensures f == Verdict(os, total)
  {
    var placed := ElectronsPlaced(os);
    if placed != total {
      return CountMismatch(total, placed);
    }
    var levels := Levels(os);
    var lowerLevelFull := true;
    var i := 0;
    while i < |levels|
      invariant 0 <= i <= |levels|
      invariant lowerLevelFull == (i == 0 || GroupFull(os, levels[i - 1]))
      invariant Scan(os, levels, 0) == Scan(os, levels, i)
    {
      var energy := levels[i];
      var totalInGroup := GroupSum(os, energy);
      var capacityInGroup := LevelCount(os, energy) * 2;
      var hasUnfilledOrbital := HasOccupancy(os, energy, 0);
      var hasPairedElectron := HasOccupancy(os, energy, 2);
      if totalInGroup > 0 && !lowerLevelFull {
        return Aufbau;
      }
      if hasPairedElectron && hasUnfilledOrbital {
        return Hund;
      }
      lowerLevelFull := totalInGroup == capacityInGroup;
      i := i + 1;
    }
    return Success;
  }

  /** Electrons the ground state holds in the orbitals at level `e` among the
      first `n`: the singles and the pairs of the ranks seen so far. */
  lemma {:induction false} GroundStateGroupSumUpTo(os: seq<Orbital>, total: int, e: int, n: nat)
    requires n <= |os|
    ensures var r, k, c := GroupBudget(os, total, e), LevelCount(os, e), CountBefore(os, e, n);
      GroupSumUpTo(GroundState(os, total), e, n) == Min(r, c) + Min(Max(r - k, 0), c)
  {
    if n > 0 {
      GroundStateGroupSumUpTo(os, total, e, n - 1);
      var gs := GroundState(os, total);
      var r, k := GroupBudget(os, total, e), LevelCount(os, e);
      var c := CountBefore(os, e, n - 1);
      assert CountBefore(os, e, n) == c + (if os[n - 1].energyLevel == e then 1 else 0);
      assert GroupSumUpTo(gs, e, n) ==
        GroupSumUpTo(gs, e, n - 1) + (if os[n - 1].energyLevel == e then gs[n - 1].electrons else 0);
      if os[n - 1].energyLevel == e {
        assert gs[n - 1].electrons == (if c < r then 1 else 0) + (if c < r - k then 1 else 0);
      }
    }
  }

  /** The ground state holds exactly its budget in each group. */
  lemma GroundStateGroupSum(os: seq<Orbital>, total: int, e: int)
    ensures GroupSum(GroundState(os, total), e) == GroupBudget(os, total, e)
    ensures LevelCount(GroundState(os, total), e) == LevelCount(os, e)
  {
    GroundStateGroupSumUpTo(os, total, e, |os|);
    SameLevelsSameGroups(GroundState(os, total), os, e, |os|);
  }

  /** In the ground state no group breaks a rule: each lower group is full
      before a higher one holds electrons, and a group with a pair has no empty
      orbital. */
  lemma GroundStateClean(os: seq<Orbital>, total: int, g: nat)
    requires g < |Levels(os)|
    ensures Clean(GroundState(os, total), Levels(os), g)
  {
    var gs := GroundState(os, total);
    var levels := Levels(os);
    var e := levels[g];
    GroundStateGroupSum(os, total, e);
    if g > 0 {
      GroundStateGroupSum(os, total, levels[g - 1]);
      DoneStep(os, g - 1);
    }
    if HundAt(gs, e) {
      var i :| 0 <= i < |gs| && gs[i].energyLevel == e && gs[i].electrons == 2;
      var j :| 0 <= j < |gs| && gs[j].energyLevel == e && gs[j].electrons == 0;
      RankInGroup(os, j);
      assert false;
    }
  }

  /** Any auto-fill result with the right electron count passes the check. */
  lemma GroundStatePasses(os: seq<Orbital>, total: int)
    requires ElectronsPlaced(GroundState(os, total)) == total
    ensures Verdict(GroundState(os, total), total) == Success
  {
    var gs := GroundState(os, total);
    var levels := Levels(os);
    SameLevelsSameGroups(gs, os, 0, 0);
    forall g | 0 <= g < |levels| ensures Clean(gs, levels, g) {
      GroundStateClean(os, total, g);
    }
    ScanFindsFirstViolation(gs, levels, 0);
  }
}
