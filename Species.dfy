/** Ground states that auto-fill produces for species of the catalogue, and the
    statistics the trainer derives from them. Each template's grouping (orbitals
    below each level, size of each group, rank of each orbital in its group) is
    computed once in small lemmas; the per-species fillings follow from those. */
module Species {
  import opened Types
  import opened Stats
  import opened Energy
  import opened Catalog
  import opened Filling
  import opened Rules

  // Grouping of the standard template: orbitals below each level, group sizes,
  // and the rank of each orbital within its group.

  lemma StandardLowerGroups()
    ensures var t := GenerateOrbitals(Standard);
      CountBelow(t, 5) == 0 && CountBelow(t, 15) == 1 && CountBelow(t, 25) == 2 && CountBelow(t, 35) == 3
  {
  }

  lemma StandardUpperGroups()
    ensures var t := GenerateOrbitals(Standard);
      CountBelow(t, 48) == 4 && CountBelow(t, 60) == 5
  {
  }

  lemma StandardAntibondingGroups()
    ensures var t := GenerateOrbitals(Standard);
      CountBelow(t, 75) == 7 && CountBelow(t, 88) == 9
  {
  }

  lemma StandardLowerSizes()
    ensures var t := GenerateOrbitals(Standard);
      LevelCount(t, 5) == 1 && LevelCount(t, 15) == 1 && LevelCount(t, 25) == 1 && LevelCount(t, 35) == 1
  {
  }

  lemma StandardUpperSizes()
    ensures var t := GenerateOrbitals(Standard);
      LevelCount(t, 48) == 1 && LevelCount(t, 60) == 2 && LevelCount(t, 75) == 2 && LevelCount(t, 88) == 1
  {
  }

  lemma StandardRanks()
    ensures var t := GenerateOrbitals(Standard);
      CountBefore(t, 5, 0) == 0 && CountBefore(t, 15, 1) == 0 && CountBefore(t, 25, 2) == 0 &&
      CountBefore(t, 35, 3) == 0 && CountBefore(t, 48, 4) == 0 && CountBefore(t, 60, 5) == 0 &&
      CountBefore(t, 60, 6) == 1 && CountBefore(t, 75, 7) == 0 && CountBefore(t, 75, 8) == 1 &&
      CountBefore(t, 88, 9) == 0
  {
  }

  // Grouping of the mixing template.

  lemma MixingLowerGroups()
    ensures var t := GenerateOrbitals(Mixing);
      CountBelow(t, 5) == 0 && CountBelow(t, 15) == 1 && CountBelow(t, 25) == 2 && CountBelow(t, 35) == 3
  {
  }

  lemma MixingUpperGroups()
    ensures var t := GenerateOrbitals(Mixing);
      CountBelow(t, 48) == 4 && CountBelow(t, 60) == 6
  {
  }

  lemma MixingAntibondingGroups()
    ensures var t := GenerateOrbitals(Mixing);
      CountBelow(t, 75) == 7 && CountBelow(t, 88) == 9
  {
  }

  lemma MixingLowerSizes()
    ensures var t := GenerateOrbitals(Mixing);
      LevelCount(t, 5) == 1 && LevelCount(t, 15) == 1 && LevelCount(t, 25) == 1 && LevelCount(t, 35) == 1
  {
  }

  lemma MixingUpperSizes()
    ensures var t := GenerateOrbitals(Mixing);
      LevelCount(t, 48) == 2 && LevelCount(t, 60) == 1 && LevelCount(t, 75) == 2 && LevelCount(t, 88) == 1
  {
  }

  lemma MixingRanks()
    ensures var t := GenerateOrbitals(Mixing);
      CountBefore(t, 5, 0) == 0 && CountBefore(t, 15, 1) == 0 && CountBefore(t, 25, 2) == 0 &&
      CountBefore(t, 35, 3) == 0 && CountBefore(t, 48, 4) == 0 && CountBefore(t, 48, 5) == 1 &&
      CountBefore(t, 60, 6) == 0 && CountBefore(t, 75, 7) == 0 && CountBefore(t, 75, 8) == 1 &&
      CountBefore(t, 88, 9) == 0
  {
  }

  /** The standard template's levels 5 to 88 hold 1, 1, 1, 1, 1, 2, 2, 1 orbitals. */
  lemma StandardGrouping()
    ensures var t := GenerateOrbitals(Standard);
      CountBelow(t, 5) == 0 && CountBelow(t, 15) == 1 && CountBelow(t, 25) == 2 && CountBelow(t, 35) == 3 &&
      CountBelow(t, 48) == 4 && CountBelow(t, 60) == 5 && CountBelow(t, 75) == 7 && CountBelow(t, 88) == 9 &&
      LevelCount(t, 5) == 1 && LevelCount(t, 15) == 1 && LevelCount(t, 25) == 1 && LevelCount(t, 35) == 1 &&
      LevelCount(t, 48) == 1 && LevelCount(t, 60) == 2 && LevelCount(t, 75) == 2 && LevelCount(t, 88) == 1
  {
    StandardLowerGroups();
    StandardUpperGroups();
    StandardAntibondingGroups();
    StandardLowerSizes();
    StandardUpperSizes();
  }

  /** The mixing template's levels 5 to 88 hold 1, 1, 1, 1, 2, 1, 2, 1 orbitals. */
  lemma MixingGrouping()
    ensures var t := GenerateOrbitals(Mixing);
      CountBelow(t, 5) == 0 && CountBelow(t, 15) == 1 && CountBelow(t, 25) == 2 && CountBelow(t, 35) == 3 &&
      CountBelow(t, 48) == 4 && CountBelow(t, 60) == 6 && CountBelow(t, 75) == 7 && CountBelow(t, 88) == 9 &&
      LevelCount(t, 5) == 1 && LevelCount(t, 15) == 1 && LevelCount(t, 25) == 1 && LevelCount(t, 35) == 1 &&
      LevelCount(t, 48) == 2 && LevelCount(t, 60) == 1 && LevelCount(t, 75) == 2 && LevelCount(t, 88) == 1
  {
    MixingLowerGroups();
    MixingUpperGroups();
    MixingAntibondingGroups();
    MixingLowerSizes();
    MixingUpperSizes();
  }

  /** O₂, 16 electrons over the standard ordering, orbitals 0 to 4: all paired. */
  lemma OxygenFillLower()
    ensures FillAt(GenerateOrbitals(Standard), 16, 0) == 2
    ensures FillAt(GenerateOrbitals(Standard), 16, 1) == 2
    ensures FillAt(GenerateOrbitals(Standard), 16, 2) == 2
    ensures FillAt(GenerateOrbitals(Standard), 16, 3) == 2
    ensures FillAt(GenerateOrbitals(Standard), 16, 4) == 2
  {
    StandardGrouping();
    StandardRanks();
  }

  /** O₂, orbitals 5 to 9: the π2p pair paired, one electron in each π*2p orbital, σ*2p empty. */
  lemma OxygenFillUpper()
    ensures FillAt(GenerateOrbitals(Standard), 16, 5) == 2
    ensures FillAt(GenerateOrbitals(Standard), 16, 6) == 2
    ensures FillAt(GenerateOrbitals(Standard), 16, 7) == 1
    ensures FillAt(GenerateOrbitals(Standard), 16, 8) == 1
    ensures FillAt(GenerateOrbitals(Standard), 16, 9) == 0
  {
    StandardGrouping();
    StandardRanks();
  }

  /** He₂, 4 electrons, orbitals 0 to 4: σ1s and σ*1s paired, the rest empty. */
  lemma HeliumFillLower()
    ensures FillAt(GenerateOrbitals(Standard), 4, 0) == 2
    ensures FillAt(GenerateOrbitals(Standard), 4, 1) == 2
    ensures FillAt(GenerateOrbitals(Standard), 4, 2) == 0
    ensures FillAt(GenerateOrbitals(Standard), 4, 3) == 0
    ensures FillAt(GenerateOrbitals(Standard), 4, 4) == 0
  {
    StandardGrouping();
    StandardRanks();
  }

  /** He₂, orbitals 5 to 9: empty. */
  lemma HeliumFillUpper()
    ensures FillAt(GenerateOrbitals(Standard), 4, 5) == 0
    ensures FillAt(GenerateOrbitals(Standard), 4, 6) == 0
    ensures FillAt(GenerateOrbitals(Standard), 4, 7) == 0
    ensures FillAt(GenerateOrbitals(Standard), 4, 8) == 0
    ensures FillAt(GenerateOrbitals(Standard), 4, 9) == 0
  {
    StandardGrouping();
    StandardRanks();
  }

  /** N₂, 14 electrons over the mixing ordering, orbitals 0 to 4: all paired. */
  lemma NitrogenFillLower()
    ensures FillAt(GenerateOrbitals(Mixing), 14, 0) == 2
    ensures FillAt(GenerateOrbitals(Mixing), 14, 1) == 2
    ensures FillAt(GenerateOrbitals(Mixing), 14, 2) == 2
    ensures FillAt(GenerateOrbitals(Mixing), 14, 3) == 2
    ensures FillAt(GenerateOrbitals(Mixing), 14, 4) == 2
  {
    MixingGrouping();
    MixingRanks();
  }

  /** N₂, orbitals 5 to 9: π2p_b and σ2p paired, the antibonding 2p orbitals empty. */
  lemma NitrogenFillUpper()
    ensures FillAt(GenerateOrbitals(Mixing), 14, 5) == 2
    ensures FillAt(GenerateOrbitals(Mixing), 14, 6) == 2
    ensures FillAt(GenerateOrbitals(Mixing), 14, 7) == 0
    ensures FillAt(GenerateOrbitals(Mixing), 14, 8) == 0
    ensures FillAt(GenerateOrbitals(Mixing), 14, 9) == 0
  {
    MixingGrouping();
    MixingRanks();
  }

  /** B₂, 10 electrons over the mixing ordering, orbitals 0 to 4: 1s and 2s paired, π2p_a singly occupied. */
  lemma BoronFillLower()
    ensures FillAt(GenerateOrbitals(Mixing), 10, 0) == 2
    ensures FillAt(GenerateOrbitals(Mixing), 10, 1) == 2
    ensures FillAt(GenerateOrbitals(Mixing), 10, 2) == 2
    ensures FillAt(GenerateOrbitals(Mixing), 10, 3) == 2
    ensures FillAt(GenerateOrbitals(Mixing), 10, 4) == 1
  {
    MixingGrouping();
    MixingRanks();
  }

  /** B₂, orbitals 5 to 9: π2p_b singly occupied, the rest empty. */
  lemma BoronFillUpper()
    ensures FillAt(GenerateOrbitals(Mixing), 10, 5) == 1
    ensures FillAt(GenerateOrbitals(Mixing), 10, 6) == 0
    ensures FillAt(GenerateOrbitals(Mixing), 10, 7) == 0
    ensures FillAt(GenerateOrbitals(Mixing), 10, 8) == 0
    ensures FillAt(GenerateOrbitals(Mixing), 10, 9) == 0
  {
    MixingGrouping();
    MixingRanks();
  }

  /** 1 for a singly occupied orbital, 0 otherwise. */
  function SinglyOccupied(o: Orbital): (c: nat)
    ensures c == 1 <==> o.electrons == 1
  {
    if o.electrons == 1 then 1 else 0
  }

  /** The bond kinds of the ten template orbitals, which both orderings share:
      σ1s, σ2s and the three bonding 2p orbitals are bonding, the rest antibonding. */
  predicate TemplateKinds(g: seq<Orbital>)
  {
    |g| == 10 &&
    g[0].kind == Bonding && g[1].kind == Antibonding && g[2].kind == Bonding && g[3].kind == Antibonding &&
    g[4].kind == Bonding && g[5].kind == Bonding && g[6].kind == Bonding &&
    g[7].kind == Antibonding && g[8].kind == Antibonding && g[9].kind == Antibonding
  }

  lemma KindsOfTemplate(ordering: Ordering)
    ensures TemplateKinds(GenerateOrbitals(ordering))
  {
  }

  /** Filling a template keeps its bond kinds. */
  lemma KindsKept(g: seq<Orbital>, t: seq<Orbital>)
    requires TemplateKinds(t) && SameShape(g, t)
    ensures TemplateKinds(g)
  {
    assert g[4] == t[4].(electrons := g[4].electrons);
  }

  lemma TenPlaced(g: seq<Orbital>)
    requires |g| == 10
    ensures ElectronsPlaced(g) == g[0].electrons + g[1].electrons + g[2].electrons + g[3].electrons +
      g[4].electrons + g[5].electrons + g[6].electrons + g[7].electrons + g[8].electrons + g[9].electrons
  {
    assert ElectronsUpTo(g, 1) == g[0].electrons;
    assert ElectronsUpTo(g, 3) == ElectronsUpTo(g, 1) + g[1].electrons + g[2].electrons;
    assert ElectronsUpTo(g, 5) == ElectronsUpTo(g, 3) + g[3].electrons + g[4].electrons;
    assert ElectronsUpTo(g, 7) == ElectronsUpTo(g, 5) + g[5].electrons + g[6].electrons;
    assert ElectronsUpTo(g, 9) == ElectronsUpTo(g, 7) + g[7].electrons + g[8].electrons;
  }

  lemma TenByKind(g: seq<Orbital>)
    requires TemplateKinds(g)
    ensures BondingElectrons(g) == g[0].electrons + g[2].electrons + g[4].electrons + g[5].electrons + g[6].electrons
    ensures AntibondingElectrons(g) == g[1].electrons + g[3].electrons + g[7].electrons + g[8].electrons + g[9].electrons
  {
    assert KindElectrons(g, Bonding, 1) == g[0].electrons;
    assert KindElectrons(g, Bonding, 3) == KindElectrons(g, Bonding, 1) + g[2].electrons;
    assert KindElectrons(g, Bonding, 5) == KindElectrons(g, Bonding, 3) + g[4].electrons;
    assert KindElectrons(g, Bonding, 7) == KindElectrons(g, Bonding, 5) + g[5].electrons + g[6].electrons;
    assert KindElectrons(g, Bonding, 9) == KindElectrons(g, Bonding, 7);
    assert KindElectrons(g, Antibonding, 1) == 0;
    assert KindElectrons(g, Antibonding, 3) == KindElectrons(g, Antibonding, 1) + g[1].electrons;
    assert KindElectrons(g, Antibonding, 5) == KindElectrons(g, Antibonding, 3) + g[3].electrons;
    assert KindElectrons(g, Antibonding, 7) == KindElectrons(g, Antibonding, 5);
    assert KindElectrons(g, Antibonding, 9) == KindElectrons(g, Antibonding, 7) + g[7].electrons + g[8].electrons;
  }

  lemma TenUnpaired(g: seq<Orbital>)
    requires |g| == 10
    ensures UnpairedElectrons(g) == SinglyOccupied(g[0]) + SinglyOccupied(g[1]) + SinglyOccupied(g[2]) +
      SinglyOccupied(g[3]) + SinglyOccupied(g[4]) + SinglyOccupied(g[5]) + SinglyOccupied(g[6]) +
      SinglyOccupied(g[7]) + SinglyOccupied(g[8]) + SinglyOccupied(g[9])
  {
    assert UnpairedUpTo(g, 1) == SinglyOccupied(g[0]);
    assert UnpairedUpTo(g, 3) == UnpairedUpTo(g, 1) + SinglyOccupied(g[1]) + SinglyOccupied(g[2]);
    assert UnpairedUpTo(g, 5) == UnpairedUpTo(g, 3) + SinglyOccupied(g[3]) + SinglyOccupied(g[4]);
    assert UnpairedUpTo(g, 7) == UnpairedUpTo(g, 5) + SinglyOccupied(g[5]) + SinglyOccupied(g[6]);
    assert UnpairedUpTo(g, 9) == UnpairedUpTo(g, 7) + SinglyOccupied(g[7]) + SinglyOccupied(g[8]);
  }

  /** The statistics of a filled template, orbital by orbital. */
  lemma Tally(g: seq<Orbital>)
    requires TemplateKinds(g)
    ensures ElectronsPlaced(g) == g[0].electrons + g[1].electrons + g[2].electrons + g[3].electrons +
      g[4].electrons + g[5].electrons + g[6].electrons + g[7].electrons + g[8].electrons + g[9].electrons
    ensures BondingElectrons(g) == g[0].electrons + g[2].electrons + g[4].electrons + g[5].electrons + g[6].electrons
    ensures AntibondingElectrons(g) == g[1].electrons + g[3].electrons + g[7].electrons + g[8].electrons + g[9].electrons
    ensures UnpairedElectrons(g) == SinglyOccupied(g[0]) + SinglyOccupied(g[1]) + SinglyOccupied(g[2]) +
      SinglyOccupied(g[3]) + SinglyOccupied(g[4]) + SinglyOccupied(g[5]) + SinglyOccupied(g[6]) +
      SinglyOccupied(g[7]) + SinglyOccupied(g[8]) + SinglyOccupied(g[9])
  {
    TenPlaced(g);
    TenByKind(g);
    TenUnpaired(g);
  }

  /** The ground state of a ten-orbital template, orbital by orbital, with its bond kinds. */
  lemma Unfold(t: seq<Orbital>, total: int)
    requires TemplateKinds(t)
    ensures var g := GroundState(t, total);
      TemplateKinds(g) &&
      g[0].electrons == FillAt(t, total, 0) && g[1].electrons == FillAt(t, total, 1) &&
      g[2].electrons == FillAt(t, total, 2) && g[3].electrons == FillAt(t, total, 3) &&
      g[4].electrons == FillAt(t, total, 4) && g[5].electrons == FillAt(t, total, 5) &&
      g[6].electrons == FillAt(t, total, 6) && g[7].electrons == FillAt(t, total, 7) &&
      g[8].electrons == FillAt(t, total, 8) && g[9].electrons == FillAt(t, total, 9)
  {
    KindsKept(GroundState(t, total), t);
  }

  /** Statistics of any ten-orbital configuration filled as the O₂ ground state. */
  lemma OxygenCounts(g: seq<Orbital>)
    requires TemplateKinds(g)
    requires g[0].electrons == 2 && g[1].electrons == 2 && g[2].electrons == 2 && g[3].electrons == 2 && g[4].electrons == 2 &&
      g[5].electrons == 2 && g[6].electrons == 2 && g[7].electrons == 1 && g[8].electrons == 1 && g[9].electrons == 0
    ensures ElectronsPlaced(g) == 16 &&
      BondingElectrons(g) == 10 && AntibondingElectrons(g) == 6 && BondOrder(g) == 2.0 &&
      UnpairedElectrons(g) == 2 && IsParamagnetic(g) && StabilityOf(BondOrder(g)) == Stable
  {
    Tally(g);
  }

  /** Auto-fill of O₂: bond order 2 and two unpaired electrons in the π*2p pair, so it is paramagnetic. */
  lemma OxygenGroundState()
    ensures var g := GroundState(GenerateOrbitals(Standard), 16);
      ElectronsPlaced(g) == 16 &&
      BondingElectrons(g) == 10 && AntibondingElectrons(g) == 6 && BondOrder(g) == 2.0 &&
      UnpairedElectrons(g) == 2 && IsParamagnetic(g) && StabilityOf(BondOrder(g)) == Stable
  {
    KindsOfTemplate(Standard);
    Unfold(GenerateOrbitals(Standard), 16);
    OxygenFillLower();
    OxygenFillUpper();
    OxygenCounts(GroundState(GenerateOrbitals(Standard), 16));
  }

  /** The catalogue entry of O₂, and its auto-fill passes the check. */
  lemma OxygenPasses()
    ensures var m := Molecules()[0];
      m.id == "O2" && m.ordering == Standard && m.totalElectrons == 16
    ensures Verdict(GroundState(GenerateOrbitals(Standard), 16), 16) == Success
  {
    OxygenGroundState();
    GroundStatePasses(GenerateOrbitals(Standard), 16);
  }

  /** Statistics of any ten-orbital configuration filled as the N₂ ground state. */
  lemma NitrogenCounts(g: seq<Orbital>)
    requires TemplateKinds(g)
    requires g[0].electrons == 2 && g[1].electrons == 2 && g[2].electrons == 2 && g[3].electrons == 2 && g[4].electrons == 2 &&
      g[5].electrons == 2 && g[6].electrons == 2 && g[7].electrons == 0 && g[8].electrons == 0 && g[9].electrons == 0
    ensures ElectronsPlaced(g) == 14 &&
      BondingElectrons(g) == 10 && AntibondingElectrons(g) == 4 && BondOrder(g) == 3.0 &&
      UnpairedElectrons(g) == 0 && !IsParamagnetic(g) && StabilityOf(BondOrder(g)) == HighlyStable
  {
    Tally(g);
  }

  /** Auto-fill of N₂: bond order 3 and no unpaired electron. */
  lemma NitrogenGroundState()
    ensures var g := GroundState(GenerateOrbitals(Mixing), 14);
      ElectronsPlaced(g) == 14 &&
      BondingElectrons(g) == 10 && AntibondingElectrons(g) == 4 && BondOrder(g) == 3.0 &&
      UnpairedElectrons(g) == 0 && !IsParamagnetic(g) && StabilityOf(BondOrder(g)) == HighlyStable
  {
    KindsOfTemplate(Mixing);
    Unfold(GenerateOrbitals(Mixing), 14);
    NitrogenFillLower();
    NitrogenFillUpper();
    NitrogenCounts(GroundState(GenerateOrbitals(Mixing), 14));
  }

  /** The catalogue entry of N₂, and its auto-fill passes the check. */
  lemma NitrogenPasses()
    ensures var m := Molecules()[3];
      m.id == "N2" && m.ordering == Mixing && m.totalElectrons == 14
    ensures Verdict(GroundState(GenerateOrbitals(Mixing), 14), 14) == Success
  {
    NitrogenGroundState();
    GroundStatePasses(GenerateOrbitals(Mixing), 14);
  }

  /** Statistics of any ten-orbital configuration filled as the B₂ ground state. */
  lemma BoronCounts(g: seq<Orbital>)
    requires TemplateKinds(g)
    requires g[0].electrons == 2 && g[1].electrons == 2 && g[2].electrons == 2 && g[3].electrons == 2 && g[4].electrons == 1 &&
      g[5].electrons == 1 && g[6].electrons == 0 && g[7].electrons == 0 && g[8].electrons == 0 && g[9].electrons == 0
    ensures ElectronsPlaced(g) == 10 &&
      BondingElectrons(g) == 6 && AntibondingElectrons(g) == 4 && BondOrder(g) == 1.0 &&
      UnpairedElectrons(g) == 2 && IsParamagnetic(g) && StabilityOf(BondOrder(g)) == WeakStability
  {
    Tally(g);
  }

  /** Auto-fill of B₂: bond order 1, paramagnetic through its singly occupied π2p pair. */
  lemma BoronGroundState()
    ensures var g := GroundState(GenerateOrbitals(Mixing), 10);
      ElectronsPlaced(g) == 10 &&
      BondingElectrons(g) == 6 && AntibondingElectrons(g) == 4 && BondOrder(g) == 1.0 &&
      UnpairedElectrons(g) == 2 && IsParamagnetic(g) && StabilityOf(BondOrder(g)) == WeakStability
  {
    KindsOfTemplate(Mixing);
    Unfold(GenerateOrbitals(Mixing), 10);
    BoronFillLower();
    BoronFillUpper();
    BoronCounts(GroundState(GenerateOrbitals(Mixing), 10));
  }

  /** The catalogue entry of B₂, and its auto-fill passes the check. */
  lemma BoronPasses()
    ensures var m := Molecules()[7];
      m.id == "B2" && m.ordering == Mixing && m.totalElectrons == 10
    ensures Verdict(GroundState(GenerateOrbitals(Mixing), 10), 10) == Success
  {
    BoronGroundState();
    GroundStatePasses(GenerateOrbitals(Mixing), 10);
  }

  /** Statistics of any ten-orbital configuration filled as the He₂ ground state. */
  lemma HeliumCounts(g: seq<Orbital>)
    requires TemplateKinds(g)
    requires g[0].electrons == 2 && g[1].electrons == 2 && g[2].electrons == 0 && g[3].electrons == 0 && g[4].electrons == 0 &&
      g[5].electrons == 0 && g[6].electrons == 0 && g[7].electrons == 0 && g[8].electrons == 0 && g[9].electrons == 0
    ensures ElectronsPlaced(g) == 4 &&
      BondingElectrons(g) == 2 && AntibondingElectrons(g) == 2 && BondOrder(g) == 0.0 &&
      UnpairedElectrons(g) == 0 && !IsParamagnetic(g) && StabilityOf(BondOrder(g)) == Unstable
  {
    Tally(g);
  }

  /** Auto-fill of He₂: bonding and antibonding electrons cancel, bond order 0. */
  lemma HeliumGroundState()
    ensures var g := GroundState(GenerateOrbitals(Standard), 4);
      ElectronsPlaced(g) == 4 &&
      BondingElectrons(g) == 2 && AntibondingElectrons(g) == 2 && BondOrder(g) == 0.0 &&
      UnpairedElectrons(g) == 0 && !IsParamagnetic(g) && StabilityOf(BondOrder(g)) == Unstable
  {
    KindsOfTemplate(Standard);
    Unfold(GenerateOrbitals(Standard), 4);
    HeliumFillLower();
    HeliumFillUpper();
    HeliumCounts(GroundState(GenerateOrbitals(Standard), 4));
  }

  /** The catalogue entry of He₂, and its auto-fill passes the check. */
  lemma HeliumPasses()
    ensures var m := Molecules()[8];
      m.id == "He2" && m.ordering == Standard && m.totalElectrons == 4
    ensures Verdict(GroundState(GenerateOrbitals(Standard), 4), 4) == Success
  {
    HeliumGroundState();
    GroundStatePasses(GenerateOrbitals(Standard), 4);
  }
}
