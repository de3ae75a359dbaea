/** The fixed molecule catalogue and the empty orbital template for each
    energy ordering (constants.ts). */
module Catalog {
  import opened Types

  /** The nine diatomic species the trainer offers, in menu order. */
  function Molecules(): (ms: seq<Molecule>)
    ensures |ms| == 9
    ensures forall i, j :: 0 <= i < j < |ms| ==> ms[i].id != ms[j].id
    ensures forall i :: 0 <= i < |ms| ==> ms[i].totalElectrons <= 17
    ensures ms[0].id == "O2"
  {
    [ Molecule("O2", "O₂", "Dioxygen", 16, Standard),
      Molecule("O2+", "O₂⁺", "Dioxygenyl", 15, Standard),
      Molecule("O2-", "O₂⁻", "Superoxide", 17, Standard),
      Molecule("N2", "N₂", "Dinitrogen", 14, Mixing),
      Molecule("N2+", "N₂⁺", "Dinitrogen Cation", 13, Mixing),
      Molecule("N2-", "N₂⁻", "Dinitrogen Anion", 15, Mixing),
      Molecule("C2", "C₂", "Dicarbon", 12, Mixing),
      Molecule("B2", "B₂", "Diboron", 10, Mixing),
      Molecule("He2", "He₂", "Dihelium (Hypothetical)", 4, Standard) ]
  }

  /** An empty orbital slot; every template orbital has capacity 2. */
  function Empty(id: string, name: string, level: int, kind: BondKind, shell: Shell): (o: Orbital)
  {
    Orbital(id, name, level, 2, 0, kind, shell)
  }

  /** The ten empty orbitals for `ordering`: the 1s and 2s orbitals, then the 2p
      orbitals whose bonding part depends on the ordering. */
  function GenerateOrbitals(ordering: Ordering): (r: seq<Orbital>)
    ensures |r| == 10
    ensures forall i :: 0 <= i < |r| ==> r[i].electrons == 0 && r[i].capacity == 2
    ensures forall i, j :: 0 <= i < j < |r| ==> r[i].id != r[j].id
    ensures r[0].id == "s1" && r[0].energyLevel == 5 && r[0].kind == Bonding
    ensures r[1].id == "s1*" && r[1].energyLevel == 15 && r[1].kind == Antibonding
    ensures r[2].id == "s2" && r[2].energyLevel == 25 && r[2].kind == Bonding
    ensures r[3].id == "s2*" && r[3].energyLevel == 35 && r[3].kind == Antibonding
    ensures forall i, j :: 0 <= i < j < |r| ==> r[i].energyLevel <= r[j].energyLevel
  {
    var commonLower := [
      Empty("s1", "σ1s", 5, Bonding, Shell1s),
      Empty("s1*", "σ*1s", 15, Antibonding, Shell1s),
      Empty("s2", "σ2s", 25, Bonding, Shell2s),
      Empty("s2*", "σ*2s", 35, Antibonding, Shell2s)];
    var mixingUpper := [
      Empty("pi2p_a", "π2p", 48, Bonding, Shell2p),
      Empty("pi2p_b", "π2p", 48, Bonding, Shell2p),
      Empty("s2p", "σ2p", 60, Bonding, Shell2p),
      Empty("pi2p*_a", "π*2p", 75, Antibonding, Shell2p),
      Empty("pi2p*_b", "π*2p", 75, Antibonding, Shell2p),
      Empty("s2p*", "σ*2p", 88, Antibonding, Shell2p)];
    var standardUpper := [
      Empty("s2p", "σ2p", 48, Bonding, Shell2p),
      Empty("pi2p_a", "π2p", 60, Bonding, Shell2p),
      Empty("pi2p_b", "π2p", 60, Bonding, Shell2p),
      Empty("pi2p*_a", "π*2p", 75, Antibonding, Shell2p),
      Empty("pi2p*_b", "π*2p", 75, Antibonding, Shell2p),
      Empty("s2p*", "σ*2p", 88, Antibonding, Shell2p)];
    commonLower + (if ordering == Mixing then mixingUpper else standardUpper)
  }

  /** Index of the orbital called `id` in a template (ids are unique there). */
  function TemplateIndex(ordering: Ordering, id: string): (i: int)
  {
    if ordering == Mixing then
      match id
      case "s1" => 0 case "s1*" => 1 case "s2" => 2 case "s2*" => 3
      case "pi2p_a" => 4 case "pi2p_b" => 5 case "s2p" => 6
      case "pi2p*_a" => 7 case "pi2p*_b" => 8 case "s2p*" => 9
      case _ => -1
    else
      match id
      case "s1" => 0 case "s1*" => 1 case "s2" => 2 case "s2*" => 3
      case "s2p" => 4 case "pi2p_a" => 5 case "pi2p_b" => 6
      case "pi2p*_a" => 7 case "pi2p*_b" => 8 case "s2p*" => 9
      case _ => -1
  }

  /** The only place the orderings differ: σ2p and the π2p pair trade levels 48 and 60. */
  lemma PiSigmaCrossover()
    ensures var m := GenerateOrbitals(Mixing);
      m[4].id == "pi2p_a" && m[5].id == "pi2p_b" && m[6].id == "s2p" &&
      m[4].energyLevel == m[5].energyLevel == 48 && m[6].energyLevel == 60
    ensures var s := GenerateOrbitals(Standard);
      s[4].id == "s2p" && s[5].id == "pi2p_a" && s[6].id == "pi2p_b" &&
      s[4].energyLevel == 48 && s[5].energyLevel == s[6].energyLevel == 60
  {
  }

  /** The antibonding 2p orbitals and the lower shells coincide in both orderings. */
  lemma OrderingsShareAntibonding()
    ensures GenerateOrbitals(Mixing)[..4] == GenerateOrbitals(Standard)[..4]
    ensures GenerateOrbitals(Mixing)[7..] == GenerateOrbitals(Standard)[7..]
    ensures var t := GenerateOrbitals(Standard);
      t[7].id == "pi2p*_a" && t[8].id == "pi2p*_b" && t[9].id == "s2p*" &&
      t[7].energyLevel == t[8].energyLevel == 75 && t[9].energyLevel == 88
  {
  }

  /** Both orderings hold the same ids, each with the same bond kind and shell. */
  lemma OrderingsShareIds(id: string)
    ensures var m, s := GenerateOrbitals(Mixing), GenerateOrbitals(Standard);
      var i, j := TemplateIndex(Mixing, id), TemplateIndex(Standard, id);
      (i == -1 <==> j == -1) &&
      (i == -1 ==> forall k :: 0 <= k < 10 ==> m[k].id != id && s[k].id != id) &&
      (i != -1 ==> 0 <= i < 10 && 0 <= j < 10 && m[i].id == id && s[j].id == id &&
                   m[i].kind == s[j].kind && m[i].shell == s[j].shell && m[i].name == s[j].name)
  {
  }

  /** Degeneracy occurs only in the π2p pair and the π*2p pair. */
  lemma DegeneratePairsOnly(ordering: Ordering, i: int, j: int)
    requires 0 <= i < j < 10
    ensures var t := GenerateOrbitals(ordering);
      t[i].energyLevel == t[j].energyLevel <==>
        ((t[i].id, t[j].id) == ("pi2p_a", "pi2p_b") || (t[i].id, t[j].id) == ("pi2p*_a", "pi2p*_b"))
  {
  }

  /** Number of orbitals of the given bond kind among the first `n`. */
  function KindCount(os: seq<Orbital>, kind: BondKind, n: nat): (c: nat)
    requires n <= |os|
    ensures c <= n
  {
    if n == 0 then 0 else KindCount(os, kind, n - 1) + (if os[n - 1].kind == kind then 1 else 0)
  }

  /** Each template has five bonding and five antibonding orbitals and room for 20
      electrons, enough for every species of the catalogue. */
  lemma TemplateHoldsEveryMolecule()
    ensures var t := GenerateOrbitals(Mixing);
      KindCount(t, Bonding, 10) == 5 && KindCount(t, Antibonding, 10) == 5 &&
      CapacityUpTo(t, 10) == 20
    ensures var t := GenerateOrbitals(Standard);
      KindCount(t, Bonding, 10) == 5 && KindCount(t, Antibonding, 10) == 5 &&
      CapacityUpTo(t, 10) == 20
    ensures forall i :: 0 <= i < |Molecules()| ==> Molecules()[i].totalElectrons <= 20
  {
  }

  /** Which ordering each species uses. */
  lemma CatalogOrderings(i: int)
    requires 0 <= i < |Molecules()|
    ensures var m := Molecules()[i];
      m.ordering == Mixing <==> m.id in ["N2", "N2+", "N2-", "C2", "B2"]
    ensures var m := Molecules()[i];
      m.ordering == Standard <==> m.id in ["O2", "O2+", "O2-", "He2"]
  {
  }
}
