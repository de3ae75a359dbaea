/** Statistics derived from a configuration on every render of the trainer:
    electrons placed, bonding and antibonding sums, bond order, unpaired
    electrons, magnetism and the stability label (App.tsx). */
module Stats {
  import opened Types

  /** Electrons held by the first `n` orbitals. */
  function ElectronsUpTo(os: seq<Orbital>, n: nat): (r: int)
    requires n <= |os|
    ensures (forall i :: 0 <= i < n ==> 0 <= os[i].electrons <= os[i].capacity) ==>
              0 <= r <= CapacityUpTo(os, n)
  {
    if n == 0 then 0 else ElectronsUpTo(os, n - 1) + os[n - 1].electrons
  }

  /** Total number of electrons placed. */
  function ElectronsPlaced(os: seq<Orbital>): (r: int)
    ensures WellFormed(os) ==> 0 <= r <= CapacityUpTo(os, |os|)
  {
    ElectronsUpTo(os, |os|)
  }

  /** Electrons held by orbitals of bond kind `kind` among the first `n`. */
  function KindElectrons(os: seq<Orbital>, kind: BondKind, n: nat): int
    requires n <= |os|
  {
    if n == 0 then 0
    else KindElectrons(os, kind, n - 1) + (if os[n - 1].kind == kind then os[n - 1].electrons else 0)
  }

  function BondingElectrons(os: seq<Orbital>): int { KindElectrons(os, Bonding, |os|) }

  function AntibondingElectrons(os: seq<Orbital>): int { KindElectrons(os, Antibonding, |os|) }

  /** Half the excess of bonding over antibonding electrons, floored at zero;
      halves are kept. */
  function BondOrder(os: seq<Orbital>): (r: real)
    ensures r >= 0.0
    ensures r == 0.0 <==> BondingElectrons(os) <= AntibondingElectrons(os)
    ensures r > 0.0 ==> 2.0 * r == (BondingElectrons(os) - AntibondingElectrons(os)) as real
  {
    var d := (BondingElectrons(os) - AntibondingElectrons(os)) as real / 2.0;
    if d < 0.0 then 0.0 else d
  }

  /** Number of orbitals among the first `n` that hold exactly one electron. */
  function UnpairedUpTo(os: seq<Orbital>, n: nat): (c: nat)
    requires n <= |os|
    ensures c <= n
    ensures c > 0 <==> exists i :: 0 <= i < n && os[i].electrons == 1
  {
    if n == 0 then 0 else UnpairedUpTo(os, n - 1) + (if os[n - 1].electrons == 1 then 1 else 0)
  }

  function UnpairedElectrons(os: seq<Orbital>): (c: nat)
    ensures c <= |os|
  {
    UnpairedUpTo(os, |os|)
  }

  /** A configuration is paramagnetic exactly when some orbital is singly occupied. */
  function IsParamagnetic(os: seq<Orbital>): (p: bool)
    ensures p <==> exists i :: 0 <= i < |os| && os[i].electrons == 1
  {
    UnpairedElectrons(os) > 0
  }

  /** Every electron is in a bonding, antibonding or nonbonding orbital. */
  lemma {:induction false} PlacedSplitsByKind(os: seq<Orbital>, n: nat)
    requires n <= |os|
    ensures ElectronsUpTo(os, n) ==
      KindElectrons(os, Bonding, n) + KindElectrons(os, Antibonding, n) + KindElectrons(os, Nonbonding, n)
  {
    if n > 0 {
      PlacedSplitsByKind(os, n - 1);
    }
  }

  /** A configuration with every orbital empty holds no electrons. */
  lemma {:induction false} NoElectrons(os: seq<Orbital>, n: nat)
    requires n <= |os|
    requires forall i :: 0 <= i < n ==> os[i].electrons == 0
    ensures ElectronsUpTo(os, n) == 0
  {
    if n > 0 {
      NoElectrons(os, n - 1);
    }
  }

  /** Changing one orbital changes the electrons placed by exactly its difference. */
  lemma {:induction false} ElectronsAfterSet(os: seq<Orbital>, i: nat, o: Orbital, n: nat)
    requires i < |os| && n <= |os|
    ensures ElectronsUpTo(os[i := o], n) ==
      ElectronsUpTo(os, n) + (if i < n then o.electrons - os[i].electrons else 0)
  {
    if n > 0 {
      ElectronsAfterSet(os, i, o, n - 1);
    }
  }

  /** The five stability labels, from weakest to strongest. */
  datatype Stability = Unstable | HighlyUnstable | WeakStability | Stable | HighlyStable

  function Rank(s: Stability): nat
  {
    match s
    case Unstable => 0
    case HighlyUnstable => 1
    case WeakStability => 2
    case Stable => 3
    case HighlyStable => 4
  }

  /** The label shown for a bond order. */
  function StabilityOf(bo: real): Stability
  {
    if bo <= 0.0 then Unstable
    else if bo <= 0.5 then HighlyUnstable
    else if bo <= 1.5 then WeakStability
    else if bo < 2.5 then Stable
    else HighlyStable
  }

  /** The same labels, read off the integer bonding-minus-antibonding difference. */
  function StabilityOfDifference(d: int): Stability
  {
    if d <= 0 then Unstable
    else if d == 1 then HighlyUnstable
    else if d <= 3 then WeakStability
    else if d == 4 then Stable
    else HighlyStable
  }

  /** The label of a configuration depends only on its electron difference, with
      boundaries 0, 1, 3 and 4: a bond order of exactly 2.5 is already highly stable. */
  lemma StabilityByDifference(os: seq<Orbital>)
    ensures StabilityOf(BondOrder(os)) ==
      StabilityOfDifference(BondingElectrons(os) - AntibondingElectrons(os))
  {
  }

  /** A larger bond order never gets a weaker label. */
  lemma StabilityMonotone(x: real, y: real)
    requires x <= y
    ensures Rank(StabilityOf(x)) <= Rank(StabilityOf(y))
  {
  }
}
