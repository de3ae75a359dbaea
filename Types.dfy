/** Records of the trainer: an orbital slot, a molecule of the catalogue, and
    the notice shown to the student after an interaction. */
module Types {

  /** Which of the two fixed 2p energy orderings a molecule uses. */
  datatype Ordering = Standard | Mixing

  /** Sign of an orbital's contribution to the bond order. */
  datatype BondKind = Bonding | Antibonding | Nonbonding

  /** Shell an orbital derives from; informational only. */
  datatype Shell = Shell1s | Shell2s | Shell2p

  /** One molecular orbital slot. Orbitals with equal `energyLevel` are degenerate. */
  datatype Orbital = Orbital(
    id: string,
    name: string,
    energyLevel: int,
    capacity: int,
    electrons: int,
    kind: BondKind,
    shell: Shell)

  /** One species of the catalogue. */
  datatype Molecule = Molecule(
    id: string,
    formula: string,
    name: string,
    totalElectrons: nat,
    ordering: Ordering)

  /** The notice the trainer shows; message texts are not modelled, only their kind
      and, for a count mismatch, the two numbers the message quotes. */
  datatype Feedback =
    | NoFeedback
    | CountMismatch(expected: int, placed: int)
    | Aufbau
    | Hund
    | Success
    | BudgetExhausted
    | Hint(text: string)

  /** Pauli: every orbital holds between 0 and its capacity electrons. */
  predicate WellFormed(os: seq<Orbital>)
  {
    forall i :: 0 <= i < |os| ==> 0 <= os[i].electrons <= os[i].capacity
  }

  /** `os` is `template` with possibly different electron counts and nothing else changed. */
  predicate SameShape(os: seq<Orbital>, template: seq<Orbital>)
  {
    |os| == |template| &&
    forall i :: 0 <= i < |os| ==> os[i] == template[i].(electrons := os[i].electrons)
  }

  /** Sum of the capacities of the first `n` orbitals. */
  function CapacityUpTo(os: seq<Orbital>, n: nat): int
    requires n <= |os|
  {
    if n == 0 then 0 else CapacityUpTo(os, n - 1) + os[n - 1].capacity
  }

  function Min(a: int, b: int): int { if a <= b then a else b }

  function Max(a: int, b: int): int { if a <= b then b else a }
}
