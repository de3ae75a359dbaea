/** The effect of clicking an orbital (App.tsx, handleOrbitalClick): the
    occupancy of the clicked orbital cycles 0 → 1 → 2 → 0 while electrons remain
    to be placed; once the budget is spent, a click empties a non-empty orbital
    and is refused on an empty one. */
module Placement {
  import opened Types
  import opened Stats

  /** Position of the first orbital called `id` at or after `from`, or -1. */
  function FindFrom(os: seq<Orbital>, id: string, from: nat): (r: int)
    requires from <= |os|
    ensures r == -1 || from <= r < |os|
    ensures r == -1 <==> forall i :: from <= i < |os| ==> os[i].id != id
    ensures r != -1 ==> os[r].id == id && forall i :: from <= i < r ==> os[i].id != id
    decreases |os| - from
  {
    if from == |os| then -1
    else if os[from].id == id then from
    else FindFrom(os, id, from + 1)
  }

  /** Position of the first orbital called `id`, or -1 when there is none. */
  function FindIndex(os: seq<Orbital>, id: string): (r: int)
    ensures -1 <= r < |os|
    ensures r == -1 <==> forall i :: 0 <= i < |os| ==> os[i].id != id
    ensures r != -1 ==> os[r].id == id && forall i :: 0 <= i < r ==> os[i].id != id
  {
    FindFrom(os, id, 0)
  }

  /** What a click does: nothing for an unknown id, a budget error, or a new list. */
  datatype ClickOutcome = Ignored | Refused | Changed(orbitals: seq<Orbital>)

  /** Electrons the clicked orbital holds after a state-changing click, given its
      current count, its capacity and whether electrons remain to be placed. */
  function NextOccupancy(electrons: int, capacity: int, canAdd: bool): int
  {
    if electrons < capacity && canAdd then electrons + 1 else 0
  }

  /** A click on the orbital called `id` for a molecule with `total` electrons. */
  function ClickStep(os: seq<Orbital>, total: int, id: string): (c: ClickOutcome)
  {
    var i := FindIndex(os, id);
    if i == -1 then Ignored
    else
      var o := os[i];
      var canAdd := ElectronsPlaced(os) < total;
      if o.electrons < o.capacity && !canAdd && o.electrons <= 0 then Refused
      else Changed(os[i := o.(electrons := NextOccupancy(o.electrons, o.capacity, canAdd))])
  }

  /** A click is ignored exactly when no orbital carries the id, and refused
      exactly when the budget is spent and the clicked orbital is empty (and not
      full, which a well-formed orbital of capacity 2 never is). */
  lemma ClickOutcomes(os: seq<Orbital>, total: int, id: string)
    ensures ClickStep(os, total, id) == Ignored <==> forall i :: 0 <= i < |os| ==> os[i].id != id
    ensures ClickStep(os, total, id) == Refused <==>
      exists i :: 0 <= i < |os| && os[i].id == id && (forall j :: 0 <= j < i ==> os[j].id != id) &&
        ElectronsPlaced(os) >= total && os[i].electrons <= 0 && os[i].electrons < os[i].capacity
  {
  }

  /** A state-changing click alters only the first orbital called `id`, and only
      its electron count, which becomes one more when it had room and electrons
      remained, and zero otherwise. */
  lemma ClickChangesOnlyTarget(os: seq<Orbital>, total: int, id: string)
    requires ClickStep(os, total, id).Changed?
    ensures var after, i := ClickStep(os, total, id).orbitals, FindIndex(os, id);
      0 <= i < |os| && os[i].id == id && |after| == |os| &&
      (forall j :: 0 <= j < |os| && j != i ==> after[j] == os[j]) &&
      after[i] == os[i].(electrons := after[i].electrons) &&
      (os[i].electrons < os[i].capacity && ElectronsPlaced(os) < total ==>
        after[i].electrons == os[i].electrons + 1) &&
      (os[i].electrons < os[i].capacity && ElectronsPlaced(os) >= total ==>
        os[i].electrons > 0 && after[i].electrons == 0) &&
      (os[i].electrons >= os[i].capacity ==> after[i].electrons == 0)
  {
  }

  /** Clicking keeps every orbital between empty and full. */
  lemma ClickKeepsWellFormed(os: seq<Orbital>, total: int, id: string)
    requires WellFormed(os)
    requires ClickStep(os, total, id).Changed?
    ensures WellFormed(ClickStep(os, total, id).orbitals)
  {
    var after, i := ClickStep(os, total, id).orbitals, FindIndex(os, id);
    forall j | 0 <= j < |after|
      ensures 0 <= after[j].electrons <= after[j].capacity
    {
      if j != i {
        assert after[j] == os[j];
      }
    }
  }

  /** A click changes the electrons placed by the change in the clicked orbital:
      one more when adding, fewer otherwise. */
  lemma ClickPlaced(os: seq<Orbital>, total: int, id: string)
    requires ClickStep(os, total, id).Changed?
    ensures var after, i := ClickStep(os, total, id).orbitals, FindIndex(os, id);
      ElectronsPlaced(after) == ElectronsPlaced(os) + after[i].electrons - os[i].electrons
  {
    var after, i := ClickStep(os, total, id).orbitals, FindIndex(os, id);
    ElectronsAfterSet(os, i, after[i], |os|);
  }

  /** A click never lifts the electrons placed above the molecule's total when
      they were within it before. */
  lemma ClickWithinBudget(os: seq<Orbital>, total: int, id: string)
    requires WellFormed(os) && ElectronsPlaced(os) <= total
    requires ClickStep(os, total, id).Changed?
    ensures ElectronsPlaced(ClickStep(os, total, id).orbitals) <= total
  {
    ClickPlaced(os, total, id);
  }

  /** With two electrons still to place, three clicks on an empty orbital of
      capacity 2 fill it singly, pair it, and empty it again: the list is back
      where it started. */
  lemma ThreeClicksCycle(os: seq<Orbital>, total: int, id: string)
    requires FindIndex(os, id) != -1
    requires os[FindIndex(os, id)].electrons == 0 && os[FindIndex(os, id)].capacity == 2
    requires ElectronsPlaced(os) + 2 <= total
    ensures var c1 := ClickStep(os, total, id);
      c1.Changed? &&
      var c2 := ClickStep(c1.orbitals, total, id);
      c2.Changed? &&
      var c3 := ClickStep(c2.orbitals, total, id);
      c3 == Changed(os)
  {
    var i := FindIndex(os, id);
    var s1 := os[i := os[i].(electrons := 1)];
    ClickPlaced(os, total, id);
    assert FindIndex(s1, id) == i by {
      assert forall j :: 0 <= j < i ==> s1[j] == os[j];
    }
    var s2 := s1[i := s1[i].(electrons := 2)];
    ClickPlaced(s1, total, id);
    assert FindIndex(s2, id) == i by {
      assert forall j :: 0 <= j < i ==> s2[j] == os[j];
    }
    assert s2[i := s2[i].(electrons := 0)] == os;
  }

  /** Once every electron is placed, a click on a singly occupied orbital of
      capacity 2 empties it instead of pairing it. */
  lemma ExhaustedBudgetEmpties(os: seq<Orbital>, total: int, id: string)
    requires FindIndex(os, id) != -1
    requires os[FindIndex(os, id)].electrons == 1 && os[FindIndex(os, id)].capacity == 2
    requires ElectronsPlaced(os) >= total
    ensures ClickStep(os, total, id).Changed?
    ensures var i := FindIndex(os, id);
      ClickStep(os, total, id).orbitals == os[i := os[i].(electrons := 0)]
  {
  }

  /** A click changes electron counts only: the list keeps the template's ids,
      levels, kinds and capacities. */
  lemma ClickKeepsShape(os: seq<Orbital>, template: seq<Orbital>, total: int, id: string)
    requires SameShape(os, template)
    requires ClickStep(os, total, id).Changed?
    ensures SameShape(ClickStep(os, total, id).orbitals, template)
  {
    var after, i := ClickStep(os, total, id).orbitals, FindIndex(os, id);
    forall j | 0 <= j < |after|
      ensures after[j] == template[j].(electrons := after[j].electrons)
    {
      if j != i {
        assert after[j] == os[j];
      }
    }
  }
}
