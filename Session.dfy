/** The trainer's session state and its handlers (App.tsx): the selected
    molecule, the current orbital list, the undo stack of earlier lists and the
    notice on screen. Each handler is one atomic update of that state. */
module Session {
  import opened Types
  import opened Stats
  import opened Catalog
  import opened Filling
  import opened Rules
  import opened Placement

  /** A list the trainer can show for molecule `m`: the template of its ordering
      with every orbital between empty and full, and no more electrons than the
      molecule has. */
  predicate Admissible(os: seq<Orbital>, m: Molecule)
  {
    SameShape(os, GenerateOrbitals(m.ordering)) && WellFormed(os) &&
    ElectronsPlaced(os) <= m.totalElectrons
  }

  /** The empty template of a molecule's ordering is admissible. */
  lemma TemplateAdmissible(m: Molecule)
    ensures Admissible(GenerateOrbitals(m.ordering), m)
  {
    var t := GenerateOrbitals(m.ordering);
    NoElectrons(t, |t|);
  }

  /** A ground state of the molecule's template that holds no more electrons
      than the molecule has is admissible. */
  lemma FilledAdmissible(m: Molecule, g: seq<Orbital>)
    requires g == GroundState(GenerateOrbitals(m.ordering), m.totalElectrons)
    requires ElectronsPlaced(g) == Min(m.totalElectrons, 20)
    ensures Admissible(g, m)
  {
    var t := GenerateOrbitals(m.ordering);
    forall i | 0 <= i < |g|
      ensures 0 <= g[i].electrons <= g[i].capacity
    {
      assert g[i].capacity == t[i].capacity;
    }
  }

  /** The list auto-fill builds for molecule `m`: the ground state of a fresh
      template, holding as many electrons as the molecule has, up to 20, and
      passing the check whenever the template can hold them all. */
  method AutoFilled(m: Molecule) returns (g: seq<Orbital>)
    ensures g == GroundState(GenerateOrbitals(m.ordering), m.totalElectrons)
    ensures Admissible(g, m)
    ensures ElectronsPlaced(g) == Min(m.totalElectrons, 20)
    ensures m.totalElectrons <= 20 ==> Verdict(g, m.totalElectrons) == Success
  {
    var template := GenerateOrbitals(m.ordering);
    g := FillGroundState(template, m.totalElectrons);
    FilledAdmissible(m, g);
    if m.totalElectrons <= 20 {
      GroundStatePasses(template, m.totalElectrons);
    }
  }

  class Trainer {
    var molecule: Molecule
    var orbitals: seq<Orbital>
    var history: seq<seq<Orbital>>
    var feedback: Feedback

    /** The current list and every snapshot on the undo stack are admissible
        for the selected molecule. */
    ghost predicate Valid()
      reads this
    {
      Admissible(orbitals, molecule) &&
      forall k :: 0 <= k < |history| ==> Admissible(history[k], molecule)
    }

    /** The trainer opens on the first species of the catalogue, empty. */
    constructor ()
      ensures Valid()
      ensures molecule == Molecules()[0] && molecule.id == "O2"
      ensures orbitals == GenerateOrbitals(molecule.ordering)
      ensures history == [] && feedback == NoFeedback
    {
      TemplateAdmissible(Molecules()[0]);
      molecule := Molecules()[0];
      orbitals := GenerateOrbitals(Molecules()[0].ordering);
      history := [];
      feedback := NoFeedback;
    }

    /** Selecting a molecule resets the list to its empty template, clears the
        undo stack and the notice; selecting the molecule already shown changes
        nothing. */
    method SelectMolecule(m: Molecule)
      requires Valid()
      modifies this
      ensures Valid()
      ensures m == old(molecule) ==>
        molecule == old(molecule) && orbitals == old(orbitals) &&
        history == old(history) && feedback == old(feedback)
      ensures m != old(molecule) ==>
        molecule == m && orbitals == GenerateOrbitals(m.ordering) &&
        history == [] && feedback == NoFeedback
    {
      if m != molecule {
        molecule := m;
        orbitals := GenerateOrbitals(m.ordering);
        history := [];
        feedback := NoFeedback;
        TemplateAdmissible(m);
      }
    }

    /** Undo restores the most recent snapshot and drops it from the stack; with
        an empty stack it does nothing. */
    method Undo()
      requires Valid()
      modifies this
      ensures Valid()
      ensures molecule == old(molecule)
      ensures old(history) == [] ==>
        orbitals == old(orbitals) && history == [] && feedback == old(feedback)
      ensures old(history) != [] ==>
        orbitals == old(history)[|old(history)| - 1] &&
        history == old(history)[..|old(history)| - 1] && feedback == NoFeedback
    {
      if |history| > 0 {
        orbitals := history[|history| - 1];
        history := history[..|history| - 1];
        feedback := NoFeedback;
      }
    }

    /** A click on the orbital called `id`: an unknown id changes nothing, a
        refused click only shows the budget notice, and any other click replaces
        the list, pushes the previous one and clears the notice. */
    method Click(id: string)
      requires Valid()
      modifies this
      ensures Valid()
      ensures molecule == old(molecule)
      ensures ClickStep(old(orbitals), molecule.totalElectrons, id) == Ignored ==>
        orbitals == old(orbitals) && history == old(history) && feedback == old(feedback)
      ensures ClickStep(old(orbitals), molecule.totalElectrons, id) == Refused ==>
        orbitals == old(orbitals) && history == old(history) && feedback == BudgetExhausted
      ensures ClickStep(old(orbitals), molecule.totalElectrons, id).Changed? ==>
        orbitals == ClickStep(old(orbitals), molecule.totalElectrons, id).orbitals &&
        history == old(history) + [old(orbitals)] && feedback == NoFeedback
    {
      var outcome := ClickStep(orbitals, molecule.totalElectrons, id);
      match outcome {
        case Ignored =>
        case Refused =>
          feedback := BudgetExhausted;
        case Changed(after) =>
          ClickKeepsShape(orbitals, GenerateOrbitals(molecule.ordering), molecule.totalElectrons, id);
          ClickKeepsWellFormed(orbitals, molecule.totalElectrons, id);
          ClickWithinBudget(orbitals, molecule.totalElectrons, id);
          history := history + [orbitals];
          orbitals := after;
          feedback := NoFeedback;
      }
    }

    /** Auto-fill replaces the list by the ground state of a fresh template, so
        the result does not depend on the current list; it places as many
        electrons as the molecule has, up to the template's 20, and the previous
        list goes on the undo stack. */
    method AutoFill()
      requires Valid()
      modifies this
      ensures Valid()
      ensures molecule == old(molecule)
      ensures orbitals == GroundState(GenerateOrbitals(molecule.ordering), molecule.totalElectrons)
      ensures ElectronsPlaced(orbitals) == Min(molecule.totalElectrons, 20)
      ensures molecule.totalElectrons <= 20 ==> Verdict(orbitals, molecule.totalElectrons) == Success
      ensures history == old(history) + [old(orbitals)] && feedback == NoFeedback
    {
      var filled := AutoFilled(molecule);
      history := history + [orbitals];
      orbitals := filled;
      feedback := NoFeedback;
    }

    /** The check shows its verdict and changes nothing else. */
    method Check()
      requires Valid()
      modifies this
      ensures Valid()
      ensures molecule == old(molecule) && orbitals == old(orbitals) && history == old(history)
      ensures feedback == Verdict(orbitals, molecule.totalElectrons)
    {
      feedback := CheckConfiguration(orbitals, molecule.totalElectrons);
    }

    /** A hint shows the text the language model returned for the current state;
        the text is an input here because the call leaves the program. */
    method ShowHint(text: string)
      requires Valid()
      modifies this
      ensures Valid()
      ensures molecule == old(molecule) && orbitals == old(orbitals) && history == old(history)
      ensures feedback == Hint(text)
    {
      feedback := Hint(text);
    }
  }

  /** Undo right after a state-changing click gives back the list and the stack
      exactly as they were before the click. */
  method ClickThenUndo(t: Trainer, id: string)
    requires t.Valid()
    requires ClickStep(t.orbitals, t.molecule.totalElectrons, id).Changed?
    modifies t
    ensures t.Valid()
    ensures t.molecule == old(t.molecule) && t.orbitals == old(t.orbitals) && t.history == old(t.history)
  {
    t.Click(id);
    t.Undo();
  }

  /** Undo right after auto-fill gives back the list and the stack as they were. */
  method AutoFillThenUndo(t: Trainer)
    requires t.Valid()
    modifies t
    ensures t.Valid()
    ensures t.molecule == old(t.molecule) && t.orbitals == old(t.orbitals) && t.history == old(t.history)
  {
    t.AutoFill();
    t.Undo();
  }

  /** Selecting the same molecule twice leaves the state the first selection made. */
  method SelectTwice(t: Trainer, m: Molecule)
    requires t.Valid()
    modifies t
    ensures t.Valid()
    ensures t.molecule == m
    ensures m != old(t.molecule) ==>
      t.orbitals == GenerateOrbitals(m.ordering) && t.history == [] && t.feedback == NoFeedback
    ensures m == old(t.molecule) ==>
      t.orbitals == old(t.orbitals) && t.history == old(t.history) && t.feedback == old(t.feedback)
  {
    t.SelectMolecule(m);
    t.SelectMolecule(m);
  }
}
