# Orbital Master — molecular-orbital filling trainer, modelled in Dafny

The trainer shows the ten molecular orbitals of a homonuclear diatomic species
built from first- and second-row atoms (σ1s, σ*1s, σ2s, σ*2s, then the 2p set).
The student places electrons by clicking orbitals. An undo stack records every
change. "Auto-fill" installs the ground state, filling energy groups in
ascending order, singles before pairs. "Check" first compares the electron
count with the molecule's total, then scans the energy groups for the first
violation of the Aufbau principle or of Hund's rule.

The model covers:

- the catalogue of nine species and the two orbital templates (`constants.ts`);
- the derived statistics and the five-tier stability label (`App.tsx`);
- the click, undo, molecule-switch, auto-fill, check and hint handlers (`App.tsx`).

Modules:

| file | module | models |
|---|---|---|
| Types.dfy | `Types` | the orbital and molecule records (`types.ts`) and the notice shown to the student |
| Catalog.dfy | `Catalog` | `MOLECULES` and `generateOrbitals` |
| Stats.dfy | `Stats` | electrons placed, bonding/antibonding sums, bond order, unpaired count, paramagnetism, stability label |
| Energy.dfy | `Energy` | grouping orbitals by energy level: sorted distinct levels, group sizes, ranks, group sums |
| Filling.dfy | `Filling` | auto-fill: a closed-form ground state and the two-pass array algorithm proved equal to it |
| Rules.dfy | `Rules` | the check: a reference scan function and the loop with its `lowerLevelFull` flag |
| Species.dfy | `Species` | the ground states auto-fill produces for O₂, N₂, B₂ and He₂, with their statistics |
| Placement.dfy | `Placement` | the effect of one click on the orbital list |
| Session.dfy | `Session` | class `Trainer`, holding the molecule, orbitals, history and notice, with one method per handler |

### The ground state

Auto-fill has a closed form. For an orbital at energy level `e`:

- let `k` be the size of its group and `p` its rank within the group, in template order;
- let `r` be the electrons left for the group after every lower group is full,
  clamped to `0..2k`;
- the orbital then receives one electron if `p < r`, and a second if `p < r − k`.

`Filling.FillGroundState` runs the source's algorithm on an array and is proved
to produce exactly `Filling.GroundState`. The algorithm walks the levels in
ascending order, with a singles pass and then a pairs pass over each group,
while electrons remain. The properties of auto-fill are proved about
`GroundState`: it passes the check, and the literal states of the four species.

### Where the model follows the code rather than the intended behaviour

- **Selecting the molecule already shown changes nothing.** The menu calls
  `setCurrentMolecule` with the same catalogue object. React bails out of an
  update to an identical value, and the reset effect (App.tsx:87-92) depends
  only on the molecule, so it does not run. A design that resets on every
  selection would clear orbitals and history here.
  `Session.Trainer.SelectMolecule` models the code. Selecting twice gives the
  same state either way.
- **The check is the rule-based scan only** (App.tsx:187-238). No exact
  comparison against the ground state exists in this code. States that break
  neither rule but differ from the ground state pass. For example, O₂⁻ with
  π*2p_a¹ π*2p_b² passes, although auto-fill gives π*2p_a² π*2p_b¹.

## Model

| member | source | states |
|---|---|---|
| Catalog.Molecules | constants.ts:3-13 | nine species with distinct ids, the first is O₂, and none has more than 17 electrons |
| Catalog.CatalogOrderings | constants.ts:3-13 | N₂, N₂⁺, N₂⁻, C₂ and B₂ use the mixing ordering; O₂, O₂⁺, O₂⁻ and He₂ use the standard one |
| Catalog.GenerateOrbitals | constants.ts:16-44 | ten empty orbitals of capacity 2 with distinct ids, σ1s, σ*1s, σ2s, σ*2s first at levels 5, 15, 25, 35, levels non-decreasing |
| Catalog.PiSigmaCrossover | constants.ts:24-38 | mixing puts both π2p at 48 below σ2p at 60; standard puts σ2p at 48 below both π2p at 60 |
| Catalog.OrderingsShareAntibonding | constants.ts:17-41 | the two templates agree on the first four orbitals and on π*2p_a, π*2p_b at 75 and σ*2p at 88 |
| Catalog.OrderingsShareIds | constants.ts:17-42 | both orderings hold the same ids, each with the same bond kind, shell and name |
| Catalog.DegeneratePairsOnly | constants.ts:18-41 | two orbitals share a level exactly when they are the π2p pair or the π*2p pair |
| Catalog.TemplateHoldsEveryMolecule | constants.ts:3-42 | each template has five bonding and five antibonding orbitals, capacity 20, at least every species' total |
| Stats.ElectronsPlaced | App.tsx:29 | the sum of all electrons is between 0 and the total capacity when every orbital is within its capacity |
| Stats.PlacedSplitsByKind | App.tsx:29-31 | electrons placed are the bonding plus antibonding plus nonbonding sums |
| Stats.BondOrder | App.tsx:32 | never negative, zero exactly when bonding ≤ antibonding, otherwise half the difference with halves kept |
| Stats.UnpairedUpTo | App.tsx:34-37 | the count of singly occupied orbitals is positive exactly when one exists |
| Stats.IsParamagnetic | App.tsx:39 | paramagnetic exactly when some orbital holds one electron |
| Stats.StabilityByDifference | App.tsx:42-83 | the label is fixed by bonding − antibonding with boundaries 0, 1, 3, 4, so bond order 2.5 is already highly stable |
| Stats.StabilityMonotone | App.tsx:42-83 | a larger bond order never gets a weaker label |
| Stats.ElectronsAfterSet | App.tsx:120-141 | replacing one orbital changes the electrons placed by exactly its difference |
| Energy.Levels | App.tsx:154-160 | the distinct energy levels, strictly ascending, exactly those some orbital has |
| Energy.RankInGroup | App.tsx:154-158 | an orbital's rank among earlier orbitals of its level is below the size of the level's group |
| Energy.SameLevelsSameGroups | App.tsx:199-205 | grouping depends on energy levels only, not on electrons |
| Filling.FillInRun | App.tsx:162-180 | in a group occupying positions lo..hi, the orbital at offset p gets a single when p < r and a pair when p < r − k |
| Filling.SinglesPass | App.tsx:164-170 | the first pass gives one electron to each orbital of the group in order while electrons remain, and the budget drops by what it placed |
| Filling.PairsPass | App.tsx:171-179 | the second pass pairs each singly occupied orbital of the group in order while electrons remain, and the budget drops by what it placed |
| Filling.FillGroup | App.tsx:162-180 | both passes over one group leave every group up to it filled as the ground state, with the budget reduced by twice the orbitals filled so far |
| Filling.FillAllGroups | App.tsx:162-180 | walking every group in ascending order fills the whole list as the ground state and leaves max(total − 2·orbitals, 0) electrons unplaced |
| Filling.FillGroundState | App.tsx:149-180 | auto-fill from an empty template yields exactly the closed-form ground state and places min(total, 2·orbitals) electrons |
| Rules.ScanFindsFirstViolation | App.tsx:205-232 | the scan reports success exactly when no group breaks a rule, Aufbau or Hund exactly at the first offending group, Aufbau before Hund |
| Rules.CountMismatchFirst | App.tsx:188-196 | a wrong electron count is reported with both numbers before any rule; with the right count only success, Aufbau or Hund |
| Rules.CheckConfiguration | App.tsx:187-238 | the loop with its lowerLevelFull flag and early returns reports exactly the verdict |
| Rules.GroundStateGroupSum | App.tsx:162-180 | the ground state holds exactly the group's budget in each energy group |
| Rules.GroundStateClean | App.tsx:208-232 | in the ground state no group breaks Aufbau (the lower group is full whenever a group holds electrons) or Hund (no pair beside an empty orbital) |
| Rules.GroundStatePasses | App.tsx:149-238 | any auto-fill result holding the molecule's electron count passes the check |
| Species.StandardGrouping | constants.ts:35-42 | in the standard template the groups are single orbitals except π2p and π*2p, with their sizes and ranks |
| Species.MixingGrouping | constants.ts:25-32 | in the mixing template the groups are single orbitals except π2p and π*2p, with their sizes and ranks |
| Species.OxygenFillLower | App.tsx:162-180 | O₂ ground state, orbitals 0 to 4: all paired |
| Species.OxygenFillUpper | App.tsx:162-180 | O₂ ground state, orbitals 5 to 9: π2p paired, one electron in each π*2p, σ*2p empty |
| Species.NitrogenFillLower | App.tsx:162-180 | N₂ ground state, orbitals 0 to 4: all paired |
| Species.NitrogenFillUpper | App.tsx:162-180 | N₂ ground state, orbitals 5 to 9: π2p_b and σ2p paired, antibonding 2p empty |
| Species.BoronFillLower | App.tsx:162-180 | B₂ ground state, orbitals 0 to 4: 1s and 2s paired, π2p_a singly occupied |
| Species.BoronFillUpper | App.tsx:162-180 | B₂ ground state, orbitals 5 to 9: π2p_b singly occupied, the rest empty |
| Species.HeliumFillLower | App.tsx:162-180 | He₂ ground state, orbitals 0 to 4: σ1s and σ*1s paired, the rest empty |
| Species.HeliumFillUpper | App.tsx:162-180 | He₂ ground state, orbitals 5 to 9: empty |
| Species.Tally | App.tsx:29-39 | on the ten-orbital template, placed, bonding, antibonding and unpaired counts as sums over the ten orbitals |
| Species.OxygenCounts | App.tsx:29-83 | a configuration filled like O₂'s ground state has 16 placed, bonding 10, antibonding 6, bond order 2, 2 unpaired, paramagnetic, stable |
| Species.NitrogenCounts | App.tsx:29-83 | a configuration filled like N₂'s ground state has 14 placed, bonding 10, antibonding 4, bond order 3, none unpaired, highly stable |
| Species.BoronCounts | App.tsx:29-83 | a configuration filled like B₂'s ground state has 10 placed, bonding 6, antibonding 4, bond order 1, 2 unpaired, paramagnetic, weak |
| Species.HeliumCounts | App.tsx:29-83 | a configuration filled like He₂'s ground state has 4 placed, bonding 2, antibonding 2, bond order 0, none unpaired, unstable |
| Species.OxygenGroundState | App.tsx:149-185 | auto-fill of O₂ places 16 electrons: bonding 10, antibonding 6, bond order 2, two unpaired, paramagnetic, stable |
| Species.NitrogenGroundState | App.tsx:149-185 | auto-fill of N₂ places 14 electrons: bond order 3, no unpaired electron, highly stable |
| Species.BoronGroundState | App.tsx:149-185 | auto-fill of B₂ places 10 electrons: bond order 1, two unpaired, paramagnetic, weak stability |
| Species.HeliumGroundState | App.tsx:149-185 | auto-fill of He₂ places 4 electrons: bond order 0, none unpaired, unstable |
| Species.OxygenPasses | App.tsx:187-238 | O₂ is catalogue entry 0 with 16 electrons and the standard ordering, and its auto-fill passes the check |
| Species.NitrogenPasses | App.tsx:187-238 | N₂ is catalogue entry 3 with 14 electrons and the mixing ordering, and its auto-fill passes the check |
| Species.BoronPasses | App.tsx:187-238 | B₂ is catalogue entry 7 with 10 electrons and the mixing ordering, and its auto-fill passes the check |
| Species.HeliumPasses | App.tsx:187-238 | He₂ is catalogue entry 8 with 4 electrons and the standard ordering, and its auto-fill passes the check |
| Placement.FindIndex | App.tsx:109 | −1 exactly when no orbital has the id, otherwise the first position holding it |
| Placement.ClickOutcomes | App.tsx:108-138 | a click is ignored exactly for an unknown id, and refused exactly when the budget is spent and the clicked orbital is empty and not full |
| Placement.ClickChangesOnlyTarget | App.tsx:113-146 | a state-changing click alters only the clicked orbital's electrons: +1 when under capacity with budget left, 0 when the budget is spent, 0 when full |
| Placement.ClickKeepsWellFormed | App.tsx:118-146 | clicking keeps every orbital between 0 and its capacity |
| Placement.ClickKeepsShape | App.tsx:120-141 | a click keeps ids, levels, kinds and capacities |
| Placement.ClickPlaced | App.tsx:115-141 | the electrons placed change by exactly the clicked orbital's change |
| Placement.ClickWithinBudget | App.tsx:115-141 | a click never lifts the electrons placed above the total when they were within it |
| Placement.ThreeClicksCycle | App.tsx:117-146 | with two electrons to spare, three clicks on an empty orbital go 0 → 1 → 2 → 0 and restore the list |
| Placement.ExhaustedBudgetEmpties | App.tsx:126-131 | once the budget is spent, a click on a singly occupied orbital empties it |
| Session.TemplateAdmissible | constants.ts:16-44 | a fresh template is a valid state for any molecule |
| Session.FilledAdmissible | App.tsx:149-185 | the auto-fill result is a valid state for its molecule |
| Session.AutoFilled | App.tsx:149-180 | builds the ground state of a fresh template, placing min(total, 20) electrons, and it passes the check whenever total ≤ 20 |
| Session.Trainer.constructor | App.tsx:22-25 | the trainer opens on O₂'s empty template with no history and no notice |
| Session.Trainer.SelectMolecule | App.tsx:87-92 | a different molecule resets orbitals to its template, empties history and clears the notice; the same molecule changes nothing |
| Session.Trainer.Undo | App.tsx:94-105 | non-empty history: restores the last snapshot, drops it and clears the notice; empty history: nothing changes |
| Session.Trainer.Click | App.tsx:108-147 | ignored clicks change nothing, refused ones only set the budget notice, others install the new list, push the old one and clear the notice |
| Session.Trainer.AutoFill | App.tsx:149-185 | the list becomes the ground state of a fresh template, whatever it was, with min(total, 20) electrons; the old list is pushed; the result passes the check |
| Session.Trainer.Check | App.tsx:187-238 | the notice becomes the verdict; molecule, orbitals and history are unchanged |
| Session.Trainer.ShowHint | App.tsx:240-254 | the notice becomes the hint text; molecule, orbitals and history are unchanged |
| Session.ClickThenUndo | App.tsx:94-147 | undo right after a state-changing click restores the exact prior list and history |
| Session.AutoFillThenUndo | App.tsx:94-185 | undo right after auto-fill restores the exact prior list and history |
| Session.SelectTwice | App.tsx:87-92 | selecting the same molecule twice leaves the state the first selection made |

## Left out

- Sound (`audioService`): every handler's `audioService.*` call is dropped; it only plays tones.
- The hint request to a language model (`getConfigurationHint`): the returned text is an input of `Session.Trainer.ShowHint`. The model does not capture the `SimulationState` it is sent or the fallback strings.
- The `isLoadingHint` flag, message texts and the colours, gradients and progress-bar width of the stability display. Only the label tier and the numbers a count-mismatch message quotes are kept.
- Rendering (JSX, `MODiagram`, `OrbitalRenderer`) and every pixel concern.
- Object identity and aliasing: the history stores references to earlier arrays, and auto-fill mutates fresh objects found by id. The model uses values, and auto-fill visits the group's positions directly. Ids are unique in a template, so `find` by id reaches the same orbital.
- JavaScript numbers: electron counts and levels are mathematical integers. The bond order is an exact `real`, which the source's halving of an integer difference also computes exactly.
- React's scheduling: each handler is one atomic update. The `previousState` test in undo is always true for an array, so it is not modelled.
- Species statistics are proved literally for O₂, N₂, B₂ and He₂ only. For the other five species the model gives the general results: the ground state, the electron count and passing the check.
