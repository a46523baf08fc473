# Avogadro selection, primitive queue and Ghemical optimisation command, in Dafny

This project models three sequential pieces of the Avogadro molecular editor and proves what they promise.

- **`Ghemical`** (`ghemical.dfy`) covers the Ghemical extension's undoable geometry-optimisation command, `GhemicalCommand`.
  - Construction takes a value copy of the molecule and sets the cycle counter to zero.
  - `Redo` sets up the force field and gives up silently if setup fails.
  - Otherwise `Redo` dispatches on task, algorithm and gradient mode. It runs batches of 5 minimisation steps, writes the coordinates back into the live molecule and counts one cycle per batch that made progress. Task 1 runs one rotor search instead.
  - `Undo` restores the copy, undoes the message log once per counted cycle and resets the counter.
  - `MergeWith` always accepts, and `Id` is a constant.
  - The module also covers the extension's action list and its `performAction` dispatch.
  - The OpenBabel force field is an oracle object. Its answers are fixed in its fields: whether setup succeeds, the coordinates each progressing batch leaves behind, and the rotor-search result. Every call made on it is recorded. The contract of `Redo` therefore states exactly which calls it makes, in which order, and what reaches the molecule.
  - The message log (a text edit) is reduced to two counters: appends and undos.
  - Note on the log: a successful redo appends one log entry. Undo still calls the log's undo once per counted cycle, so the two counts differ whenever the cycle count is not 1. The model states both counts as the code has them.
- **`Primitives`** (`primitives.dfy`) covers a primitive's selection flag and type, and the `PrimitiveQueue`.
  - The queue holds one list per primitive type. Adding appends to the list for the primitive's type, and removing deletes every occurrence.
  - `Size` sums the lengths of the lists, and `Clear` empties every list.
  - The queue keeps an invariant: a list holds only primitives of its own type.
- **`SelectTool`** (`selecttool.dfy`) covers the select tool's press/move/release gesture.
  - Moving more than 2 (Manhattan distance) from the press position makes the "moved" flag permanently true.
  - A release with no movement and some picks takes the first atom or bond picked. It then applies the selection mode: mode 2 (residue) or 3 (molecule) sets the whole group to the negation of the clicked atom's state, and any other mode toggles the pick.
  - A release after a drag that started on empty space normalises the dragged rectangle and toggles everything picked inside it.
  - Picking (`widget->hits`) is an input: a function from a rectangle to pick records.
  - The widget's selection is a set with toggle, set and test operations.
- **`Wrappers`** (`wrappers.dfy`) holds the `Option` type the other modules share.

Three facts about the program shape the model:
- `GhemicalCommand::redo` runs the optimisation synchronously, starting from the molecule's current geometry. After an undo, that is the copy taken at construction (`RedoAfterUndo`).
- `GhemicalCommand::mergeWith` accepts any command.
- `ForceFieldThread` and `ForceFieldCommand` are declared in `forcefieldextension.h` without bodies, so no background worker is modelled.

## Model

| member | source | states |
|---|---|---|
| `Primitives.Ordinal` | libavogadro/src/primitives.cpp:193 | every primitive type has a list position in the range from FirstType up to LastType |
| `Primitives.Primitive.constructor` | libavogadro/src/primitives.cpp:35-41 | a primitive built without a type is unselected and has type OtherType |
| `Primitives.Primitive.OfType` | libavogadro/src/primitives.cpp:43-46 | a primitive built with a type is unselected and has that type |
| `Primitives.Primitive.IsSelected` | libavogadro/src/primitives.cpp:53-56 | reports the selection flag that the constructors, `SetSelected` and `ToggleSelected` set |
| `Primitives.Primitive.SetSelected` | libavogadro/src/primitives.cpp:58-61 | afterwards the flag equals the argument |
| `Primitives.Primitive.ToggleSelected` | libavogadro/src/primitives.cpp:63-66 | the flag is negated |
| `Primitives.ToggleTwiceRestores` | libavogadro/src/primitives.cpp:63-66 | toggling twice restores the flag |
| `Primitives.PrimitiveQueue.constructor` | libavogadro/src/primitives.cpp:192-196 | one empty list per type from FirstType up to LastType, so the total size is 0 |
| `Primitives.PrimitiveQueue.PrimitiveList` | libavogadro/src/primitives.cpp:205-207 | the list returned for a type holds only primitives of that type |
| `Primitives.PrimitiveQueue.AddPrimitive` | libavogadro/src/primitives.cpp:209-211 | the primitive is appended to its own type's list; every other list is unchanged; the invariant holds; the size grows by 1 |
| `Primitives.RemoveAll` | libavogadro/src/primitives.cpp:214 | the result lacks the removed element, keeps every other element with its multiplicity, and is shorter by the number of occurrences |
| `Primitives.PrimitiveQueue.RemovePrimitive` | libavogadro/src/primitives.cpp:213-215 | every occurrence is removed from its type's list and from no other list; the primitive is then in no list; the size drops by the number of occurrences |
| `Primitives.TotalSizeUpdate` | libavogadro/src/primitives.cpp:209-215 | replacing one list changes the total size by exactly the change in that list's length |
| `Primitives.TotalSizeCountsEveryList` | libavogadro/src/primitives.cpp:217-223 | every list's length is counted in the total size |
| `Primitives.PrimitiveQueue.Size` | libavogadro/src/primitives.cpp:217-223 | the loop returns the sum of the lengths of all lists |
| `Primitives.TotalSizeOfEmptyLists` | libavogadro/src/primitives.cpp:225-229 | a table of empty lists has size 0 |
| `Primitives.PrimitiveQueue.Clear` | libavogadro/src/primitives.cpp:225-229 | every list is emptied, the number of lists is unchanged, and the size is 0 |
| `Primitives.ClearIsIdempotent` | libavogadro/src/primitives.cpp:225-229 | clearing twice gives the same table as clearing once |
| `Ghemical.GhemicalCommand.constructor` | avogadro/src/extensions/ghemicalextension.cpp:111-126 | the cycle counter is 0; the copy equals the molecule as it was at construction; the settings are stored |
| `Ghemical.DescentFor` | avogadro/src/extensions/ghemicalextension.cpp:139-162 | algorithm 0 selects steepest descent, 1 selects conjugate gradients, any other value selects no minimiser (both directions) |
| `Ghemical.GradientFor` | avogadro/src/extensions/ghemicalextension.cpp:141-155 | gradients 0 selects numerical gradients, anything else analytical (both directions) |
| `Ghemical.GhemicalCommand.Minimise` | avogadro/src/extensions/ghemicalextension.cpp:146-150 | one cycle and one write-back plus update per progressing batch; the molecule ends with the last progressing batch's coordinates; the calls are the batches and write-backs in order |
| `Ghemical.StepCallsCount` | avogadro/src/extensions/ghemicalextension.cpp:157-161 | a loop with k progressing batches makes exactly k write-backs and k + 1 batch calls of 5 steps, and nothing else |
| `Ghemical.GhemicalCommand.Redo` | avogadro/src/extensions/ghemicalextension.cpp:128-170 | failed setup: molecule, cycles and log unchanged. Task 0 with algorithm 0/1: cycles grow by the number of progressing batches, after setup on the current geometry and initialisation with the selected minimiser and gradient. Task 1: one rotor search and one write-back, cycles unchanged. Other algorithms or tasks: nothing beyond setup. One log append whenever setup succeeds |
| `Ghemical.GhemicalCommand.Undo` | avogadro/src/extensions/ghemicalextension.cpp:172-178 | the molecule is the construction-time copy; the log's undo is called exactly as often as the old cycle count; the counter becomes 0 |
| `Ghemical.OptimiseThenUndoTwice` | avogadro/src/extensions/ghemicalextension.cpp:111-178 | construct, redo, undo: the geometry is back to what it was before, with one append and one undo per progressing batch; a second undo leaves the log untouched |
| `Ghemical.RedoAfterUndo` | avogadro/src/extensions/ghemicalextension.cpp:134-173 | a redo after an undo sets the force field up on the construction-time copy |
| `Ghemical.GhemicalCommand.MergeWith` | avogadro/src/extensions/ghemicalextension.cpp:180-184 | every command is accepted for merging |
| `Ghemical.GhemicalCommand.Id` | avogadro/src/extensions/ghemicalextension.cpp:186-189 | the identifier is 54381241 for every command, so any two commands are merge candidates |
| `Ghemical.Actions` | avogadro/src/extensions/ghemicalextension.cpp:34-57 | the list has 4 actions when the force field was found and 3 otherwise; "Setup Force Field" is in it exactly when the force field was found; the last three are always Calculate Energy, Optimize Geometry, Rotor Search |
| `Ghemical.IndexOf` | avogadro/src/extensions/ghemicalextension.cpp:73 | the position of the first occurrence, or -1 exactly when the action is absent |
| `Ghemical.PerformAction` | avogadro/src/extensions/ghemicalextension.cpp:68-109 | index 2 returns a task-0 command and index 3 a task-1 command, both built from the dialog's settings; a command is returned for no other index; index 0 shows the dialog; index 1 logs an energy exactly when a force field exists and setup succeeds |
| `Ghemical.TriggerAsWritten` | avogadro/src/extensions/ghemicalextension.cpp:73-104 | dispatch through the action's list position: an action missing from the list has no effect; a command is built exactly for "Rotor Search", and for "Optimize Geometry" only when the force field was found |
| `Ghemical.ShiftedDispatchWithoutForceField` | avogadro/src/extensions/ghemicalextension.cpp:40-104 | without a force field "Rotor Search" builds an optimisation command, "Optimize Geometry" has no effect, and "Calculate Energy" shows the dialog |
| `Ghemical.Trigger` | avogadro/src/extensions/ghemicalextension.cpp:75-104 | dispatch by label: each listed action does what its label says, and an unlisted action does nothing |
| `Ghemical.TriggerAgreesWithForceField` | avogadro/src/extensions/ghemicalextension.cpp:40-104 | with the force field found, dispatch by position and dispatch by label agree for every action |
| `SelectTool.RenderedHit` | libavogadro/src/engines/bsdyengine.cpp:107-138 | an atom is pushed as an atom record under its index; a bond as a bond record under its index plus one |
| `SelectTool.PickedPrimitive` | libavogadro/src/tools/selectrotatetool.cpp:114-126 | atom records name the atom of that index and bond records the bond of index name-1; records of other types name nothing; decoding inverts the renderer's encoding in both directions |
| `SelectTool.FirstPicked` | libavogadro/src/tools/selectrotatetool.cpp:114-126 | nothing exactly when no record names an atom or bond; otherwise the primitive named by the first record that names one |
| `SelectTool.ClickHitList` | libavogadro/src/tools/selectrotatetool.cpp:105-126 | the click path's hit list is empty or holds exactly the first picked atom or bond |
| `SelectTool.BoxPicks` | libavogadro/src/tools/selectrotatetool.cpp:192-204 | corrected decoding (bond name - 1): a primitive is collected exactly when some record in the box names it; no more entries than records |
| `SelectTool.BoxHitList` | libavogadro/src/tools/selectrotatetool.cpp:190-204 | corrected decoding (bond name - 1): the box path's loop collects the picks of all records, in order |
| `SelectTool.BoxPickedAsWritten` | libavogadro/src/tools/selectrotatetool.cpp:194-203 | as written: a record names what the click path's decoding names, except that a bond record names the bond one index further on |
| `SelectTool.BoxPicksAsWrittenShifts` | libavogadro/src/tools/selectrotatetool.cpp:190-204 | as written, the box path decodes the records rendered for a list of primitives into the same list with every bond replaced by the bond after it |
| `SelectTool.BoxPicksAsWritten` | libavogadro/src/tools/selectrotatetool.cpp:192-204 | as written: a primitive is collected exactly when some record in the box names it under the as-written decoding (bond looked up by the undecremented name); no more entries than records |
| `SelectTool.BoxBondOffByOne` | libavogadro/src/tools/selectrotatetool.cpp:199-203 | as written, the box path takes a rendered bond for the bond with the next index |
| `SelectTool.BoxPicksRoundTrip` | libavogadro/src/engines/bsdyengine.cpp:136-138 | decoding the records the renderer pushes for a list of atoms and bonds gives back that list |
| `SelectTool.PressBox` | libavogadro/src/tools/selectrotatetool.cpp:80-82 | the square picked around a press has the selection box's size; when the size is twice the half size, the press position lies in it, centred horizontally |
| `SelectTool.NormalizedBox` | libavogadro/src/tools/selectrotatetool.cpp:180-186 | width and height are non-negative, both drag points lie in the rectangle, and each edge passes through one of them |
| `SelectTool.NormalizedBoxSymmetric` | libavogadro/src/tools/selectrotatetool.cpp:180-183 | the rectangle does not depend on which point is the anchor |
| `SelectTool.ToggledFlips` | libavogadro/src/tools/selectrotatetool.cpp:173 | toggling a list without repeats flips exactly the primitives on it |
| `SelectTool.AtomList` | libavogadro/src/tools/selectrotatetool.cpp:143-146 | the list handed to the widget holds exactly the group's atoms |
| `SelectTool.ClickSelection` | libavogadro/src/tools/selectrotatetool.cpp:135-175 | mode 2: every atom of the clicked atom's residue becomes the negation of the atom's old state, all else unchanged. Mode 3: the same for its fragment. Other modes: exactly the pick flips. No pick, or a bond in modes 2/3: unchanged |
| `SelectTool.ClickSelectsWholeGroup` | libavogadro/src/tools/selectrotatetool.cpp:136-170 | in residue or molecule mode the clicked atom ends up in the selection exactly when it was not in it before |
| `SelectTool.MovedAfterFarMove` | libavogadro/src/tools/selectrotatetool.cpp:216-221 | the fold of the moved flag over a series of moves is true exactly when some move went more than 2 away from the press |
| `SelectTool.PressAndDrag` | libavogadro/src/tools/selectrotatetool.cpp:72-92 | a press followed by moves: the tool's moved flag is set exactly when some move went more than 2 away from the press position; the last position is the last move's |
| `SelectTool.SelectRotateTool.constructor` | libavogadro/src/tools/selectrotatetool.cpp:44-54 | no hits are stored; the mode and moved flag, which the constructor leaves unset, are the given values |
| `SelectTool.SelectRotateTool.MousePress` | libavogadro/src/tools/selectrotatetool.cpp:72-92 | the moved flag is false, and both the last and initial drag positions are the press position; the hits are what picking reports for the selection box around the press position |
| `SelectTool.SelectRotateTool.MouseMove` | libavogadro/src/tools/selectrotatetool.cpp:214-221 | the last position is the event position; the flag becomes true once the Manhattan distance from the initial position exceeds 2, and is never cleared |
| `SelectTool.SelectRotateTool.MouseRelease` | libavogadro/src/tools/selectrotatetool.cpp:94-212 | no molecule: no change. Click with hits: the click rule applied to the first pick. Drag from empty space: every pick in the normalised box, decoded with the corrected bond decoding, is toggled. A drag that started on a hit (rotation), or a click with no hits: no change |
| `SelectTool.SelectRotateTool.SetSelectionMode` | libavogadro/src/tools/selectrotatetool.cpp:319-322 | the mode is the argument |
| `SelectTool.SelectRotateTool.SelectionMode` | libavogadro/src/tools/selectrotatetool.cpp:324-327 | reports the current selection mode |
| `SelectTool.SelectRotateTool.SelectionModeChanged` | libavogadro/src/tools/selectrotatetool.cpp:329-332 | the mode is the combo-box index plus one |

## Findings

| source | as written | input that shows it | evidently intended | confidence | as-written member | corrected member |
|---|---|---|---|---|---|---|
| avogadro/src/extensions/ghemicalextension.cpp:73-104 | the action is dispatched on its position in the list, and the list leaves out "Setup Force Field" when no force field was found (lines 40-44) | no force field found; the user triggers "Rotor Search", which sits at position 2. A task-0 optimisation command is built, and it holds no force field. "Optimize Geometry" (position 1) runs the energy branch and does nothing. "Calculate Energy" (position 0) opens the setup dialog | each action does what its label (and the case comment) says. Without a force field, "Optimize Geometry" and "Rotor Search" still build a command holding no force field, whose `redo` would dereference null; that is not corrected here | high; not executed | `Ghemical.ShiftedDispatchWithoutForceField` | `Ghemical.Trigger` |
| libavogadro/src/tools/selectrotatetool.cpp:201 | the box path looks bonds up as `GetBond(name)` | a box dragged over bond 0. The renderer pushed it with name 1 (bsdyengine.cpp:138), so bond 1 is toggled instead. If bond 0 is the last bond, a null bond is toggled | `GetBond(name - 1)`, as on the click path (line 123) | high; not executed | `SelectTool.BoxPicksAsWrittenShifts` | `SelectTool.BoxPicksRoundTrip` |

In the model, the box path of `MouseRelease` (through `BoxHitList`) uses the corrected decoding. The as-written decoding is `BoxPickedAsWritten` for one record and `BoxPicksAsWritten` for a box; `BoxBondOffByOne` and `BoxPicksAsWrittenShifts` exhibit the discrepancy.

## Left out

- The background optimisation worker and the command that detaches from it (`ForceFieldThread`, `ForceFieldCommand`) are declared in `forcefieldextension.h`, but their bodies are not part of this model, so their threading, stop flag and detach behaviour are not modelled.
- The force field's numerics (setup, initialisation, steps, rotor search, energy) are an oracle. The convergence threshold `pow(10, -convergence)` is floating point and appears only as the integer setting passed to initialisation. The bound of `nSteps` steps is the oracle's business: its list of progressing batches is finite but otherwise arbitrary.
- The force field's log file and log level, the text written to the log, `qWarning`/`qDebug` output, and the computed energy are left out. The log is two counters.
- The command is modelled with a force field object always present. With the force field missing, `redo` would dereference null, and that case is not modelled.
- A molecule's value is its list of atom positions; the rest of the molecule copied by the assignment is left out. The `update()` signal is a counter.
- `Molecule::centerAndFitInXYPlane` is left out: it does floating-point plane fitting and rotation.
- The molecule's `Create*`/`Destroy*`/`updatePrimitive` functions are left out: they are Qt signal and `deleteLater` plumbing.
- The destructors of `Primitive` and `PrimitiveQueue` are memory management and are left out.
- `Primitive::update` is left out: it only emits a signal.
- The primitive type enumeration lives in `primitive.h`, which is not part of this model. Only the members the core files name are modelled, in the order MoleculeType, AtomType, BondType, ResidueType, OtherType. `LastType` is assumed to lie one past OtherType, so every modelled type, OtherType included, has a list in the queue. If `LastType` equalled OtherType, adding or removing a default-built primitive would index past the last list; that case is not modelled.
- Select tool: the selection-box GL drawing and display lists, `gluUnProject`, the camera rotation and translation in `mouseMove`, `widget->update()`, `wheel`, `usefulness`, `settingsWidget` and the signal wiring are left out.
- Picking is an input: a function from a rectangle to pick records, shared by `MousePress` and `MouseRelease`. The selection box's size and half size come from a header that is not part of this model, so they are parameters.
- `GLWidget::isSelected`, `setSelected` and `toggleSelected` live in `glwidget.cpp`, which is not part of this model. They are modelled as membership in a set, adding or removing a group, and toggling the list's entries one by one.
- `GetAtom`/`GetBond` return null for an out-of-range index. The model decodes a record to an index and does not look it up.
- The atoms of a residue (`FOR_ATOMS_OF_RESIDUE`) and of a fragment (the depth-first iterator) are an input, `Topology`. An atom without a residue is not modelled.
- SelectTool.BoxPicks: decodes a bond record as the bond of index name - 1 (the corrected decoding), where the box path as written uses name; see Findings.
- SelectTool.BoxHitList: the loop appends the bond of index name - 1 (the corrected decoding), where line 201 as written looks up the bond of index name; see Findings.
- SelectTool.SelectRotateTool.MouseRelease: the box branch toggles the corrected decoding of the picks, not the bond one index further on that the code as written toggles; see Findings.
- SelectTool.SelectRotateTool.MouseRelease: the `foreach` over the click path's hit list in modes 2 and 3 is written as a test of its single possible entry, since the list holds at most one primitive.
- Integer widths: overflow of QPoint coordinates, of the `int` cycle counter and of the `int` sum in `PrimitiveQueue::size` is not modelled.
- Primitives.PrimitiveQueue.PrimitiveList: the program returns a pointer to the live list, so a caller holding it sees later additions and removals; the model returns the list's value at the time of the call.
- `mergeWith` takes any `QUndoCommand`; the model narrows its parameter to an optimisation command, the only command kind modelled. What the undo stack does once `mergeWith` has accepted a command belongs to the Qt undo stack and is left out.
