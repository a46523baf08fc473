// Ghemical: the undoable geometry-optimisation command and the extension's
// action dispatch. The force field is an oracle object whose answers are fixed
// in its fields and whose every call is recorded, so that the command's
// contracts can say exactly which calls it makes, in which order, and what
// they do to the live molecule.

module Ghemical {
  import opened Wrappers

  datatype Vec3 = Vec3(x: real, y: real, z: real)

  /** The value of a molecule as far as the optimiser is concerned: its atom positions. */
  datatype Molecule = Molecule(positions: seq<Vec3>)

  /** The molecule the editor shows, shared by reference and overwritten in place. */
  class LiveMolecule {
    var geometry: Molecule
    /** How many update notifications the molecule has emitted. */
    var updates: nat

    constructor (m: Molecule)
      ensures geometry == m && updates == 0
    {
      geometry := m;
      updates := 0;
    }

    method Update()
      modifies this`updates
      ensures updates == old(updates) + 1
    {
      updates := updates + 1;
    }
  }

  /** The message log (a text edit), reduced to how often text was appended and undone. */
  class MessageLog {
    var appends: nat
    var undos: nat

    constructor ()
      ensures appends == 0 && undos == 0
    {
      appends, undos := 0, 0;
    }

    method Append()
      modifies this`appends
      ensures appends == old(appends) + 1
    {
      appends := appends + 1;
    }

    method Undo()
      modifies this`undos
      ensures undos == old(undos) + 1
    {
      undos := undos + 1;
    }
  }

  datatype Descent = SteepestDescent | ConjugateGradients
  datatype Gradient = NumericalGradient | AnalyticalGradient

  /** The calls the command makes on the force field. */
  datatype ForceFieldCall =
    | SetupCall(molecule: Molecule)
    | InitializeCall(descent: Descent, gradient: Gradient, nSteps: int, convergence: int)
    | TakeNStepsCall(descent: Descent, n: int)
    | UpdateCoordinatesCall
    | RotorSearchCall

  /** Number of minimisation steps the command asks for per batch. */
  const BatchSize := 5

  /**
   * The external force field as an oracle. `setupSucceeds` is the answer
   * Setup gives; `batches` holds, for each batch of steps that will report
   * progress, the coordinates it leaves behind, and once it is empty the next
   * batch reports no progress; `rotorResult` is the conformer a rotor search
   * finds. `calls` records every call made.
   */
  class ForceField {
    var setupSucceeds: bool
    var batches: seq<Molecule>
    var rotorResult: Molecule
    var coordinates: Molecule
    var calls: seq<ForceFieldCall>

    constructor (setupSucceeds: bool, batches: seq<Molecule>, rotorResult: Molecule)
      ensures this.setupSucceeds == setupSucceeds && this.batches == batches
      ensures this.rotorResult == rotorResult && calls == []
    {
      this.setupSucceeds := setupSucceeds;
      this.batches := batches;
      this.rotorResult := rotorResult;
      coordinates := Molecule([]);
      calls := [];
    }

    method Setup(m: Molecule) returns (ok: bool)
      modifies this`coordinates, this`calls
      ensures ok == setupSucceeds
      ensures coordinates == if ok then m else old(coordinates)
      ensures calls == old(calls) + [SetupCall(m)]
    {
      ok := setupSucceeds;
      if ok {
        coordinates := m;
      }
      calls := calls + [SetupCall(m)];
    }

    method Initialize(descent: Descent, gradient: Gradient, nSteps: int, convergence: int)
      modifies this`calls
      ensures calls == old(calls) + [InitializeCall(descent, gradient, nSteps, convergence)]
    {
      calls := calls + [InitializeCall(descent, gradient, nSteps, convergence)];
    }

    method TakeNSteps(descent: Descent, n: int) returns (progressed: bool)
      modifies this`batches, this`coordinates, this`calls
      ensures progressed == (old(batches) != [])
      ensures progressed ==> coordinates == old(batches)[0] && batches == old(batches)[1..]
      ensures !progressed ==> coordinates == old(coordinates) && batches == old(batches)
      ensures calls == old(calls) + [TakeNStepsCall(descent, n)]
    {
      progressed := batches != [];
      if progressed {
        coordinates := batches[0];
        batches := batches[1..];
      }
      calls := calls + [TakeNStepsCall(descent, n)];
    }

    method RotorSearch()
      modifies this`coordinates, this`calls
      ensures coordinates == rotorResult
      ensures calls == old(calls) + [RotorSearchCall]
    {
      coordinates := rotorResult;
      calls := calls + [RotorSearchCall];
    }

    method UpdateCoordinates(m: LiveMolecule)
      modifies m`geometry, this`calls
      ensures m.geometry == coordinates
      ensures calls == old(calls) + [UpdateCoordinatesCall]
    {
      m.geometry := coordinates;
      calls := calls + [UpdateCoordinatesCall];
    }
  }

  /** The minimiser an algorithm setting selects: 0 steepest descent, 1 conjugate gradients, others none. */
  function DescentFor(algorithm: int): (d: Option<Descent>)
    ensures d == Some(SteepestDescent) <==> algorithm == 0
    ensures d == Some(ConjugateGradients) <==> algorithm == 1
    ensures d == None <==> algorithm != 0 && algorithm != 1
  {
    if algorithm == 0 then Some(SteepestDescent)
    else if algorithm == 1 then Some(ConjugateGradients)
    else None
  }

  /** The gradient a gradients setting selects: 0 numerical, anything else analytical. */
  function GradientFor(gradients: int): (g: Gradient)
    ensures g == NumericalGradient <==> gradients == 0
    ensures g == AnalyticalGradient <==> gradients != 0
  {
    if gradients == 0 then NumericalGradient else AnalyticalGradient
  }

  /**
   * The calls of a minimisation loop whose first k batches made progress:
   * a batch, then for each progressing batch a write-back and the next batch.
   */
  function StepCalls(d: Descent, k: nat): seq<ForceFieldCall>
  {
    if k == 0 then [TakeNStepsCall(d, BatchSize)]
    else StepCalls(d, k - 1) + [UpdateCoordinatesCall, TakeNStepsCall(d, BatchSize)]
  }

  /** A loop with k progressing batches writes coordinates back exactly k times and takes k + 1 batches. */
  lemma {:induction false} StepCallsCount(d: Descent, k: nat)
    ensures |StepCalls(d, k)| == 2 * k + 1
    ensures multiset(StepCalls(d, k))[UpdateCoordinatesCall] == k
    ensures multiset(StepCalls(d, k))[TakeNStepsCall(d, BatchSize)] == k + 1
    ensures forall c :: c in StepCalls(d, k) ==> c == UpdateCoordinatesCall || c == TakeNStepsCall(d, BatchSize)
  {
    if k > 0 {
      StepCallsCount(d, k - 1);
    }
  }

  /** The identifier every optimisation command reports to the undo stack. */
  const CommandId := 54381241

  class GhemicalCommand {
    const molecule: LiveMolecule
    const forceField: ForceField
    const textEdit: MessageLog
    /** Value copy of the molecule taken at construction. */
    const moleculeCopy: Molecule
    const forceFieldID: int
    const nSteps: int
    const algorithm: int
    const gradients: int
    const convergence: int
    const task: int
    /** Number of progressing batches whose log output an undo rolls back. */
    var cycles: nat

    constructor (molecule: LiveMolecule, forceField: ForceField, textEdit: MessageLog, forceFieldID: int,
                 nSteps: int, algorithm: int, gradients: int, convergence: int, task: int)
      ensures cycles == 0 && moleculeCopy == molecule.geometry
      ensures this.molecule == molecule && this.forceField == forceField && this.textEdit == textEdit
      ensures this.forceFieldID == forceFieldID && this.nSteps == nSteps && this.algorithm == algorithm
      ensures this.gradients == gradients && this.convergence == convergence && this.task == task
    {
      cycles := 0;
      moleculeCopy := molecule.geometry;
      this.molecule := molecule;
      this.forceField := forceField;
      this.textEdit := textEdit;
      this.forceFieldID := forceFieldID;
      this.nSteps := nSteps;
      this.algorithm := algorithm;
      this.gradients := gradients;
      this.convergence := convergence;
      this.task := task;
    }

    /**
     * Takes batches until one reports no progress, writing the coordinates
     * back and counting a cycle after every batch that progressed.
     */
    method Minimise(d: Descent)
      modifies molecule, forceField`batches, forceField`coordinates, forceField`calls, this`cycles
      ensures forceField.batches == []
      ensures cycles == old(cycles) + |old(forceField.batches)|
      ensures molecule.updates == old(molecule.updates) + |old(forceField.batches)|
      ensures molecule.geometry ==
        if old(forceField.batches) == [] then old(molecule.geometry) else old(forceField.batches)[|old(forceField.batches)| - 1]
      ensures forceField.calls == old(forceField.calls) + StepCalls(d, |old(forceField.batches)|)
    {
      ghost var s0 := forceField.batches;
      ghost var c0 := forceField.calls;
      ghost var g0 := molecule.geometry;
      ghost var i: nat := 0;
      var progressed := forceField.TakeNSteps(d, BatchSize);
      while progressed
        invariant i <= |s0|
        invariant progressed ==> i < |s0| && forceField.batches == s0[i + 1..] && forceField.coordinates == s0[i]
        invariant !progressed ==> i == |s0| && forceField.batches == []
        invariant cycles == old(cycles) + i
        invariant molecule.updates == old(molecule.updates) + i
        invariant molecule.geometry == if i == 0 then g0 else s0[i - 1]
        invariant forceField.calls == c0 + StepCalls(d, i)
        decreases |s0| - i
      {
        forceField.UpdateCoordinates(molecule);
        molecule.Update();
        cycles := cycles + 1;
        progressed := forceField.TakeNSteps(d, BatchSize);
        i := i + 1;
      }
    }

    method Redo()
      modifies molecule, forceField`batches, forceField`coordinates, forceField`calls, textEdit`appends, this`cycles
      // a failed setup gives up before anything else happens
      ensures !forceField.setupSucceeds ==>
        && molecule.geometry == old(molecule.geometry) && molecule.updates == old(molecule.updates)
        && cycles == old(cycles) && textEdit.appends == old(textEdit.appends)
        && forceField.batches == old(forceField.batches)
        && forceField.calls == old(forceField.calls) + [SetupCall(old(molecule.geometry))]
      ensures forceField.setupSucceeds ==> textEdit.appends == old(textEdit.appends) + 1
      // optimisation with a known algorithm: one cycle and one write-back per progressing batch
      ensures forceField.setupSucceeds && task == 0 && DescentFor(algorithm).Some? ==>
        var k := |old(forceField.batches)|;
        && cycles == old(cycles) + k
        && molecule.updates == old(molecule.updates) + k
        && molecule.geometry == (if k == 0 then old(molecule.geometry) else old(forceField.batches)[k - 1])
        && forceField.batches == []
        && forceField.calls == old(forceField.calls)
             + [SetupCall(old(molecule.geometry)), InitializeCall(DescentFor(algorithm).value, GradientFor(gradients), nSteps, convergence)]
             + StepCalls(DescentFor(algorithm).value, k)
      // rotor search: one search, one write-back, no cycle
      ensures forceField.setupSucceeds && task == 1 ==>
        && cycles == old(cycles)
        && molecule.geometry == forceField.rotorResult
        && molecule.updates == old(molecule.updates) + 1
        && forceField.batches == old(forceField.batches)
        && forceField.calls == old(forceField.calls) + [SetupCall(old(molecule.geometry)), RotorSearchCall, UpdateCoordinatesCall]
      // an unknown algorithm or task: only the setup
      ensures forceField.setupSucceeds && !(task == 0 && DescentFor(algorithm).Some?) && task != 1 ==>
        && molecule.geometry == old(molecule.geometry) && molecule.updates == old(molecule.updates)
        && cycles == old(cycles)
        && forceField.batches == old(forceField.batches)
        && forceField.calls == old(forceField.calls) + [SetupCall(old(molecule.geometry))]
    {
      var ok := forceField.Setup(molecule.geometry);
      if !ok {
        return;
      }
      if task == 0 {
        if algorithm == 0 {
          if gradients == 0 {
            forceField.Initialize(SteepestDescent, NumericalGradient, nSteps, convergence);
          } else {
            forceField.Initialize(SteepestDescent, AnalyticalGradient, nSteps, convergence);
          }
          Minimise(SteepestDescent);
        } else if algorithm == 1 {
          if gradients == 0 {
            forceField.Initialize(ConjugateGradients, NumericalGradient, nSteps, convergence);
          } else {
            forceField.Initialize(ConjugateGradients, AnalyticalGradient, nSteps, convergence);
          }
          Minimise(ConjugateGradients);
        }
      } else if task == 1 {
        forceField.RotorSearch();
        forceField.UpdateCoordinates(molecule);
        molecule.Update();
      }
      textEdit.Append();
    }

    method Undo()
      modifies molecule`geometry, textEdit`undos, this`cycles
      ensures molecule.geometry == moleculeCopy
      ensures textEdit.undos == old(textEdit.undos) + old(cycles)
      ensures cycles == 0
    {
      molecule.geometry := moleculeCopy;
      var i := 0;
      while i < cycles
        invariant 0 <= i <= cycles == old(cycles)
        invariant molecule.geometry == moleculeCopy
        invariant textEdit.undos == old(textEdit.undos) + i
      {
        textEdit.Undo();
        i := i + 1;
      }
      cycles := 0;
    }

    /**
     * Every other command is accepted for merging. The program accepts any undo
     * command here, not only an optimisation command; the parameter is narrowed
     * because no other command kind is modelled.
     */
    function MergeWith(command: GhemicalCommand): (merged: bool)
      ensures merged
    {
      true
    }

    function Id(): (id: int)
      ensures id == CommandId
    {
      CommandId
    }
  }

  /**
   * A whole optimisation as the undo stack drives it: construct, redo, undo,
   * undo. The first undo brings back the geometry of construction time and
   * rolls back one log entry per cycle; the second changes nothing more.
   */
  method OptimiseThenUndoTwice(molecule: LiveMolecule, forceField: ForceField, textEdit: MessageLog,
                               nSteps: int, algorithm: int, gradients: int, convergence: int)
    requires forceField.setupSucceeds && (algorithm == 0 || algorithm == 1)
    modifies molecule, forceField`batches, forceField`coordinates, forceField`calls, textEdit
    ensures molecule.geometry == old(molecule.geometry)
    ensures textEdit.appends == old(textEdit.appends) + 1
    ensures textEdit.undos == old(textEdit.undos) + |old(forceField.batches)|
  {
    var command := new GhemicalCommand(molecule, forceField, textEdit, 0, nSteps, algorithm, gradients, convergence, 0);
    command.Redo();
    command.Undo();
    var undos := textEdit.undos;
    command.Undo();
    assert textEdit.undos == undos;
  }

  /**
   * Redo after undo starts again from the copy taken at construction: the
   * force field is set up on that copy, not on the optimised geometry.
   */
  method RedoAfterUndo(command: GhemicalCommand)
    requires command.forceField.setupSucceeds
    modifies command.molecule, command.forceField`batches, command.forceField`coordinates
    modifies command.forceField`calls, command.textEdit, command
    ensures |command.forceField.calls| > |old(command.forceField.calls)|
    ensures command.forceField.calls[|old(command.forceField.calls)|] == SetupCall(command.moleculeCopy)
  {
    command.Undo();
    command.Redo();
  }

  /** The extension's actions, in list order. */
  datatype ActionLabel = SetupForceFieldAction | CalculateEnergyAction | OptimizeGeometryAction | RotorSearchAction

  /** The settings the force-field dialog holds when an action is triggered. */
  datatype DialogSettings = DialogSettings(nSteps: int, algorithm: int, gradients: int, convergence: int)

  /** What a new command is constructed with. */
  datatype CommandSettings =
    CommandSettings(forceFieldID: int, nSteps: int, algorithm: int, gradients: int, convergence: int, task: int)

  /** What triggering an action does: the effect and whether an undo command is returned. */
  datatype ActionOutcome =
    | ShowDialog
    | EnergyLogged
    | NoEffect
    | NewCommand(settings: CommandSettings)

  /** The action list: "Setup Force Field" only when the force field was found. */
  function Actions(forceFieldFound: bool): (labels: seq<ActionLabel>)
    ensures |labels| == if forceFieldFound then 4 else 3
    ensures SetupForceFieldAction in labels <==> forceFieldFound
    ensures labels[|labels| - 3..] == [CalculateEnergyAction, OptimizeGeometryAction, RotorSearchAction]
  {
    (if forceFieldFound then [SetupForceFieldAction] else [])
      + [CalculateEnergyAction, OptimizeGeometryAction, RotorSearchAction]
  }

  /** Position of the first occurrence of x in s, or -1. */
  function IndexOf<T(==)>(s: seq<T>, x: T): (i: int)
    ensures -1 <= i < |s|
    ensures i == -1 <==> x !in s
    ensures 0 <= i ==> s[i] == x && x !in s[..i]
  {
    if s == [] then -1
    else if s[0] == x then 0
    else
      var j := IndexOf(s[1..], x);
      if j == -1 then -1
      else
        assert s[..j + 1] == [s[0]] + s[1..][..j];
        j + 1
  }

  /** The command an optimisation (task 0) or rotor-search (task 1) action builds. */
  function CommandFor(dialog: DialogSettings, task: int): CommandSettings
  {
    CommandSettings(0, dialog.nSteps, dialog.algorithm, dialog.gradients, dialog.convergence, task)
  }

  /** Dispatch on the action's position in the list, as the extension does. */
  function PerformAction(index: int, forceFieldFound: bool, setupSucceeds: bool, dialog: DialogSettings): (r: ActionOutcome)
    ensures r.NewCommand? <==> index == 2 || index == 3
    ensures index == 2 ==> r == NewCommand(CommandFor(dialog, 0))
    ensures index == 3 ==> r == NewCommand(CommandFor(dialog, 1))
    ensures r == ShowDialog <==> index == 0
    ensures r == EnergyLogged <==> index == 1 && forceFieldFound && setupSucceeds
  {
    if index == 0 then ShowDialog
    else if index == 1 then
      (if !forceFieldFound then NoEffect
       else if !setupSucceeds then NoEffect
       else EnergyLogged)
    else if index == 2 then NewCommand(CommandFor(dialog, 0))
    else if index == 3 then NewCommand(CommandFor(dialog, 1))
    else NoEffect
  }

  /** Triggering a labelled action as written: its list position decides. */
  function TriggerAsWritten(action: ActionLabel, forceFieldFound: bool, setupSucceeds: bool, dialog: DialogSettings): (r: ActionOutcome)
    ensures action !in Actions(forceFieldFound) ==> r == NoEffect
    ensures r.NewCommand? <==> action == RotorSearchAction || (forceFieldFound && action == OptimizeGeometryAction)
  {
    PerformAction(IndexOf(Actions(forceFieldFound), action), forceFieldFound, setupSucceeds, dialog)
  }

  /**
   * Without a force field every action is served by the branch meant for the
   * action before it: "Rotor Search" builds an optimisation command,
   * "Optimize Geometry" takes the energy branch and "Calculate Energy" opens
   * the setup dialog.
   */
  lemma ShiftedDispatchWithoutForceField(setupSucceeds: bool, dialog: DialogSettings)
    ensures TriggerAsWritten(RotorSearchAction, false, setupSucceeds, dialog) == NewCommand(CommandFor(dialog, 0))
    ensures TriggerAsWritten(OptimizeGeometryAction, false, setupSucceeds, dialog) == NoEffect
    ensures TriggerAsWritten(CalculateEnergyAction, false, setupSucceeds, dialog) == ShowDialog
  {
  }

  /**
   * Triggering a labelled action by what it is labelled, whatever its position.
   * Without a force field, "Optimize Geometry" and "Rotor Search" still build a
   * command, as the extension does; that command holds no force field, and the
   * command's redo is only modelled with one present.
   */
  function Trigger(action: ActionLabel, forceFieldFound: bool, setupSucceeds: bool, dialog: DialogSettings): (r: ActionOutcome)
    ensures action !in Actions(forceFieldFound) ==> r == NoEffect
    ensures action in Actions(forceFieldFound) ==>
      && (action == SetupForceFieldAction <==> r == ShowDialog)
      && (action == CalculateEnergyAction ==> r == if forceFieldFound && setupSucceeds then EnergyLogged else NoEffect)
      && (action == OptimizeGeometryAction <==> r == NewCommand(CommandFor(dialog, 0)))
      && (action == RotorSearchAction <==> r == NewCommand(CommandFor(dialog, 1)))
  {
    if action !in Actions(forceFieldFound) then NoEffect
    else
      match action
      case SetupForceFieldAction => ShowDialog
      case CalculateEnergyAction => if forceFieldFound && setupSucceeds then EnergyLogged else NoEffect
      case OptimizeGeometryAction => NewCommand(CommandFor(dialog, 0))
      case RotorSearchAction => NewCommand(CommandFor(dialog, 1))
  }

  /** With the force field found, dispatch by position is dispatch by action. */
  lemma TriggerAgreesWithForceField(action: ActionLabel, setupSucceeds: bool, dialog: DialogSettings)
    ensures TriggerAsWritten(action, true, setupSucceeds, dialog) == Trigger(action, true, setupSucceeds, dialog)
  {
  }
}
