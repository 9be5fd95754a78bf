/**
 * The module-level control variables of main.js and the handlers that update
 * them in place. Each method is proved to move the state exactly as the
 * matching function of ControlState says.
 */
module Controls {
  import opened Keys
  import ControlState

  class Controller {
    var activeModelIndex: int
    var trashcanVelocity: real
    var trashcanDirection: real
    const humanVelocities: array<real>
    const humanDirections: array<real>
    // keysPressed
    var keyW: bool
    var keyA: bool
    var keyS: bool
    var keyD: bool
    // controlsObj
    var activeModel: string
    var showAxes: bool

    /** The variables read as one ControlState.State value. */
    ghost function Snapshot(): ControlState.State
      reads this, humanVelocities, humanDirections
      requires humanVelocities.Length == 4 && humanDirections.Length == 4
    {
      var hv, hd := humanVelocities, humanDirections;
      ControlState.State(
        activeModelIndex,
        ControlState.Motion(trashcanVelocity, trashcanDirection),
        [ControlState.Motion(hv[0], hd[0]), ControlState.Motion(hv[1], hd[1]),
         ControlState.Motion(hv[2], hd[2]), ControlState.Motion(hv[3], hd[3])],
        ControlState.Held(keyW, keyA, keyS, keyD),
        activeModel,
        showAxes)
    }

    ghost predicate Valid()
      reads this, humanVelocities, humanDirections
    {
      humanVelocities.Length == 4 && humanDirections.Length == 4 &&
      humanVelocities != humanDirections &&
      ControlState.Valid(Snapshot())
    }

    /** The initial values of the variables. */
    constructor ()
      ensures Valid() && Snapshot() == ControlState.Init()
      ensures fresh(humanVelocities) && fresh(humanDirections)
    {
      trashcanVelocity, trashcanDirection := 0.0, 0.0;
      humanVelocities := new real[4](_ => 0.0);
      humanDirections := new real[4](_ => 0.0);
      activeModelIndex := -1;
      activeModel, showAxes := "Trashcan", true;
      keyW, keyA, keyS, keyD := false, false, false, false;
    }

    /** Makes model `index` active after stopping the previously active one. */
    method SetActiveModel(index: int)
      requires Valid() && ControlState.InRange(index)
      modifies this, humanVelocities, humanDirections
      ensures Snapshot() == ControlState.SetActiveModel(old(Snapshot()), index)
      ensures Valid()
    {
      if activeModelIndex == -1 {
        trashcanVelocity := 0.0;
        trashcanDirection := 0.0;
      } else if activeModelIndex >= 0 && activeModelIndex < 4 {
        humanVelocities[activeModelIndex] := 0.0;
        humanDirections[activeModelIndex] := 0.0;
      }
      activeModelIndex := index;
      if activeModelIndex == -1 {
        activeModel := "Trashcan";
      } else {
        activeModel := "Human " + [DigitChar(activeModelIndex + 1)];
      }
    }

    /** Steps the active index trashcan, Human 1, ..., Human 4, trashcan; no motion changes. */
    method CycleActiveModel()
      requires Valid()
      modifies this
      ensures Snapshot() == ControlState.CycleActiveModel(old(Snapshot()))
      ensures Valid()
    {
      activeModelIndex := activeModelIndex + 1;
      if activeModelIndex > 3 {
        activeModelIndex := -1;
      }
      if activeModelIndex == -1 {
        activeModel := "Trashcan";
      } else {
        activeModel := "Human " + [DigitChar(activeModelIndex + 1)];
      }
    }

    /** Flips `showAxes`; the axis objects whose visibility follows it are not modelled. */
    method ToggleAxes()
      requires Valid()
      modifies this
      ensures Snapshot() == ControlState.ToggleAxes(old(Snapshot()))
      ensures Valid()
    {
      showAxes := !showAxes;
    }

    /** Sets the active model's linear velocity: the trashcan's when the index is -1, else a human's. */
    method SetActiveVelocity(v: real)
      requires Valid() && (v == 0.0 || v == ControlState.ForwardSpeed || v == -ControlState.ForwardSpeed)
      modifies this, humanVelocities
      ensures Snapshot() == ControlState.DriveActive(old(Snapshot()), v)
      ensures Valid()
    {
      if activeModelIndex == -1 {
        trashcanVelocity := v;
      } else {
        humanVelocities[activeModelIndex] := v;
      }
    }

    /** Sets the active model's turn rate: the trashcan's when the index is -1, else a human's. */
    method SetActiveDirection(v: real)
      requires Valid() && (v == 0.0 || v == ControlState.TurnSpeed || v == -ControlState.TurnSpeed)
      modifies this, humanDirections
      ensures Snapshot() == ControlState.TurnActive(old(Snapshot()), v)
      ensures Valid()
    {
      if activeModelIndex == -1 {
        trashcanDirection := v;
      } else {
        humanDirections[activeModelIndex] := v;
      }
    }

    /** The keydown handler, for the key value `key`. */
    method KeyDown(key: string)
      requires Valid()
      modifies this, humanVelocities, humanDirections
      ensures Snapshot() == ControlState.KeyDown(old(Snapshot()), Classify(key))
      ensures Valid()
    {
      match Classify(key)
      case Digit(n) =>
        SetActiveModel(DigitIndex(n));
      case W =>
        keyW := true;
        SetActiveVelocity(0.02);
      case S =>
        keyS := true;
        SetActiveVelocity(-0.02);
      case A =>
        keyA := true;
        SetActiveDirection(0.03);
      case D =>
        keyD := true;
        SetActiveDirection(-0.03);
      case T =>
        CycleActiveModel();
      case X =>
        ToggleAxes();
      case Other =>
    }

    /** The keyup handler, for the key value `key`. */
    method KeyUp(key: string)
      requires Valid()
      modifies this, humanVelocities, humanDirections
      ensures Snapshot() == ControlState.KeyUp(old(Snapshot()), Classify(key))
      ensures Valid()
    {
      match Classify(key)
      case W =>
        keyW := false;
        SetActiveVelocity(0.0);
      case S =>
        keyS := false;
        SetActiveVelocity(0.0);
      case A =>
        keyA := false;
        SetActiveDirection(0.0);
      case D =>
        keyD := false;
        SetActiveDirection(0.0);
      case _ =>
    }
  }

  /** Holding W on the trashcan and pressing T: Human 1 takes over while the trashcan keeps moving. */
  method CycleWhileDriving()
  {
    var c := new Controller();
    c.KeyDown("w");
    c.KeyDown("T");
    assert c.activeModelIndex == 0 && c.activeModel == "Human 1";
    assert c.trashcanVelocity == 0.02;
    c.KeyUp("w");
    assert c.trashcanVelocity == 0.02 && c.humanVelocities[0] == 0.0;
  }
}
