/**
 * The keyboard-control state of main.js as a value, and what each handler does
 * to it. Model index -1 is the trashcan and 0-3 are the four humans; each model
 * has a linear velocity and a turn rate, which the handlers only ever set to
 * one of a few constants.
 */
module ControlState {
  import opened Keys

  const HumanCount: int := 4
  const TrashcanIndex: int := -1
  /** Linear velocity written by W (and its negation by S). */
  const ForwardSpeed: real := 0.02
  /** Turn rate written by A (and its negation by D). */
  const TurnSpeed: real := 0.03

  datatype Motion = Motion(velocity: real, direction: real)

  const Still := Motion(0.0, 0.0)

  /** The held-key flags `keysPressed.W/A/S/D`. */
  datatype Held = Held(w: bool, a: bool, s: bool, d: bool)

  /**
   * `active` is `activeModelIndex`, `trashcan` the pair trashcanVelocity /
   * trashcanDirection, `humans[i]` the pair humanVelocities[i] / humanDirections[i],
   * `activeModel` (the label) and `showAxes` the two fields of `controlsObj`.
   */
  datatype State = State(active: int, trashcan: Motion, humans: seq<Motion>,
                         held: Held, activeModel: string, showAxes: bool)

  predicate InRange(i: int) {
    TrashcanIndex <= i < HumanCount
  }

  /** The label the GUI shows for model `i`. */
  function Label(i: int): string
    requires InRange(i)
  {
    if i == TrashcanIndex then "Trashcan" else "Human " + [DigitChar(i + 1)]
  }

  /** Every velocity and turn rate the handlers can write. */
  predicate Settled(m: Motion) {
    (m.velocity == 0.0 || m.velocity == ForwardSpeed || m.velocity == -ForwardSpeed) &&
    (m.direction == 0.0 || m.direction == TurnSpeed || m.direction == -TurnSpeed)
  }

  /** The invariant every handler keeps. */
  predicate Valid(st: State) {
    InRange(st.active) &&
    |st.humans| == HumanCount &&
    st.activeModel == Label(st.active) &&
    Settled(st.trashcan) &&
    forall i :: 0 <= i < |st.humans| ==> Settled(st.humans[i])
  }

  function MotionOf(st: State, i: int): Motion
    requires InRange(i) && |st.humans| == HumanCount
  {
    if i == TrashcanIndex then st.trashcan else st.humans[i]
  }

  /** `st` with the motion of model `i` replaced by `m`. */
  function WithMotion(st: State, i: int, m: Motion): (r: State)
    requires InRange(i) && |st.humans| == HumanCount
    ensures |r.humans| == HumanCount && MotionOf(r, i) == m
    ensures forall j :: InRange(j) && j != i ==> MotionOf(r, j) == MotionOf(st, j)
    ensures r.active == st.active && r.held == st.held && r.activeModel == st.activeModel && r.showAxes == st.showAxes
  {
    if i == TrashcanIndex then st.(trashcan := m) else st.(humans := st.humans[i := m])
  }

  /** No model other than the active one is moving or turning. */
  ghost predicate Quiescent(st: State)
    requires Valid(st)
  {
    forall j :: InRange(j) && j != st.active ==> MotionOf(st, j) == Still
  }

  /** The state at page load: the trashcan active, nothing moving, no key held, axes shown. */
  function Init(): (st: State)
    ensures Valid(st) && Quiescent(st)
    ensures st.active == TrashcanIndex && st.activeModel == "Trashcan" && st.showAxes
    ensures st.held == Held(false, false, false, false)
    ensures forall j :: InRange(j) ==> MotionOf(st, j) == Still
  {
    State(TrashcanIndex, Still, [Still, Still, Still, Still], Held(false, false, false, false), "Trashcan", true)
  }

  /** `setActiveModel`: stop the previously active model, then make `index` active. */
  function SetActiveModel(st: State, index: int): (r: State)
    requires Valid(st) && InRange(index)
    ensures Valid(r)
    ensures r.active == index && r.activeModel == Label(index)
    ensures MotionOf(r, st.active) == Still
    ensures forall j :: InRange(j) && j != st.active ==> MotionOf(r, j) == MotionOf(st, j)
    ensures r.held == st.held && r.showAxes == st.showAxes
  {
    var stopped :=
      if st.active == TrashcanIndex then st.(trashcan := Still)
      else if 0 <= st.active < HumanCount then st.(humans := st.humans[st.active := Still])
      else st;
    stopped.(active := index, activeModel := Label(index))
  }

  /** The index after `i` in the order trashcan, Human 1, ..., Human 4, trashcan. */
  function NextIndex(i: int): (j: int)
    requires InRange(i)
    ensures InRange(j)
    ensures j + 1 == (i + 2) % 5
  {
    var next := i + 1;
    if next > 3 then TrashcanIndex else next
  }

  /** `cycleActiveModel`: advance the active index and relabel; no motion is touched. */
  function CycleActiveModel(st: State): (r: State)
    requires Valid(st)
    ensures Valid(r)
    ensures r.active + 1 == (st.active + 2) % 5 && r.activeModel == Label(r.active)
    ensures r.trashcan == st.trashcan && r.humans == st.humans
    ensures r.held == st.held && r.showAxes == st.showAxes
  {
    var next := NextIndex(st.active);
    st.(active := next, activeModel := Label(next))
  }

  /** The flag flip of `toggleAxesVisibility`. */
  function ToggleAxes(st: State): (r: State)
    ensures r.showAxes != st.showAxes
    ensures r.(showAxes := st.showAxes) == st
  {
    st.(showAxes := !st.showAxes)
  }

  /** Sets the linear velocity of the active model to `v`. */
  function DriveActive(st: State, v: real): (r: State)
    requires Valid(st) && (v == 0.0 || v == ForwardSpeed || v == -ForwardSpeed)
    ensures Valid(r)
    ensures MotionOf(r, st.active) == Motion(v, MotionOf(st, st.active).direction)
    ensures forall j :: InRange(j) && j != st.active ==> MotionOf(r, j) == MotionOf(st, j)
    ensures r.active == st.active && r.held == st.held && r.activeModel == st.activeModel && r.showAxes == st.showAxes
  {
    WithMotion(st, st.active, MotionOf(st, st.active).(velocity := v))
  }

  /** Sets the turn rate of the active model to `v`. */
  function TurnActive(st: State, v: real): (r: State)
    requires Valid(st) && (v == 0.0 || v == TurnSpeed || v == -TurnSpeed)
    ensures Valid(r)
    ensures MotionOf(r, st.active) == Motion(MotionOf(st, st.active).velocity, v)
    ensures forall j :: InRange(j) && j != st.active ==> MotionOf(r, j) == MotionOf(st, j)
    ensures r.active == st.active && r.held == st.held && r.activeModel == st.activeModel && r.showAxes == st.showAxes
  {
    WithMotion(st, st.active, MotionOf(st, st.active).(direction := v))
  }

  /** Velocity a linear key writes on keydown, turn rate a turning key writes. */
  function DownVelocity(k: Key): real
    requires k.W? || k.S?
  {
    if k.W? then ForwardSpeed else -ForwardSpeed
  }

  function DownDirection(k: Key): real
    requires k.A? || k.D?
  {
    if k.A? then TurnSpeed else -TurnSpeed
  }

  /** The held-key flags after key `k` went down (`down`) or up (`!down`). */
  function Press(h: Held, k: Key, down: bool): Held {
    match k
    case W => h.(w := down)
    case A => h.(a := down)
    case S => h.(s := down)
    case D => h.(d := down)
    case _ => h
  }

  /** The keydown handler. */
  function KeyDown(st: State, k: Key): (r: State)
    requires Valid(st)
    ensures Valid(r)
    // a digit selects a model and leaves the key flags alone
    ensures k.Digit? ==> r == SetActiveModel(st, DigitIndex(k.n)) && r.held == st.held
    // W/S and A/D set the active model's velocity / turn rate, whatever it was
    ensures k.W? || k.S? ==>
              r.active == st.active && r.activeModel == st.activeModel && r.showAxes == st.showAxes &&
              MotionOf(r, st.active) == Motion(DownVelocity(k), MotionOf(st, st.active).direction)
    ensures k.A? || k.D? ==>
              r.active == st.active && r.activeModel == st.activeModel && r.showAxes == st.showAxes &&
              MotionOf(r, st.active) == Motion(MotionOf(st, st.active).velocity, DownDirection(k))
    ensures k.W? || k.A? || k.S? || k.D? ==>
              r.held == Press(st.held, k, true) &&
              forall j :: InRange(j) && j != st.active ==> MotionOf(r, j) == MotionOf(st, j)
    ensures k.T? ==> r == CycleActiveModel(st)
    ensures k.X? ==> r == ToggleAxes(st)
    ensures k.Other? ==> r == st
  {
    match k
    case Digit(n) => SetActiveModel(st, DigitIndex(n))
    case W | S => DriveActive(st.(held := Press(st.held, k, true)), DownVelocity(k))
    case A | D => TurnActive(st.(held := Press(st.held, k, true)), DownDirection(k))
    case T => CycleActiveModel(st)
    case X => ToggleAxes(st)
    case Other => st
  }

  /** The keyup handler: only W/A/S/D are handled; the others change nothing. */
  function KeyUp(st: State, k: Key): (r: State)
    requires Valid(st)
    ensures Valid(r)
    ensures r.active == st.active && r.activeModel == st.activeModel && r.showAxes == st.showAxes
    ensures r.held == Press(st.held, k, false)
    // releasing W or S stops the active model, whether or not the other key is still held
    ensures k.W? || k.S? ==> MotionOf(r, st.active) == Motion(0.0, MotionOf(st, st.active).direction)
    ensures k.A? || k.D? ==> MotionOf(r, st.active) == Motion(MotionOf(st, st.active).velocity, 0.0)
    ensures forall j :: InRange(j) && j != st.active ==> MotionOf(r, j) == MotionOf(st, j)
    ensures !(k.W? || k.A? || k.S? || k.D?) ==> r == st
  {
    match k
    case W | S => DriveActive(st.(held := Press(st.held, k, false)), 0.0)
    case A | D => TurnActive(st.(held := Press(st.held, k, false)), 0.0)
    case _ => st
  }

  // ---------------------------------------------------------------------------
  // Properties that relate several calls.

  /** Label and index determine each other: "Trashcan" exactly for -1, "Human i+1" otherwise. */
  lemma LabelDeterminesIndex(i: int, j: int)
    requires InRange(i) && InRange(j)
    ensures Label(i) == "Trashcan" <==> i == TrashcanIndex
    ensures Label(i) == Label(j) ==> i == j
  {
    if i != TrashcanIndex {
      assert Label(i)[0] == 'H';
    }
    if Label(i) == Label(j) && i != TrashcanIndex && j != TrashcanIndex {
      assert Label(i)[6] == DigitChar(i + 1);
    }
  }

  /** Holding a motion key down (auto-repeat) changes nothing after the first event. */
  lemma KeyDownIdempotent(st: State, k: Key)
    requires Valid(st) && (k.W? || k.A? || k.S? || k.D?)
    ensures KeyDown(KeyDown(st, k), k) == KeyDown(st, k)
  {
  }

  /** Of two linear (or two turning) keys, the later one wins: its constant replaces, nothing is summed. */
  lemma LaterKeyWins(st: State, k1: Key, k2: Key)
    requires Valid(st)
    requires ((k1.W? || k1.S?) && (k2.W? || k2.S?)) || ((k1.A? || k1.D?) && (k2.A? || k2.D?))
    ensures var r := KeyDown(KeyDown(st, k1), k2);
            MotionOf(r, st.active) ==
              if k2.W? || k2.S? then Motion(DownVelocity(k2), MotionOf(st, st.active).direction)
              else Motion(MotionOf(st, st.active).velocity, DownDirection(k2))
  {
  }

  /** W then S held, W released: the model stops although S is still down. */
  lemma ReleaseDoesNotRestore(st: State)
    requires Valid(st)
    ensures var r := KeyUp(KeyDown(KeyDown(st, S), W), W);
            r.held.s && !r.held.w && MotionOf(r, st.active).velocity == 0.0
  {
  }

  /** Releasing a key twice is the same as releasing it once. */
  lemma KeyUpIdempotent(st: State, k: Key)
    requires Valid(st)
    ensures KeyUp(KeyUp(st, k), k) == KeyUp(st, k)
  {
  }

  /** `n` presses of T. */
  function Cycle(st: State, n: nat): (r: State)
    requires Valid(st)
    ensures Valid(r)
    ensures r.trashcan == st.trashcan && r.humans == st.humans
    ensures r.held == st.held && r.showAxes == st.showAxes
  {
    if n == 0 then st else CycleActiveModel(Cycle(st, n - 1))
  }

  /** The index after `n` presses of T. */
  function Advance(i: int, n: nat): (j: int)
    requires InRange(i)
    ensures InRange(j)
  {
    if n == 0 then i else NextIndex(Advance(i, n - 1))
  }

  /** `n` presses of T move the index to Advance(active, n). */
  lemma {:induction false} CycleIndex(st: State, n: nat)
    requires Valid(st)
    ensures Cycle(st, n).active == Advance(st.active, n)
  {
    if n > 0 {
      CycleIndex(st, n - 1);
    }
  }

  /** After `n` presses of T the index has advanced `n` places around the five models. */
  lemma {:induction false} AdvanceAroundFive(i: int, n: nat)
    requires InRange(i)
    ensures Advance(i, n) + 1 == (i + 1 + n) % 5
  {
    if n > 0 {
      AdvanceAroundFive(i, n - 1);
    }
  }

  /** Five presses of T, or any multiple of five, restore the whole state. */
  lemma CycleFiveIsIdentity(st: State, n: nat)
    requires Valid(st) && n % 5 == 0
    ensures Cycle(st, n) == st
  {
    var r := Cycle(st, n);
    CycleIndex(st, n);
    AdvanceAroundFive(st.active, n);
    WholeTurns(st.active + 1, n);
    assert r.active == st.active;
    assert r.activeModel == Label(st.active) == st.activeModel;
  }

  /** Adding a multiple of five to an offset in [0, 5) leaves it unchanged modulo five. */
  lemma WholeTurns(x: int, n: nat)
    requires 0 <= x < 5 && n % 5 == 0
    ensures (x + n) % 5 == x
  {
  }

  /** Toggling the axes twice restores the state. */
  lemma ToggleTwice(st: State)
    ensures ToggleAxes(ToggleAxes(st)) == st
  {
  }

  /** Every key event except T keeps the inactive models still. */
  lemma QuiescenceKept(st: State, k: Key)
    requires Valid(st) && Quiescent(st) && !k.T?
    ensures Quiescent(KeyDown(st, k)) && Quiescent(KeyUp(st, k))
  {
  }

  /**
   * T does not stop the model it leaves: with the trashcan driven forward, a
   * press of T makes Human 1 active while the trashcan keeps its velocity.
   */
  lemma CycleLeavesPreviousMoving()
    ensures var st := KeyDown(KeyDown(Init(), W), T);
            st.active == 0 && MotionOf(st, TrashcanIndex).velocity == ForwardSpeed && !Quiescent(st)
  {
  }

  /** A model left moving by T keeps moving through every motion key event on the new active model. */
  lemma InactiveMotionPersists(st: State, k: Key, j: int)
    requires Valid(st) && InRange(j) && j != st.active && (k.W? || k.A? || k.S? || k.D?)
    ensures MotionOf(KeyDown(st, k), j) == MotionOf(st, j)
    ensures MotionOf(KeyUp(st, k), j) == MotionOf(st, j)
  {
  }

  /** With no inactive model moving, pressing the same digit twice is the same as once. */
  lemma DigitIdempotentWhenQuiescent(st: State, n: DigitValue)
    requires Valid(st) && Quiescent(st)
    ensures KeyDown(KeyDown(st, Digit(n)), Digit(n)) == KeyDown(st, Digit(n))
  {
  }
}
