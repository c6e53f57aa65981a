/**
 * The platform-neutral input state the game layer sees (InputState.h): the abstract
 * actions, the device tags, the per-frame state record and the gamepad button mapping.
 * Floating-point fields are modelled as `real`.
 */
module Inputs {

  /** Abstract actions, in declaration order; `Count` is the enum's sentinel, not an action. */
  datatype InputAction =
    | MoveForward | MoveBackward | MoveLeft | MoveRight | MoveUp | MoveDown
    | LookUp | LookDown | LookLeft | LookRight
    | Action1 | Action2 | Action3 | Action4
    | MenuOpen | MenuBack | MenuConfirm | MenuCancel
    | Jump | Crouch | Sprint | Interact
    | CycleLeft | CycleRight
    | Count

  /** Number of real actions: the value of `InputAction::Count`. */
  const ActionCount: nat := 24

  /** True for the 24 real actions, false for the `Count` sentinel. */
  predicate IsReal(a: InputAction) {
    !a.Count?
  }

  /** The enum's integer value (`static_cast<int>(action)`). */
  function Ordinal(a: InputAction): (n: nat)
    ensures n <= ActionCount
    ensures n == ActionCount <==> a.Count?
  {
    match a
    case MoveForward => 0
    case MoveBackward => 1
    case MoveLeft => 2
    case MoveRight => 3
    case MoveUp => 4
    case MoveDown => 5
    case LookUp => 6
    case LookDown => 7
    case LookLeft => 8
    case LookRight => 9
    case Action1 => 10
    case Action2 => 11
    case Action3 => 12
    case Action4 => 13
    case MenuOpen => 14
    case MenuBack => 15
    case MenuConfirm => 16
    case MenuCancel => 17
    case Jump => 18
    case Crouch => 19
    case Sprint => 20
    case Interact => 21
    case CycleLeft => 22
    case CycleRight => 23
    case Count => 24
  }

  /** The action with a given integer value, read off the declaration order. */
  function ActionAt(n: nat): InputAction
    requires n <= ActionCount
  {
    [MoveForward, MoveBackward, MoveLeft, MoveRight, MoveUp, MoveDown,
     LookUp, LookDown, LookLeft, LookRight,
     Action1, Action2, Action3, Action4,
     MenuOpen, MenuBack, MenuConfirm, MenuCancel,
     Jump, Crouch, Sprint, Interact,
     CycleLeft, CycleRight, Count][n]
  }

  /** Every action sits at its own integer value in the declaration order. */
  lemma ActionAtOrdinal(a: InputAction)
    ensures ActionAt(Ordinal(a)) == a
  {
    match a
    case MoveForward =>
    case MoveBackward =>
    case MoveLeft =>
    case MoveRight =>
    case MoveUp =>
    case MoveDown =>
    case LookUp =>
    case LookDown =>
    case LookLeft =>
    case LookRight =>
    case Action1 =>
    case Action2 =>
    case Action3 =>
    case Action4 =>
    case MenuOpen =>
    case MenuBack =>
    case MenuConfirm =>
    case MenuCancel =>
    case Jump =>
    case Crouch =>
    case Sprint =>
    case Interact =>
    case CycleLeft =>
    case CycleRight =>
    case Count =>
  }

  /** Distinct actions have distinct integer values. */
  lemma OrdinalInjective(a: InputAction, b: InputAction)
    ensures Ordinal(a) == Ordinal(b) ==> a == b
  {
    ActionAtOrdinal(a);
    ActionAtOrdinal(b);
  }

  /** The four movement actions the d-pad and the stick drive. */
  predicate IsMove(a: InputAction) {
    a == MoveForward || a == MoveBackward || a == MoveLeft || a == MoveRight
  }

  /**
   * Input device tags. `GameCubeController` and `WiiUGamePad` are used by the GameCube and
   * Wii U platforms and by the gamepad and touch facades, so they are part of the model.
   */
  datatype InputDeviceType =
    | Unknown | KeyboardMouse | Touchscreen | Gamepad | WiiRemote
    | PSController | XboxController | SwitchController
    | GameCubeController | WiiUGamePad

  /**
   * One `bool[InputAction::Count]` array, one field per real action in declaration order.
   * The source indexes the array by `static_cast<int>(action)`; `Get` is that lookup.
   */
  datatype ActionFlags = ActionFlags(
    moveForward: bool, moveBackward: bool, moveLeft: bool, moveRight: bool,
    moveUp: bool, moveDown: bool,
    lookUp: bool, lookDown: bool, lookLeft: bool, lookRight: bool,
    action1: bool, action2: bool, action3: bool, action4: bool,
    menuOpen: bool, menuBack: bool, menuConfirm: bool, menuCancel: bool,
    jump: bool, crouch: bool, sprint: bool, interact: bool,
    cycleLeft: bool, cycleRight: bool)
  {
    function Get(a: InputAction): bool
      requires IsReal(a)
    {
      match a
      case MoveForward => moveForward
      case MoveBackward => moveBackward
      case MoveLeft => moveLeft
      case MoveRight => moveRight
      case MoveUp => moveUp
      case MoveDown => moveDown
      case LookUp => lookUp
      case LookDown => lookDown
      case LookLeft => lookLeft
      case LookRight => lookRight
      case Action1 => action1
      case Action2 => action2
      case Action3 => action3
      case Action4 => action4
      case MenuOpen => menuOpen
      case MenuBack => menuBack
      case MenuConfirm => menuConfirm
      case MenuCancel => menuCancel
      case Jump => jump
      case Crouch => crouch
      case Sprint => sprint
      case Interact => interact
      case CycleLeft => cycleLeft
      case CycleRight => cycleRight
    }
  }

  /** Two flag records agree on every action other than the four movement directions. */
  predicate SameBesidesMoves(a: ActionFlags, b: ActionFlags) {
    a.moveUp == b.moveUp && a.moveDown == b.moveDown
    && a.lookUp == b.lookUp && a.lookDown == b.lookDown
    && a.lookLeft == b.lookLeft && a.lookRight == b.lookRight
    && a.action1 == b.action1 && a.action2 == b.action2
    && a.action3 == b.action3 && a.action4 == b.action4
    && a.menuOpen == b.menuOpen && a.menuBack == b.menuBack
    && a.menuConfirm == b.menuConfirm && a.menuCancel == b.menuCancel
    && a.jump == b.jump && a.crouch == b.crouch && a.sprint == b.sprint && a.interact == b.interact
    && a.cycleLeft == b.cycleLeft && a.cycleRight == b.cycleRight
  }

  /** An array with every flag false. */
  const NoFlags: ActionFlags :=
    ActionFlags(false, false, false, false, false, false, false, false, false, false, false, false,
                false, false, false, false, false, false, false, false, false, false, false, false)

  lemma NoFlagsIsEmpty(a: InputAction)
    requires IsReal(a)
    ensures !NoFlags.Get(a)
  {
  }

  /** The flag record whose set flags are exactly the actions of a set. */
  function FlagsOf(s: set<InputAction>): ActionFlags {
    ActionFlags(MoveForward in s, MoveBackward in s, MoveLeft in s, MoveRight in s,
      MoveUp in s, MoveDown in s, LookUp in s, LookDown in s, LookLeft in s, LookRight in s,
      Action1 in s, Action2 in s, Action3 in s, Action4 in s,
      MenuOpen in s, MenuBack in s, MenuConfirm in s, MenuCancel in s,
      Jump in s, Crouch in s, Sprint in s, Interact in s, CycleLeft in s, CycleRight in s)
  }

  /** Reading an action off `FlagsOf(s)` is membership in `s`. */
  lemma FlagsOfGet(s: set<InputAction>, a: InputAction)
    requires IsReal(a)
    ensures FlagsOf(s).Get(a) <==> a in s
  {
    match a
    case MoveForward =>
    case MoveBackward =>
    case MoveLeft =>
    case MoveRight =>
    case MoveUp =>
    case MoveDown =>
    case LookUp =>
    case LookDown =>
    case LookLeft =>
    case LookRight =>
    case Action1 =>
    case Action2 =>
    case Action3 =>
    case Action4 =>
    case MenuOpen =>
    case MenuBack =>
    case MenuConfirm =>
    case MenuCancel =>
    case Jump =>
    case Crouch =>
    case Sprint =>
    case Interact =>
    case CycleLeft =>
    case CycleRight =>
  }

  /** A pair of reals (`glm::vec2`). */
  datatype Vec2 = Vec2(x: real, y: real)

  const Zero2 := Vec2(0.0, 0.0)

  datatype InputState = InputState(
    actions: ActionFlags,          // pressed this frame
    actionsHeld: ActionFlags,      // held down
    actionsReleased: ActionFlags,  // released this frame
    moveAxisX: real, moveAxisY: real,
    lookAxisX: real, lookAxisY: real,
    pointerX: real, pointerY: real,
    pointerDeltaX: real, pointerDeltaY: real,
    pointerDown: bool,
    scrollDelta: real,
    deviceType: InputDeviceType)
  {
    function IsActionPressed(a: InputAction): bool
      requires IsReal(a)
    {
      actions.Get(a)
    }

    function IsActionHeld(a: InputAction): bool
      requires IsReal(a)
    {
      actionsHeld.Get(a)
    }

    function IsActionReleased(a: InputAction): bool
      requires IsReal(a)
    {
      actionsReleased.Get(a)
    }

    /** Clears the per-frame data: pressed and released flags, pointer delta and scroll. */
    function ResetFrameStates(): (r: InputState)
      ensures forall a :: IsReal(a) ==> !r.IsActionPressed(a) && !r.IsActionReleased(a)
      ensures r.pointerDeltaX == 0.0 && r.pointerDeltaY == 0.0 && r.scrollDelta == 0.0
      ensures r.actionsHeld == actionsHeld && r.deviceType == deviceType
      ensures r.moveAxisX == moveAxisX && r.moveAxisY == moveAxisY
      ensures r.lookAxisX == lookAxisX && r.lookAxisY == lookAxisY
      ensures r.pointerX == pointerX && r.pointerY == pointerY && r.pointerDown == pointerDown
    {
      this.(actions := NoFlags, actionsReleased := NoFlags,
            pointerDeltaX := 0.0, pointerDeltaY := 0.0, scrollDelta := 0.0)
    }
  }

  /** A default-constructed state: every flag false, every number 0, device Unknown. */
  const DefaultState: InputState :=
    InputState(NoFlags, NoFlags, NoFlags, 0.0, 0.0, 0.0, 0.0, 0.0, 0.0, 0.0, 0.0,
               false, 0.0, Unknown)

  lemma DefaultStateIsBlank()
    ensures forall a :: IsReal(a) ==>
      !DefaultState.IsActionPressed(a) && !DefaultState.IsActionHeld(a)
      && !DefaultState.IsActionReleased(a)
    ensures DefaultState.deviceType == Unknown && !DefaultState.pointerDown
    ensures DefaultState.moveAxisX == 0.0 && DefaultState.moveAxisY == 0.0
    ensures DefaultState.lookAxisX == 0.0 && DefaultState.lookAxisY == 0.0
    ensures DefaultState.pointerX == 0.0 && DefaultState.pointerY == 0.0
    ensures DefaultState.pointerDeltaX == 0.0 && DefaultState.pointerDeltaY == 0.0
    ensures DefaultState.scrollDelta == 0.0
  {
  }

  /** Resetting the frame twice is the same as resetting it once. */
  lemma ResetFrameStatesIdempotent(s: InputState)
    ensures s.ResetFrameStates().ResetFrameStates() == s.ResetFrameStates()
  {
  }

  /** A state whose pressed array is built from the actions down now and not before. */
  lemma PressedOfSets(s: InputState, now: set<InputAction>, before: set<InputAction>, a: InputAction)
    requires IsReal(a)
    requires s.actions == FlagsOf(now - before)
    ensures s.IsActionPressed(a) <==> a in now && a !in before
  {
    FlagsOfGet(now - before, a);
  }

  /** A state whose released array is built from the actions down before and not now. */
  lemma ReleasedOfSets(s: InputState, now: set<InputAction>, before: set<InputAction>, a: InputAction)
    requires IsReal(a)
    requires s.actionsReleased == FlagsOf(before - now)
    ensures s.IsActionReleased(a) <==> a !in now && a in before
  {
    FlagsOfGet(before - now, a);
  }

  /** A state whose held array is built from a set holds exactly that set's actions. */
  lemma HeldOfSet(s: InputState, held: set<InputAction>, a: InputAction)
    requires IsReal(a)
    requires s.actionsHeld == FlagsOf(held)
    ensures s.IsActionHeld(a) <==> a in held
  {
    FlagsOfGet(held, a);
  }

  /** Gamepad button slots (`GamepadMapping::MAX_BUTTONS`). */
  const MaxButtons: nat := 32

  datatype GamepadMapping = GamepadMapping(buttonMapping: seq<InputAction>)

  /** The `GamepadMapping` constructor: the loop that marks every slot as unmapped. */
  method NewGamepadMapping() returns (m: GamepadMapping)
    ensures |m.buttonMapping| == MaxButtons
    ensures forall i :: 0 <= i < MaxButtons ==> m.buttonMapping[i] == Count
  {
    var slots: seq<InputAction> := [];
    var i := 0;
    while i < MaxButtons
      invariant 0 <= i <= MaxButtons
      invariant |slots| == i
      invariant forall j :: 0 <= j < i ==> slots[j] == Count
    {
      slots := slots + [Count];
      i := i + 1;
    }
    m := GamepadMapping(slots);
  }
}
