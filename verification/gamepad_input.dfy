/**
 * The gamepad facade (GamepadInput.cpp): sticks, simulated triggers, the d-pad vector, the
 * face/shoulder/menu button getters, the connection test and the vibration forward.
 * The facade's static fields are one `Facade` record; `SetInputState` returns the new record.
 */
module GamepadInput {
  import opened Wrappers
  import opened Inputs
  import opened Analog
  import InputManager

  /**
   * The facade's static fields: the current state (`None` is null), the two simulated
   * trigger values and whether a platform is attached for vibration.
   */
  datatype Facade = Facade(
    current: Option<InputState>,
    leftTrigger: real,
    rightTrigger: real,
    platformAttached: bool)

  /** The facade before any frame: no state, triggers at 0. */
  function Initial(platformAttached: bool): Facade {
    Facade(None, 0.0, 0.0, platformAttached)
  }

  /** 1 when a flag is set, 0 otherwise (`held ? 1.0f : 0.0f`). */
  function Level(b: bool): (r: real)
    ensures b ==> r == 1.0
    ensures !b ==> r == 0.0
  {
    if b then 1.0 else 0.0
  }

  /**
   * `SetInputState`: stores the state and, when it is non-null, re-derives the triggers from
   * the held Crouch (left) and Sprint (right) flags. A null state keeps the old trigger values.
   */
  function SetInputState(f: Facade, state: Option<InputState>): (r: Facade)
    ensures r.current == state && r.platformAttached == f.platformAttached
    ensures state.Some? ==> r.leftTrigger == (if state.value.actionsHeld.crouch then 1.0 else 0.0)
    ensures state.Some? ==> r.rightTrigger == (if state.value.actionsHeld.sprint then 1.0 else 0.0)
    ensures state.None? ==> r.leftTrigger == f.leftTrigger && r.rightTrigger == f.rightTrigger
  {
    match state
    case None => f.(current := None)
    case Some(s) =>
      f.(current := state, leftTrigger := Level(s.actionsHeld.crouch),
         rightTrigger := Level(s.actionsHeld.sprint))
  }

  /** Triggers are always 0 or 1: they start at 0 and each update writes 0 or 1. */
  predicate TriggersDigital(f: Facade) {
    (f.leftTrigger == 0.0 || f.leftTrigger == 1.0) && (f.rightTrigger == 0.0 || f.rightTrigger == 1.0)
  }

  lemma SetInputStateKeepsTriggersDigital(f: Facade, state: Option<InputState>)
    requires TriggersDigital(f)
    ensures TriggersDigital(SetInputState(f, state))
  {
  }

  /** `GetTriggerLeftDown(threshold)`. */
  function GetTriggerLeftDown(f: Facade, threshold: real): (r: bool)
    ensures r <==> f.leftTrigger > threshold
  {
    f.leftTrigger > threshold
  }

  /** `GetTriggerRightDown(threshold)`. */
  function GetTriggerRightDown(f: Facade, threshold: real): (r: bool)
    ensures r <==> f.rightTrigger > threshold
  {
    f.rightTrigger > threshold
  }

  /** The header's default trigger threshold (`0.5f`). */
  const DefaultTriggerThreshold: real := 0.5

  /**
   * After an update with a state, the triggers are "down" at the default threshold exactly
   * when Crouch and Sprint are held.
   */
  lemma TriggersFollowCrouchAndSprint(f: Facade, s: InputState)
    ensures var g := SetInputState(f, Some(s));
      && (GetTriggerLeftDown(g, DefaultTriggerThreshold) <==> s.IsActionHeld(Crouch))
      && (GetTriggerRightDown(g, DefaultTriggerThreshold) <==> s.IsActionHeld(Sprint))
  {
  }

  /** `GetLeftStickX` / `GetLeftStickY`: the movement axes, 0 without a state. */
  function GetLeftStick(f: Facade): (v: Vec2)
    ensures v == InputManager.GetMovementVector(f.current)
  {
    match f.current
    case None => Zero2
    case Some(s) => Vec2(s.moveAxisX, s.moveAxisY)
  }

  /** One right-stick component: the look axis scaled back by 100 and clamped to [-1, 1]. */
  function RightStickComponent(look: real): (r: real)
    ensures -1.0 <= r <= 1.0
    ensures -100.0 <= look <= 100.0 ==> r == look / 100.0
    ensures look >= 100.0 ==> r == 1.0
    ensures look <= -100.0 ==> r == -1.0
  {
    Clamp(look / 100.0, -1.0, 1.0)
  }

  /** `GetRightStick`: 0 without a state. */
  function GetRightStick(f: Facade): (v: Vec2)
    ensures f.current.None? ==> v == Zero2
    ensures f.current.Some? ==> v == Vec2(RightStickComponent(f.current.value.lookAxisX),
                                          RightStickComponent(f.current.value.lookAxisY))
    ensures -1.0 <= v.x <= 1.0 && -1.0 <= v.y <= 1.0
  {
    match f.current
    case None => Zero2
    case Some(s) => Vec2(RightStickComponent(s.lookAxisX), RightStickComponent(s.lookAxisY))
  }

  /**
   * The platforms write the look axis as 100 times the stick reading; for a stick reading in
   * [-1, 1] the facade recovers it exactly.
   */
  lemma RightStickRecoversReading(stick: real)
    requires -1.0 <= stick <= 1.0
    ensures RightStickComponent(stick * 100.0) == stick
  {
  }

  /**
   * `GetDPad`: x is 1 for held MoveRight (which wins over MoveLeft), -1 for MoveLeft alone,
   * else 0; y is -1 for held MoveBackward (which wins over MoveForward), 1 for MoveForward
   * alone, else 0.
   */
  function GetDPad(f: Facade): (v: Vec2)
    ensures f.current.None? ==> v == Zero2
    ensures f.current.Some? ==> var h := f.current.value.actionsHeld;
      && (h.moveRight ==> v.x == 1.0)
      && (!h.moveRight && h.moveLeft ==> v.x == -1.0)
      && (!h.moveRight && !h.moveLeft ==> v.x == 0.0)
      && (h.moveBackward ==> v.y == -1.0)
      && (!h.moveBackward && h.moveForward ==> v.y == 1.0)
      && (!h.moveBackward && !h.moveForward ==> v.y == 0.0)
  {
    match f.current
    case None => Zero2
    case Some(s) =>
      var x := if s.actionsHeld.moveLeft then -1.0 else 0.0;
      var x := if s.actionsHeld.moveRight then 1.0 else x;
      var y := if s.actionsHeld.moveForward then 1.0 else 0.0;
      var y := if s.actionsHeld.moveBackward then -1.0 else y;
      Vec2(x, y)
  }

  /** The named pad buttons of the facade's getters. */
  datatype PadButton =
    | DPadUp | DPadDown | DPadLeft | DPadRight
    | South | East | West | North
    | ShoulderLeft | ShoulderRight
    | StartButton | SelectButton

  /** The action each getter reads. */
  function ActionOf(b: PadButton): (a: InputAction)
    ensures IsReal(a)
  {
    match b
    case DPadUp => MoveForward
    case DPadDown => MoveBackward
    case DPadLeft => MoveLeft
    case DPadRight => MoveRight
    case South => Action1
    case East => Action2
    case West => Action3
    case North => Action4
    case ShoulderLeft => CycleLeft
    case ShoulderRight => CycleRight
    case StartButton => MenuOpen
    case SelectButton => MenuBack
  }

  /** No two getters read the same action. */
  lemma ActionOfInjective(b: PadButton, c: PadButton)
    ensures ActionOf(b) == ActionOf(c) ==> b == c
  {
  }

  /** `GetButtonSouth`, `GetDPadUp`, ...: the held flag of the button's action, false without a state. */
  function GetPadButton(f: Facade, b: PadButton): (r: bool)
    ensures r == InputManager.GetButton(f.current, ActionOf(b))
  {
    match f.current
    case None => false
    case Some(s) => s.actionsHeld.Get(ActionOf(b))
  }

  /** The d-pad vector and the four d-pad getters tell the same story. */
  lemma DPadVectorMatchesGetters(f: Facade)
    requires f.current.Some?
    ensures GetDPad(f).x == 1.0 <==> GetPadButton(f, DPadRight)
    ensures GetDPad(f).x == -1.0 <==> !GetPadButton(f, DPadRight) && GetPadButton(f, DPadLeft)
    ensures GetDPad(f).y == -1.0 <==> GetPadButton(f, DPadDown)
    ensures GetDPad(f).y == 1.0 <==> !GetPadButton(f, DPadDown) && GetPadButton(f, DPadUp)
  {
  }

  /** The devices `IsConnected` accepts: the gamepad family plus GameCube and Wii U GamePad. */
  const ConnectedDevices: set<InputDeviceType> :=
    {Gamepad, XboxController, PSController, SwitchController, WiiRemote,
     GameCubeController, WiiUGamePad}

  /** `IsConnected(index)`: only player 0, and only with a gamepad-like device. */
  function IsConnected(f: Facade, index: int): (r: bool)
    ensures r <==> index == 0 && f.current.Some? && f.current.value.deviceType in ConnectedDevices
  {
    if index != 0 then false
    else match f.current
      case None => false
      case Some(s) =>
        var d := s.deviceType;
        d == Gamepad || d == XboxController || d == PSController || d == SwitchController
        || d == WiiRemote || d == GameCubeController || d == WiiUGamePad
  }

  /**
   * Every device the input facade calls a gamepad counts as connected here, and the two
   * facades disagree exactly on the GameCube controller and the Wii U GamePad.
   */
  lemma ConnectedExtendsGamepad(f: Facade)
    ensures InputManager.IsGamepad(f.current) ==> IsConnected(f, 0)
    ensures IsConnected(f, 0) && !InputManager.IsGamepad(f.current) <==>
      f.current.Some? && f.current.value.deviceType in {GameCubeController, WiiUGamePad}
  {
  }

  /** `GetGamepadType`. */
  function GetGamepadType(f: Facade): (d: InputDeviceType)
    ensures d == InputManager.GetDeviceType(f.current)
  {
    match f.current
    case None => Unknown
    case Some(s) => s.deviceType
  }

  /**
   * `SetVibration` / `StopVibration`: the controller index forwarded to the platform, or
   * `None` when no platform is attached. The facade always addresses player 0.
   */
  function VibrationTarget(f: Facade): (r: Option<int>)
    ensures r.Some? <==> f.platformAttached
    ensures r.Some? ==> r.value == 0
  {
    if f.platformAttached then Some(0) else None
  }
}
