/**
 * The static input facade (InputManager.cpp). The facade reads one optional current state:
 * `None` stands for the null `s_currentState` and every query has a neutral answer for it.
 */
module InputManager {
  import opened Wrappers
  import opened Inputs
  import opened Analog

  /** The state the facade reads from; `None` is the null pointer. */
  type Current = Option<InputState>

  /** `GetButton`: the held flag. */
  function GetButton(cur: Current, a: InputAction): (r: bool)
    requires IsReal(a)
    ensures cur.None? ==> !r
    ensures cur.Some? ==> (r <==> cur.value.IsActionHeld(a))
  {
    match cur
    case None => false
    case Some(s) => s.IsActionHeld(a)
  }

  /** `GetButtonDown`: the pressed-this-frame flag. */
  function GetButtonDown(cur: Current, a: InputAction): (r: bool)
    requires IsReal(a)
    ensures cur.None? ==> !r
    ensures cur.Some? ==> (r <==> cur.value.IsActionPressed(a))
  {
    match cur
    case None => false
    case Some(s) => s.IsActionPressed(a)
  }

  /** `GetButtonUp`: the released-this-frame flag. */
  function GetButtonUp(cur: Current, a: InputAction): (r: bool)
    requires IsReal(a)
    ensures cur.None? ==> !r
    ensures cur.Some? ==> (r <==> cur.value.IsActionReleased(a))
  {
    match cur
    case None => false
    case Some(s) => s.IsActionReleased(a)
  }

  /** The three button queries read the three arrays at the same action. */
  lemma ButtonQueriesReadTheirArrays(s: InputState, a: InputAction)
    requires IsReal(a)
    ensures GetButton(Some(s), a) == s.actionsHeld.Get(a)
    ensures GetButtonDown(Some(s), a) == s.actions.Get(a)
    ensures GetButtonUp(Some(s), a) == s.actionsReleased.Get(a)
  {
  }

  /** The four virtual axes of the state. */
  datatype Axis = MoveX | MoveY | LookX | LookY

  /** The value of an axis in a state. */
  function AxisValue(s: InputState, axis: Axis): real {
    match axis
    case MoveX => s.moveAxisX
    case MoveY => s.moveAxisY
    case LookX => s.lookAxisX
    case LookY => s.lookAxisY
  }

  /** The name chain of `GetAxisInternal`: each axis has a short and a Unity-style name. */
  function AxisOfName(name: string): (r: Option<Axis>)
    ensures r == Some(MoveX) <==> name == "MoveX" || name == "Horizontal"
    ensures r == Some(MoveY) <==> name == "MoveY" || name == "Vertical"
    ensures r == Some(LookX) <==> name == "LookX" || name == "Mouse X"
    ensures r == Some(LookY) <==> name == "LookY" || name == "Mouse Y"
  {
    if name == "MoveX" || name == "Horizontal" then Some(MoveX)
    else if name == "MoveY" || name == "Vertical" then Some(MoveY)
    else if name == "LookX" || name == "Mouse X" then Some(LookX)
    else if name == "LookY" || name == "Mouse Y" then Some(LookY)
    else None
  }

  /** The eight accepted axis names. */
  const AxisNames: set<string> :=
    {"MoveX", "Horizontal", "MoveY", "Vertical", "LookX", "Mouse X", "LookY", "Mouse Y"}

  /** A name is recognised exactly when it is one of the eight. */
  lemma RecognisedNames(name: string)
    ensures AxisOfName(name).Some? <==> name in AxisNames
  {
  }

  /** The short name of each axis, which the lookup maps back to it. */
  function ShortName(axis: Axis): (n: string)
    ensures AxisOfName(n) == Some(axis)
  {
    match axis
    case MoveX => "MoveX"
    case MoveY => "MoveY"
    case LookX => "LookX"
    case LookY => "LookY"
  }

  /** The Unity-style alias of each axis, which the lookup maps back to it. */
  function AliasName(axis: Axis): (n: string)
    ensures AxisOfName(n) == Some(axis)
    ensures n != ShortName(axis)
  {
    match axis
    case MoveX => "Horizontal"
    case MoveY => "Vertical"
    case LookX => "Mouse X"
    case LookY => "Mouse Y"
  }

  /** `GetAxisInternal`: the named axis of the current state; 0 without a state or for an unknown name. */
  function GetAxisInternal(cur: Current, name: string): (r: real)
    ensures cur.None? ==> r == 0.0
    ensures name !in AxisNames ==> r == 0.0
    ensures cur.Some? && (name == "MoveX" || name == "Horizontal") ==> r == cur.value.moveAxisX
    ensures cur.Some? && (name == "MoveY" || name == "Vertical") ==> r == cur.value.moveAxisY
    ensures cur.Some? && (name == "LookX" || name == "Mouse X") ==> r == cur.value.lookAxisX
    ensures cur.Some? && (name == "LookY" || name == "Mouse Y") ==> r == cur.value.lookAxisY
  {
    match cur
    case None => 0.0
    case Some(s) =>
      match AxisOfName(name)
      case None => 0.0
      case Some(axis) => AxisValue(s, axis)
  }

  /** `GetAxis`. */
  function GetAxis(cur: Current, name: string): (r: real)
    ensures r == GetAxisInternal(cur, name)
  {
    GetAxisInternal(cur, name)
  }

  /** `GetAxisRaw`: no smoothing exists yet, so it goes through the same lookup. */
  function GetAxisRaw(cur: Current, name: string): (r: real)
    ensures r == GetAxisInternal(cur, name)
  {
    GetAxisInternal(cur, name)
  }

  /** Raw and smoothed axes agree on every name. */
  lemma AxisRawAgrees(cur: Current, name: string)
    ensures GetAxisRaw(cur, name) == GetAxis(cur, name)
  {
  }

  /** Both names of an axis read the same value. */
  lemma AliasesAgree(s: InputState, axis: Axis)
    ensures GetAxis(Some(s), ShortName(axis)) == GetAxis(Some(s), AliasName(axis)) == AxisValue(s, axis)
  {
  }

  /** `GetMovementVector`. */
  function GetMovementVector(cur: Current): (v: Vec2)
    ensures cur.Some? ==> v == Vec2(GetAxis(cur, "MoveX"), GetAxis(cur, "MoveY"))
    ensures cur.None? ==> v == Zero2
  {
    match cur
    case None => Zero2
    case Some(s) => Vec2(s.moveAxisX, s.moveAxisY)
  }

  /** `GetLookVector`. */
  function GetLookVector(cur: Current): (v: Vec2)
    ensures cur.Some? ==> v == Vec2(GetAxis(cur, "LookX"), GetAxis(cur, "LookY"))
    ensures cur.None? ==> v == Zero2
  {
    match cur
    case None => Zero2
    case Some(s) => Vec2(s.lookAxisX, s.lookAxisY)
  }

  /** `GetPointerPosition`. */
  function GetPointerPosition(cur: Current): (v: Vec2)
    ensures cur.Some? ==> v == Vec2(cur.value.pointerX, cur.value.pointerY)
    ensures cur.None? ==> v == Zero2
  {
    match cur
    case None => Zero2
    case Some(s) => Vec2(s.pointerX, s.pointerY)
  }

  /** `GetPointerDelta`. */
  function GetPointerDelta(cur: Current): (v: Vec2)
    ensures cur.Some? ==> v == Vec2(cur.value.pointerDeltaX, cur.value.pointerDeltaY)
    ensures cur.None? ==> v == Zero2
  {
    match cur
    case None => Zero2
    case Some(s) => Vec2(s.pointerDeltaX, s.pointerDeltaY)
  }

  /** `GetPointerDown`. */
  function GetPointerDown(cur: Current): (r: bool)
    ensures r <==> cur.Some? && cur.value.pointerDown
  {
    cur.Some? && cur.value.pointerDown
  }

  /** `GetScrollDelta`. */
  function GetScrollDelta(cur: Current): (r: real)
    ensures cur.None? ==> r == 0.0
    ensures cur.Some? ==> r == cur.value.scrollDelta
  {
    match cur
    case None => 0.0
    case Some(s) => s.scrollDelta
  }

  /** `GetDeviceType`: Unknown without a state. */
  function GetDeviceType(cur: Current): (d: InputDeviceType)
    ensures cur.None? ==> d == Unknown
    ensures cur.Some? ==> d == cur.value.deviceType
  {
    match cur
    case None => Unknown
    case Some(s) => s.deviceType
  }

  /** `IsDeviceType`. */
  function IsDeviceType(cur: Current, d: InputDeviceType): (r: bool)
    ensures r <==> GetDeviceType(cur) == d
  {
    GetDeviceType(cur) == d
  }

  /** The devices `IsGamepad` accepts. GameCube controllers and the Wii U GamePad are not among them. */
  const GamepadDevices: set<InputDeviceType> :=
    {Gamepad, XboxController, PSController, SwitchController, WiiRemote}

  /** `IsGamepad`: the chain of five device comparisons. */
  function IsGamepad(cur: Current): (r: bool)
    ensures r <==> GetDeviceType(cur) in GamepadDevices
  {
    var d := GetDeviceType(cur);
    d == Gamepad || d == XboxController || d == PSController || d == SwitchController
    || d == WiiRemote
  }

  /** The two Nintendo device tags that the gamepad facade accepts are not gamepads here. */
  lemma NintendoPadsAreNotGamepads(s: InputState)
    requires s.deviceType == GameCubeController || s.deviceType == WiiUGamePad
    ensures !IsGamepad(Some(s))
  {
  }

  /** `IsTouchscreen`. */
  function IsTouchscreen(cur: Current): (r: bool)
    ensures r <==> IsDeviceType(cur, Touchscreen)
  {
    GetDeviceType(cur) == Touchscreen
  }

  /** A device is never both a gamepad and a touchscreen. */
  lemma GamepadAndTouchscreenExclusive(cur: Current)
    ensures !(IsGamepad(cur) && IsTouchscreen(cur))
  {
  }

  /** The cut-off `IsMoving` and `IsLooking` apply to the axes (`0.1f`). */
  const MotionThreshold: real := 0.1

  /** `IsMoving`: an axis beyond the cut-off or any held movement action. */
  function IsMoving(cur: Current): (r: bool)
    ensures cur.None? ==> !r
    ensures cur.Some? ==> (r <==>
      Abs(cur.value.moveAxisX) > MotionThreshold || Abs(cur.value.moveAxisY) > MotionThreshold
      || GetButton(cur, MoveForward) || GetButton(cur, MoveBackward)
      || GetButton(cur, MoveLeft) || GetButton(cur, MoveRight))
  {
    match cur
    case None => false
    case Some(s) =>
      Abs(s.moveAxisX) > MotionThreshold || Abs(s.moveAxisY) > MotionThreshold
      || s.actionsHeld.moveForward || s.actionsHeld.moveBackward
      || s.actionsHeld.moveLeft || s.actionsHeld.moveRight
  }

  /** `IsLooking`: a look axis beyond the cut-off. */
  function IsLooking(cur: Current): (r: bool)
    ensures cur.None? ==> !r
    ensures cur.Some? ==> (r <==>
      Abs(GetAxis(cur, "LookX")) > MotionThreshold || Abs(GetAxis(cur, "LookY")) > MotionThreshold)
  {
    match cur
    case None => false
    case Some(s) => Abs(s.lookAxisX) > MotionThreshold || Abs(s.lookAxisY) > MotionThreshold
  }

  /** A held movement action makes the player moving, whatever the axes read. */
  lemma HeldMoveMeansMoving(s: InputState, a: InputAction)
    requires IsMove(a) && s.IsActionHeld(a)
    ensures IsMoving(Some(s))
  {
  }

  /** Centred axes and no held movement action: not moving. */
  lemma StillMeansNotMoving(s: InputState)
    requires Abs(s.moveAxisX) <= MotionThreshold && Abs(s.moveAxisY) <= MotionThreshold
    requires forall a :: IsMove(a) ==> !s.IsActionHeld(a)
    ensures !IsMoving(Some(s))
  {
    assert !s.IsActionHeld(MoveForward) && !s.IsActionHeld(MoveBackward);
    assert !s.IsActionHeld(MoveLeft) && !s.IsActionHeld(MoveRight);
  }

  /** Without a state every query gives its neutral answer. */
  lemma NoStateIsNeutral(a: InputAction, name: string)
    requires IsReal(a)
    ensures !GetButton(None, a) && !GetButtonDown(None, a) && !GetButtonUp(None, a)
    ensures GetAxis(None, name) == 0.0 && GetAxisRaw(None, name) == 0.0
    ensures GetDeviceType(None) == Unknown && !IsGamepad(None) && !IsTouchscreen(None)
    ensures !IsMoving(None) && !IsLooking(None) && !GetPointerDown(None)
    ensures GetMovementVector(None) == Zero2 && GetLookVector(None) == Zero2
  {
  }

  /** Clearing the per-frame data changes neither what is held nor whether the player moves or looks. */
  lemma FrameResetKeepsMotion(s: InputState, a: InputAction)
    requires IsReal(a)
    ensures GetButton(Some(s.ResetFrameStates()), a) == GetButton(Some(s), a)
    ensures IsMoving(Some(s.ResetFrameStates())) == IsMoving(Some(s))
    ensures IsLooking(Some(s.ResetFrameStates())) == IsLooking(Some(s))
    ensures !GetButtonDown(Some(s.ResetFrameStates()), a) && !GetButtonUp(Some(s.ResetFrameStates()), a)
  {
  }
}
