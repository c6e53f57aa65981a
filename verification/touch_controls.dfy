/**
 * The on-screen controls of the Android and iOS back ends and the per-frame pass over the
 * touch table (`ProcessTouchInput`, `PollInput`); the two back ends share this code line for
 * line.
 *
 * The joystick's square-root clamp and the look accumulators held in function-local statics
 * are supplied from outside: `stick(p)` is the normalised joystick displacement of touch
 * `p` and `look(p)` is the look delta of touch `p`.
 */
module TouchControls {
  import opened Wrappers
  import opened Inputs
  import opened TouchSlots

  /** One on-screen control: a circle, the action it holds and whether it is the joystick. */
  datatype VirtualControl = VirtualControl(x: real, y: real, radius: real, action: InputAction, isJoystick: bool)

  /** The five controls: joystick, A (Action1), B (Action2), X (Jump) and the menu button. */
  const DefaultControls: seq<VirtualControl> := [
    VirtualControl(0.15, 0.85, 0.12, Count, true),
    VirtualControl(0.85, 0.85, 0.06, Action1, false),
    VirtualControl(0.75, 0.80, 0.06, Action2, false),
    VirtualControl(0.85, 0.75, 0.06, Jump, false),
    VirtualControl(0.10, 0.10, 0.05, MenuOpen, false)]

  /** The actions the buttons (not the joystick) of a control list can hold. */
  function ButtonActions(controls: seq<VirtualControl>): set<InputAction> {
    set i | 0 <= i < |controls| && !controls[i].isJoystick :: controls[i].action
  }

  lemma DefaultButtonActions()
    ensures ButtonActions(DefaultControls) == {Action1, Action2, Jump, MenuOpen}
  {
    var b := ButtonActions(DefaultControls);
    assert DefaultControls[1].action in b && DefaultControls[2].action in b;
    assert DefaultControls[3].action in b && DefaultControls[4].action in b;
  }

  /** `IsInsideCircle`: squared distance against squared radius, boundary included. */
  predicate IsInsideCircle(x: real, y: real, cx: real, cy: real, radius: real) {
    (x - cx) * (x - cx) + (y - cy) * (y - cy) <= radius * radius
  }

  predicate Hits(c: VirtualControl, x: real, y: real) {
    !c.isJoystick && IsInsideCircle(x, y, c.x, c.y, c.radius)
  }

  /** The button loop: the index of the first non-joystick control containing the point. */
  function FirstHit(controls: seq<VirtualControl>, x: real, y: real): (r: Option<nat>)
    ensures r.Some? ==> r.value < |controls| && Hits(controls[r.value], x, y)
    ensures r.Some? ==> forall j :: 0 <= j < r.value ==> !Hits(controls[j], x, y)
    ensures r.None? <==> forall j :: 0 <= j < |controls| ==> !Hits(controls[j], x, y)
  {
    if |controls| == 0 then None
    else if Hits(controls[0], x, y) then Some(0)
    else
      match FirstHit(controls[1..], x, y)
      case None => None
      case Some(i) => Some(i + 1)
  }

  /** The action of the first button under the point, if any. */
  function ButtonUnder(controls: seq<VirtualControl>, x: real, y: real): (r: Option<InputAction>)
    ensures r.Some? ==> r.value in ButtonActions(controls)
    ensures r.None? <==> forall j :: 0 <= j < |controls| ==> !Hits(controls[j], x, y)
  {
    match FirstHit(controls, x, y)
    case None => None
    case Some(i) => Some(controls[i].action)
  }

  /** What the pass over the touch table builds up, and the joystick and look touch ids it keeps. */
  datatype Scan = Scan(joystickId: int, lookId: int, buttons: set<InputAction>, joystick: Vec2, lookDelta: Vec2)

  /** The half-screen split between the joystick side and the look side (`0.5f`). */
  const Half: real := 0.5

  /** Adds the action of the button under the touch, if any; reports whether there was one. */
  function PressUnder(acc: Scan, controls: seq<VirtualControl>, p: TouchPoint): (r: (Scan, bool))
    ensures r.1 <==> ButtonUnder(controls, p.x, p.y).Some?
    ensures r.0 == acc.(buttons := r.0.buttons)
    ensures r.0.buttons == acc.buttons + (if r.1 then {ButtonUnder(controls, p.x, p.y).value} else {})
  {
    match ButtonUnder(controls, p.x, p.y)
    case None => (acc, false)
    case Some(a) => (acc.(buttons := acc.buttons + {a}), true)
  }

  /**
   * One active touch. Left half: the joystick touch moves the joystick, or a new touch claims
   * the joystick when it is free. Right half: the look touch looks, or, when look is free, a
   * button under the touch is held and otherwise the touch claims look. A touch none of these
   * handled still holds a button under it.
   */
  function TouchStep(acc: Scan, controls: seq<VirtualControl>, stick: TouchPoint -> Vec2,
                     look: TouchPoint -> Vec2, p: TouchPoint): (r: Scan)
    ensures acc.buttons <= r.buttons <= acc.buttons + ButtonActions(controls)
    ensures r.joystickId == acc.joystickId || (acc.joystickId == -1 && r.joystickId == p.id)
    ensures r.lookId == acc.lookId || (acc.lookId == -1 && r.lookId == p.id)
  {
    var left := p.startX < Half;
    var (acc, handled) :=
      if left && p.id == acc.joystickId then (acc.(joystick := stick(p)), true)
      else if left && acc.joystickId == -1 then (acc.(joystickId := p.id), true)
      else (acc, false);
    var (acc, handled) :=
      if !left && p.id == acc.lookId then (acc.(lookDelta := look(p)), true)
      else if !left && acc.lookId == -1 then
        var (pressed, onButton) := PressUnder(acc, controls, p);
        if onButton then (pressed, true) else (acc.(lookId := p.id), true)
      else (acc, handled);
    if handled then acc else PressUnder(acc, controls, p).0
  }

  /** The loop over the table: every active slot in index order. */
  function ScanSlots(acc: Scan, controls: seq<VirtualControl>, stick: TouchPoint -> Vec2,
                     look: TouchPoint -> Vec2, t: seq<TouchPoint>): (r: Scan)
    ensures acc.buttons <= r.buttons <= acc.buttons + ButtonActions(controls)
    decreases |t|
  {
    if |t| == 0 then acc
    else
      var next := if t[0].active then TouchStep(acc, controls, stick, look, t[0]) else acc;
      ScanSlots(next, controls, stick, look, t[1..])
  }

  /** The per-frame state the back ends keep besides the table. */
  datatype Controller = Controller(
    joystickId: int, lookId: int,
    buttons: set<InputAction>, prevButtons: set<InputAction>)

  /** A new back end: no joystick or look touch, nothing held. */
  const InitialController := Controller(-1, -1, {}, {})

  /**
   * How the held flags are written. `ButtonsOnly` is the code as written: the button copy
   * overwrites the whole held array, so the joystick's movement flags set just before are lost.
   * `ButtonsAndStick` keeps them, which is what the analog-to-digital block is there for.
   */
  datatype HeldRule = ButtonsOnly | ButtonsAndStick

  /** The joystick's cut-off for the digital movement actions (`0.5f`). */
  const StickCut: real := 0.5

  /** The movement actions the joystick holds (screen y grows downwards, so up is forward). */
  function StickMoves(j: Vec2): (m: set<InputAction>)
    ensures MoveForward in m <==> j.y < -StickCut
    ensures MoveBackward in m <==> j.y > StickCut
    ensures MoveLeft in m <==> j.x < -StickCut
    ensures MoveRight in m <==> j.x > StickCut
    ensures forall a :: a in m ==> IsMove(a)
  {
    (if j.y < -StickCut then {MoveForward} else {})
    + (if j.y > StickCut then {MoveBackward} else {})
    + (if j.x < -StickCut then {MoveLeft} else {})
    + (if j.x > StickCut then {MoveRight} else {})
  }

  /** The pass's output: the new controller (previous buttons untouched) and the state. */
  datatype Frame = Frame(controller: Controller, state: InputState)

  /** The held set under each rule. */
  function HeldSet(rule: HeldRule, buttons: set<InputAction>, joystick: Vec2): (h: set<InputAction>)
    ensures rule == ButtonsOnly ==> h == buttons
    ensures rule == ButtonsAndStick ==> h == buttons + StickMoves(joystick)
  {
    match rule
    case ButtonsOnly => buttons
    case ButtonsAndStick => buttons + StickMoves(joystick)
  }

  /** The writes to the output state at the end of the pass. */
  function WriteState(s: InputState, a: Scan, prev: set<InputAction>, rule: HeldRule): (r: InputState)
    ensures r.moveAxisX == a.joystick.x && r.moveAxisY == -a.joystick.y
    ensures r.lookAxisX == a.lookDelta.x && r.lookAxisY == a.lookDelta.y
    ensures r.pointerDeltaX == a.lookDelta.x && r.pointerDeltaY == a.lookDelta.y
    ensures r.actionsHeld == FlagsOf(HeldSet(rule, a.buttons, a.joystick))
    ensures r.actions == FlagsOf(a.buttons - prev)
    ensures r.actionsReleased == FlagsOf(prev - a.buttons)
    ensures r.deviceType == s.deviceType && r.pointerDown == s.pointerDown
    ensures r.pointerX == s.pointerX && r.pointerY == s.pointerY && r.scrollDelta == s.scrollDelta
  {
    s.(moveAxisX := a.joystick.x, moveAxisY := -a.joystick.y,
       lookAxisX := a.lookDelta.x, lookAxisY := a.lookDelta.y,
       pointerDeltaX := a.lookDelta.x, pointerDeltaY := a.lookDelta.y,
       actionsHeld := FlagsOf(HeldSet(rule, a.buttons, a.joystick)),
       actions := FlagsOf(a.buttons - prev),
       actionsReleased := FlagsOf(prev - a.buttons))
  }

  /** An id stays claimed only while an active slot carries it. */
  function StillCarried(t: seq<TouchPoint>, id: int): (r: int)
    ensures r == -1 || (r == id && GetTouchPoint(t, id).Some?)
    ensures GetTouchPoint(t, id).Some? ==> r == id
  {
    if GetTouchPoint(t, id).Some? then id else -1
  }

  /**
   * `ProcessTouchInput`: scans the table, drops the joystick and look ids no active slot
   * carries any more, then writes axes, pointer delta and the three action arrays.
   */
  function ProcessTouchInput(c: Controller, t: seq<TouchPoint>, controls: seq<VirtualControl>,
                             stick: TouchPoint -> Vec2, look: TouchPoint -> Vec2,
                             rule: HeldRule, s: InputState): (r: Frame)
    ensures r.controller.prevButtons == c.prevButtons
    ensures r.controller.buttons <= ButtonActions(controls)
    ensures r.controller.joystickId == -1 || GetTouchPoint(t, r.controller.joystickId).Some?
    ensures r.controller.lookId == -1 || GetTouchPoint(t, r.controller.lookId).Some?
    ensures r.state.pointerDeltaX == r.state.lookAxisX && r.state.pointerDeltaY == r.state.lookAxisY
    ensures r.state.actions == FlagsOf(r.controller.buttons - c.prevButtons)
    ensures r.state.actionsReleased == FlagsOf(c.prevButtons - r.controller.buttons)
    ensures r.state.actionsHeld ==
      FlagsOf(HeldSet(rule, r.controller.buttons, Vec2(r.state.moveAxisX, -r.state.moveAxisY)))
    ensures r.state.deviceType == s.deviceType && r.state.pointerDown == s.pointerDown
  {
    var a := ScanSlots(Scan(c.joystickId, c.lookId, {}, Zero2, Zero2), controls, stick, look, t);
    Frame(Controller(StillCarried(t, a.joystickId), StillCarried(t, a.lookId), a.buttons, c.prevButtons),
          WriteState(s, a, c.prevButtons, rule))
  }

  /** `PollInput`: process the touches, then remember this frame's buttons and tag the device. */
  function PollInput(c: Controller, t: seq<TouchPoint>, controls: seq<VirtualControl>,
                     stick: TouchPoint -> Vec2, look: TouchPoint -> Vec2,
                     rule: HeldRule, s: InputState): (r: Frame)
    ensures r.controller.prevButtons == r.controller.buttons
    ensures r.state.deviceType == Touchscreen
    ensures var f := ProcessTouchInput(c, t, controls, stick, look, rule, s);
      r.controller == f.controller.(prevButtons := f.controller.buttons)
      && r.state == f.state.(deviceType := Touchscreen)
  {
    var f := ProcessTouchInput(c, t, controls, stick, look, rule, s);
    Frame(f.controller.(prevButtons := f.controller.buttons), f.state.(deviceType := Touchscreen))
  }

  /** A touch back end's input fields: the touch table, the control list and the pass's ids and buttons. */
  datatype BackEnd = BackEnd(table: seq<TouchPoint>, controls: seq<VirtualControl>, controller: Controller)

  /** A new back end: ten blank slots, no controls yet, nothing claimed or held. */
  const NewBackEnd := BackEnd(InitialTable, [], InitialController)

  /** One poll of a back end: the pass over its table and controls, then the previous-buttons copy. */
  function PollBackEnd(b: BackEnd, stick: TouchPoint -> Vec2, look: TouchPoint -> Vec2,
                       rule: HeldRule, s: InputState): (r: (BackEnd, InputState))
    ensures r.0.table == b.table && r.0.controls == b.controls
    ensures r.0.controller.prevButtons == r.0.controller.buttons
    ensures r.0.controller.buttons <= ButtonActions(b.controls)
    ensures r.1.deviceType == Touchscreen
  {
    var f := PollInput(b.controller, b.table, b.controls, stick, look, rule, s);
    (b.(controller := f.controller), f.state)
  }

  /**
   * The edge rule, action by action: pressed is "down now, up before", released is "up now,
   * down before", and an action is never pressed and released in the same frame.
   */
  lemma EdgeRule(s: InputState, scan: Scan, prev: set<InputAction>, rule: HeldRule, a: InputAction)
    requires IsReal(a)
    ensures var r := WriteState(s, scan, prev, rule);
      var now := a in scan.buttons; var before := a in prev;
      && (r.IsActionPressed(a) <==> now && !before)
      && (r.IsActionReleased(a) <==> !now && before)
      && !(r.IsActionPressed(a) && r.IsActionReleased(a))
  {
    var r := WriteState(s, scan, prev, rule);
    PressedOfSets(r, scan.buttons, prev, a);
    ReleasedOfSets(r, scan.buttons, prev, a);
  }

  /** Held as written, action by action: exactly the buttons under a finger. */
  lemma HeldAsWritten(s: InputState, scan: Scan, prev: set<InputAction>, a: InputAction)
    requires IsReal(a)
    ensures WriteState(s, scan, prev, ButtonsOnly).IsActionHeld(a) <==> a in scan.buttons
  {
    HeldOfSet(WriteState(s, scan, prev, ButtonsOnly), scan.buttons, a);
  }

  /** Held as corrected, action by action: the buttons under a finger and the joystick's directions. */
  lemma HeldCorrected(s: InputState, scan: Scan, prev: set<InputAction>, a: InputAction)
    requires IsReal(a)
    ensures WriteState(s, scan, prev, ButtonsAndStick).IsActionHeld(a) <==>
      a in scan.buttons || a in StickMoves(scan.joystick)
  {
    HeldOfSet(WriteState(s, scan, prev, ButtonsAndStick), scan.buttons + StickMoves(scan.joystick), a);
  }

  /**
   * After a poll, a frame whose touches hold the same buttons has empty pressed and released
   * arrays.
   */
  lemma SteadyButtonsNoEdges(c: Controller, t: seq<TouchPoint>, controls: seq<VirtualControl>,
                             stick: TouchPoint -> Vec2, look: TouchPoint -> Vec2,
                             rule: HeldRule, s: InputState)
    ensures var r1 := PollInput(c, t, controls, stick, look, rule, s);
      var r2 := ProcessTouchInput(r1.controller, t, controls, stick, look, rule, r1.state);
      r2.controller.buttons == r1.controller.buttons ==>
        r2.state.actions == NoFlags && r2.state.actionsReleased == NoFlags
  {
    var r1 := PollInput(c, t, controls, stick, look, rule, s);
    var r2 := ProcessTouchInput(r1.controller, t, controls, stick, look, rule, r1.state);
    if r2.controller.buttons == r1.controller.buttons {
      assert r2.controller.buttons - r1.controller.prevButtons == {};
      assert r1.controller.prevButtons - r2.controller.buttons == {};
    }
  }

  /**
   * With the movement flags kept, the joystick holds a direction exactly when its axis is past
   * the cut-off (or a button for that direction is held).
   */
  lemma StickHoldsMovement(c: Controller, t: seq<TouchPoint>, controls: seq<VirtualControl>,
                           stick: TouchPoint -> Vec2, look: TouchPoint -> Vec2, s: InputState)
    ensures var r := ProcessTouchInput(c, t, controls, stick, look, ButtonsAndStick, s);
      var h := r.state.actionsHeld; var b := r.controller.buttons;
      && (h.moveForward <==> MoveForward in b || r.state.moveAxisY > StickCut)
      && (h.moveBackward <==> MoveBackward in b || r.state.moveAxisY < -StickCut)
      && (h.moveLeft <==> MoveLeft in b || r.state.moveAxisX < -StickCut)
      && (h.moveRight <==> MoveRight in b || r.state.moveAxisX > StickCut)
  {
  }

  /**
   * As written, with the five default controls, the on-screen joystick never holds a movement
   * action, however far it is pushed.
   */
  lemma AsWrittenStickHoldsNothing(c: Controller, t: seq<TouchPoint>,
                                   stick: TouchPoint -> Vec2, look: TouchPoint -> Vec2, s: InputState)
    ensures var r := ProcessTouchInput(c, t, DefaultControls, stick, look, ButtonsOnly, s);
      var h := r.state.actionsHeld;
      !h.moveForward && !h.moveBackward && !h.moveLeft && !h.moveRight
  {
    var r := ProcessTouchInput(c, t, DefaultControls, stick, look, ButtonsOnly, s);
    DefaultButtonActions();
    assert r.controller.buttons <= {Action1, Action2, Jump, MenuOpen};
    assert r.state.actionsHeld == FlagsOf(r.controller.buttons);
  }

  /** A frame whose only touch is the joystick pushed fully forward. */
  const PushedSlot: TouchPoint := TouchPoint(3, 0.15, 0.73, 0.15, 0.85, true)

  /**
   * The counterexample: the joystick touch (id 3, already claimed) pushed fully forward gives
   * a forward move axis of 1, yet as written MoveForward is not held; the corrected rule
   * holds it.
   */
  lemma PushedJoystickExample(s: InputState)
    ensures var t := InitialTable[0 := PushedSlot];
      var c := Controller(3, -1, {}, {});
      var stick := (p: TouchPoint) => Vec2(0.0, -1.0);
      var look := (p: TouchPoint) => Zero2;
      var asWritten := ProcessTouchInput(c, t, DefaultControls, stick, look, ButtonsOnly, s);
      var corrected := ProcessTouchInput(c, t, DefaultControls, stick, look, ButtonsAndStick, s);
      && asWritten.state.moveAxisY == 1.0 && !asWritten.state.actionsHeld.moveForward
      && corrected.state.moveAxisY == 1.0 && corrected.state.actionsHeld.moveForward
  {
    var t := InitialTable[0 := PushedSlot];
    var c := Controller(3, -1, {}, {});
    var stick := (p: TouchPoint) => Vec2(0.0, -1.0);
    var look := (p: TouchPoint) => Zero2;
    var start := Scan(3, -1, {}, Zero2, Zero2);
    var first := TouchStep(start, DefaultControls, stick, look, PushedSlot);
    assert first.joystick == Vec2(0.0, -1.0);
    InactiveTailKeepsScan(first, DefaultControls, stick, look, t[1..]);
    AsWrittenStickHoldsNothing(c, t, stick, look, s);
  }

  /** Slots not in use leave the scan as it is. */
  lemma {:induction false} InactiveTailKeepsScan(acc: Scan, controls: seq<VirtualControl>,
                                                 stick: TouchPoint -> Vec2, look: TouchPoint -> Vec2,
                                                 t: seq<TouchPoint>)
    requires forall i :: 0 <= i < |t| ==> !t[i].active
    ensures ScanSlots(acc, controls, stick, look, t) == acc
  {
    if |t| > 0 {
      assert forall i :: 0 <= i < |t| - 1 ==> t[1..][i] == t[i + 1];
      InactiveTailKeepsScan(acc, controls, stick, look, t[1..]);
    }
  }
}
