/**
 * The desktop back end (DesktopPlatform.cpp): GLFW keyboard, mouse, scroll and gamepad reads
 * translated into the input state. Every GLFW query becomes a parameter: the keys and mouse
 * buttons down this frame, the cursor position, the scroll offsets the callback receives and
 * the gamepad state (`None` when no joystick is present or its state cannot be read).
 */
module DesktopPlatform {
  import opened Wrappers
  import opened Inputs

  /** The GLFW keys the back end reads. Tab is read and stored but drives no action. */
  datatype Key = W | S | A | D | E | Q | Space | LeftShift | LeftControl | Escape | Enter | Tab

  /** Mouse buttons 0, 1 and 2. */
  datatype MouseButton = Left | Right | Middle

  /** The GLFW gamepad buttons the back end reads. */
  datatype PadButton = PadA | PadB | PadX | PadY | PadStart | PadBack | LeftBumper | RightBumper

  /** One successful `glfwGetGamepadState`: buttons down and the four stick axes. */
  datatype PadState = PadState(buttons: set<PadButton>, leftX: real, leftY: real, rightX: real, rightY: real)

  /**
   * The back end's input fields: key and mouse-button arrays (as the sets of entries that are
   * true) with their previous-frame copies, cursor positions, the frame's scroll, the
   * file-level accumulator the scroll callback adds to (`g_scrollX`, `g_scrollY`), and whether
   * the scroll callback has been registered (the function-level static `scrollCallbackSet`,
   * which the first windowed `PollInput` sets; there is one back end, so one flag).
   */
  datatype Platform = Platform(
    keys: set<Key>, prevKeys: set<Key>,
    buttons: set<MouseButton>, prevButtons: set<MouseButton>,
    mouseX: real, mouseY: real, prevMouseX: real, prevMouseY: real,
    scrollX: real, scrollY: real,
    pendingX: real, pendingY: real,
    callbackSet: bool)

  /**
   * The fields as the constructor leaves them: every array false, every number 0, and no
   * scroll callback registered yet.
   */
  const NewPlatform: Platform := Platform({}, {}, {}, {}, 0.0, 0.0, 0.0, 0.0, 0.0, 0.0, 0.0, 0.0, false)

  // ---------------------------------------------------------------- scroll

  /** `GLFWScrollCallback`: adds one offset to the accumulator. */
  function ScrollCallback(p: Platform, offset: Vec2): (r: Platform)
    ensures r.pendingX == p.pendingX + offset.x && r.pendingY == p.pendingY + offset.y
    ensures r.(pendingX := p.pendingX, pendingY := p.pendingY) == p
  {
    p.(pendingX := p.pendingX + offset.x, pendingY := p.pendingY + offset.y)
  }

  /**
   * The callbacks `glfwPollEvents` fires, in order. Until the callback is registered GLFW has
   * nowhere to send a scroll, so the offsets are dropped.
   */
  function Deliver(p: Platform, offsets: seq<Vec2>): Platform
    decreases |offsets|
  {
    if !p.callbackSet || |offsets| == 0 then p else Deliver(ScrollCallback(p, offsets[0]), offsets[1..])
  }

  function SumX(offsets: seq<Vec2>): real
    decreases |offsets|
  {
    if |offsets| == 0 then 0.0 else offsets[0].x + SumX(offsets[1..])
  }

  function SumY(offsets: seq<Vec2>): real
    decreases |offsets|
  {
    if |offsets| == 0 then 0.0 else offsets[0].y + SumY(offsets[1..])
  }

  /**
   * With the callback registered, delivering a frame's offsets adds their sums to the
   * accumulator; without it nothing changes. Nothing but the accumulator is touched.
   */
  lemma {:induction false} DeliverAdds(p: Platform, offsets: seq<Vec2>)
    ensures p.callbackSet ==> Deliver(p, offsets).pendingX == p.pendingX + SumX(offsets)
    ensures p.callbackSet ==> Deliver(p, offsets).pendingY == p.pendingY + SumY(offsets)
    ensures !p.callbackSet ==> Deliver(p, offsets) == p
    ensures Deliver(p, offsets).(pendingX := p.pendingX, pendingY := p.pendingY) == p
    decreases |offsets|
  {
    if p.callbackSet && |offsets| > 0 {
      DeliverAdds(ScrollCallback(p, offsets[0]), offsets[1..]);
    }
  }

  /**
   * `ProcessEvents`: the callbacks run, the accumulated scroll becomes the frame's scroll and
   * the accumulator is cleared.
   */
  function ProcessEvents(p: Platform, offsets: seq<Vec2>): (r: Platform)
    ensures r.pendingX == 0.0 && r.pendingY == 0.0
    ensures r.keys == p.keys && r.prevKeys == p.prevKeys
    ensures r.buttons == p.buttons && r.prevButtons == p.prevButtons
    ensures r.mouseX == p.mouseX && r.mouseY == p.mouseY
    ensures r.prevMouseX == p.prevMouseX && r.prevMouseY == p.prevMouseY
    ensures r.callbackSet == p.callbackSet
  {
    DeliverAdds(p, offsets);
    var q := Deliver(p, offsets);
    q.(scrollX := q.pendingX, scrollY := q.pendingY, pendingX := 0.0, pendingY := 0.0)
  }

  /**
   * Since the accumulator is empty between frames, a frame's scroll is the sum of its own
   * offsets once the callback is registered, and 0 before.
   */
  lemma FrameScrollIsSum(p: Platform, offsets: seq<Vec2>)
    requires p.pendingX == 0.0 && p.pendingY == 0.0
    ensures p.callbackSet ==> ProcessEvents(p, offsets).scrollX == SumX(offsets)
    ensures p.callbackSet ==> ProcessEvents(p, offsets).scrollY == SumY(offsets)
    ensures !p.callbackSet ==> ProcessEvents(p, offsets).scrollX == 0.0
    ensures !p.callbackSet ==> ProcessEvents(p, offsets).scrollY == 0.0
  {
    DeliverAdds(p, offsets);
  }

  // ---------------------------------------------------------------- keyboard

  function Unit(b: bool): real {
    if b then 1.0 else 0.0
  }

  /** `UpdateKeyboardInput`: stores the keys, writes held and pressed flags and the digital axes. */
  function UpdateKeyboardInput(p: Platform, keys: set<Key>, s: InputState): (r: (Platform, InputState))
    ensures r.0 == p.(keys := keys)
    ensures r.1.deviceType == KeyboardMouse
    ensures r.1.moveAxisY == Unit(W in keys) - Unit(S in keys)
    ensures r.1.moveAxisX == Unit(D in keys) - Unit(A in keys)
  {
    var prev := p.prevKeys;
    var h := s.actionsHeld.(
      moveForward := W in keys, moveBackward := S in keys, moveLeft := A in keys,
      moveRight := D in keys, moveUp := E in keys, moveDown := Q in keys,
      menuOpen := Escape in keys, jump := Space in keys, crouch := LeftShift in keys,
      sprint := LeftControl in keys);
    var e := s.actions.(
      moveForward := W in keys && W !in prev, moveBackward := S in keys && S !in prev,
      moveLeft := A in keys && A !in prev, moveRight := D in keys && D !in prev,
      menuOpen := Escape in keys && Escape !in prev, menuConfirm := Enter in keys && Enter !in prev);
    (p.(keys := keys),
     s.(actionsHeld := h, actions := e,
        moveAxisX := Unit(D in keys) - Unit(A in keys), moveAxisY := Unit(W in keys) - Unit(S in keys),
        deviceType := KeyboardMouse))
  }

  /** Keys map to held actions one to one; Tab drives nothing. */
  lemma KeyboardHeld(p: Platform, keys: set<Key>, s: InputState)
    ensures var h := UpdateKeyboardInput(p, keys, s).1.actionsHeld;
      && h.moveForward == (W in keys) && h.moveBackward == (S in keys)
      && h.moveLeft == (A in keys) && h.moveRight == (D in keys)
      && h.moveUp == (E in keys) && h.moveDown == (Q in keys)
      && h.menuOpen == (Escape in keys) && h.jump == (Space in keys)
      && h.crouch == (LeftShift in keys) && h.sprint == (LeftControl in keys)
  {
  }

  /** Tab is stored with the other keys but changes nothing in the state. */
  lemma TabDrivesNothing(p: Platform, keys: set<Key>, s: InputState)
    ensures UpdateKeyboardInput(p, keys + {Tab}, s).1 == UpdateKeyboardInput(p, keys - {Tab}, s).1
  {
  }

  /** Pressed flags are the keys that went down since the previous poll; each implies its hold. */
  lemma KeyboardPressed(p: Platform, keys: set<Key>, s: InputState)
    ensures var r := UpdateKeyboardInput(p, keys, s).1; var e := r.actions;
      && e.moveForward == (W in keys - p.prevKeys) && e.moveBackward == (S in keys - p.prevKeys)
      && e.moveLeft == (A in keys - p.prevKeys) && e.moveRight == (D in keys - p.prevKeys)
      && e.menuOpen == (Escape in keys - p.prevKeys) && e.menuConfirm == (Enter in keys - p.prevKeys)
      && (e.moveForward ==> r.actionsHeld.moveForward) && (e.menuOpen ==> r.actionsHeld.menuOpen)
  {
  }

  /**
   * The keyboard axes are -1, 0 or 1; an axis is positive exactly when only its positive key is
   * down, and opposite keys cancel.
   */
  lemma KeyboardAxes(p: Platform, keys: set<Key>, s: InputState)
    ensures var r := UpdateKeyboardInput(p, keys, s).1;
      && (r.moveAxisX == -1.0 || r.moveAxisX == 0.0 || r.moveAxisX == 1.0)
      && (r.moveAxisY == -1.0 || r.moveAxisY == 0.0 || r.moveAxisY == 1.0)
      && (r.moveAxisY > 0.0 <==> W in keys && S !in keys)
      && (r.moveAxisY < 0.0 <==> S in keys && W !in keys)
      && (r.moveAxisX > 0.0 <==> D in keys && A !in keys)
      && (r.moveAxisX < 0.0 <==> A in keys && D !in keys)
  {
  }

  /** The keyboard writes no released flag, no look or pointer data, and no mouse action. */
  lemma KeyboardLeavesTheRest(p: Platform, keys: set<Key>, s: InputState)
    ensures var r := UpdateKeyboardInput(p, keys, s).1;
      && r.actionsReleased == s.actionsReleased
      && r.lookAxisX == s.lookAxisX && r.lookAxisY == s.lookAxisY
      && r.pointerX == s.pointerX && r.pointerDeltaX == s.pointerDeltaX
      && r.pointerDown == s.pointerDown && r.scrollDelta == s.scrollDelta
      && r.actionsHeld.action1 == s.actionsHeld.action1 && r.actions.action1 == s.actions.action1
      && r.actions.jump == s.actions.jump && r.actions.cycleRight == s.actions.cycleRight
  {
  }

  // ---------------------------------------------------------------- mouse

  /** The scroll magnitude past which a frame's scroll counts as a cycle press. */
  const ScrollCycleThreshold: real := 0.1

  /**
   * `UpdateMouseInput`: cursor delta since the previous read, position, the look axes from the
   * delta, held/pressed for three buttons, released for two, the scroll and its cycle press.
   */
  function UpdateMouseInput(p: Platform, cursorX: real, cursorY: real, buttons: set<MouseButton>,
                            s: InputState): (r: (Platform, InputState))
    ensures r.0 == p.(mouseX := cursorX, mouseY := cursorY, prevMouseX := cursorX, prevMouseY := cursorY,
                      buttons := buttons)
    ensures r.1.pointerDeltaX == cursorX - p.prevMouseX && r.1.pointerDeltaY == cursorY - p.prevMouseY
    ensures r.1.lookAxisX == r.1.pointerDeltaX && r.1.lookAxisY == r.1.pointerDeltaY
    ensures r.1.pointerX == cursorX && r.1.pointerY == cursorY
    ensures r.1.pointerDown <==> Left in buttons
    ensures r.1.scrollDelta == p.scrollY
    ensures r.1.deviceType == s.deviceType
    ensures r.1.moveAxisX == s.moveAxisX && r.1.moveAxisY == s.moveAxisY
  {
    var prev := p.prevButtons;
    var dx := cursorX - p.prevMouseX;
    var dy := cursorY - p.prevMouseY;
    var up := p.scrollY > ScrollCycleThreshold;
    var down := !up && p.scrollY < -ScrollCycleThreshold;
    var e := s.actions.(
      action1 := Left in buttons && Left !in prev, action2 := Right in buttons && Right !in prev,
      action3 := Middle in buttons && Middle !in prev,
      cycleRight := up || s.actions.cycleRight, cycleLeft := down || s.actions.cycleLeft);
    (p.(mouseX := cursorX, mouseY := cursorY, prevMouseX := cursorX, prevMouseY := cursorY,
        buttons := buttons),
     s.(pointerDeltaX := dx, pointerDeltaY := dy, pointerX := cursorX, pointerY := cursorY,
        lookAxisX := dx, lookAxisY := dy,
        actionsHeld := s.actionsHeld.(action1 := Left in buttons, action2 := Right in buttons,
                                      action3 := Middle in buttons),
        actions := e,
        actionsReleased := s.actionsReleased.(action1 := Left in prev - buttons,
                                              action2 := Right in prev - buttons),
        scrollDelta := p.scrollY, pointerDown := Left in buttons))
  }

  /**
   * Mouse buttons: held is the button being down, pressed its edge; the left and right
   * buttons report their release, the middle button's released flag is never written.
   */
  lemma MouseButtons(p: Platform, x: real, y: real, buttons: set<MouseButton>, s: InputState)
    ensures var r := UpdateMouseInput(p, x, y, buttons, s).1;
      && r.actionsHeld.action1 == (Left in buttons) && r.actionsHeld.action2 == (Right in buttons)
      && r.actionsHeld.action3 == (Middle in buttons)
      && r.actions.action1 == (Left in buttons - p.prevButtons)
      && r.actions.action2 == (Right in buttons - p.prevButtons)
      && r.actions.action3 == (Middle in buttons - p.prevButtons)
      && r.actionsReleased.action1 == (Left in p.prevButtons - buttons)
      && r.actionsReleased.action2 == (Right in p.prevButtons - buttons)
      && r.actionsReleased.action3 == s.actionsReleased.action3
      && !(r.actions.action1 && r.actionsReleased.action1)
  {
  }

  /**
   * Scrolling past the threshold raises a cycle press in its direction; a smaller scroll, or
   * the other direction, leaves the cycle flags as they were (the flags are only ever set).
   */
  lemma ScrollCycles(p: Platform, x: real, y: real, buttons: set<MouseButton>, s: InputState)
    ensures var r := UpdateMouseInput(p, x, y, buttons, s).1;
      && (p.scrollY > ScrollCycleThreshold ==> r.actions.cycleRight && r.actions.cycleLeft == s.actions.cycleLeft)
      && (p.scrollY < -ScrollCycleThreshold ==> r.actions.cycleLeft && r.actions.cycleRight == s.actions.cycleRight)
      && (-ScrollCycleThreshold <= p.scrollY <= ScrollCycleThreshold ==>
            r.actions.cycleLeft == s.actions.cycleLeft && r.actions.cycleRight == s.actions.cycleRight)
  {
  }

  // ---------------------------------------------------------------- gamepad

  /**
   * `UpdateGamepadInput`: with a pad read, the device becomes `Gamepad`, its sticks replace the
   * axes and its buttons replace the held flags they share with the keyboard and mouse.
   * Without one nothing changes.
   */
  function UpdateGamepadInput(pad: Option<PadState>, s: InputState): (r: InputState)
    ensures pad.None? ==> r == s
    ensures pad.Some? ==>
      && r.deviceType == Gamepad
      && r.moveAxisX == pad.value.leftX && r.moveAxisY == pad.value.leftY
      && r.lookAxisX == pad.value.rightX && r.lookAxisY == pad.value.rightY
    ensures pad.Some? ==> var b := pad.value.buttons;
      && r.actionsHeld.action1 == r.actionsHeld.jump == (PadA in b)
      && r.actionsHeld.menuOpen == (PadStart in b) && r.actionsHeld.menuBack == (PadBack in b)
      && r.actionsHeld.cycleLeft == (LeftBumper in b) && r.actionsHeld.cycleRight == (RightBumper in b)
    ensures r.actions == s.actions && r.actionsReleased == s.actionsReleased
  {
    match pad
    case None => s
    case Some(g) =>
      var b := g.buttons;
      s.(deviceType := Gamepad,
         moveAxisX := g.leftX, moveAxisY := g.leftY, lookAxisX := g.rightX, lookAxisY := g.rightY,
         actionsHeld := s.actionsHeld.(
           action1 := PadA in b, action2 := PadB in b, action3 := PadX in b, action4 := PadY in b,
           jump := PadA in b, menuOpen := PadStart in b, menuBack := PadBack in b,
           cycleLeft := LeftBumper in b, cycleRight := RightBumper in b))
  }

  // ---------------------------------------------------------------- the frame

  /** What GLFW reports during one `PollInput`. */
  datatype Reads = Reads(keys: set<Key>, cursorX: real, cursorY: real, buttons: set<MouseButton>,
                         pad: Option<PadState>)

  /**
   * `PollInput`: nothing happens without a window; otherwise the scroll callback is registered
   * if it was not yet, keyboard, mouse and gamepad are read in that order, and the key and
   * button arrays are copied into their previous-frame copies.
   */
  function PollInput(p: Platform, window: bool, d: Reads, s: InputState): (r: (Platform, InputState))
    ensures !window ==> r == (p, s)
    ensures window ==> r.0.keys == r.0.prevKeys == d.keys && r.0.buttons == r.0.prevButtons == d.buttons
    ensures window ==> r.0.prevMouseX == d.cursorX && r.0.prevMouseY == d.cursorY
    ensures r.0.scrollX == p.scrollX && r.0.scrollY == p.scrollY
    ensures r.0.pendingX == p.pendingX && r.0.pendingY == p.pendingY
    ensures r.0.callbackSet == (p.callbackSet || window)
    ensures window ==> r.1.deviceType == (if d.pad.Some? then Gamepad else KeyboardMouse)
  {
    if !window then (p, s)
    else
      var (p1, s1) := UpdateKeyboardInput(p, d.keys, s);
      var (p2, s2) := UpdateMouseInput(p1, d.cursorX, d.cursorY, d.buttons, s1);
      var s3 := UpdateGamepadInput(d.pad, s2);
      (p2.(prevKeys := p2.keys, prevButtons := p2.buttons, callbackSet := true), s3)
  }

  /**
   * Scrolls that arrive before the first windowed poll are lost: the frame reports none.
   * After that poll has registered the callback, the next frame reports their sum.
   */
  lemma ScrollBeforeFirstPollIsLost(offsets: seq<Vec2>, d: Reads, s: InputState)
    ensures ProcessEvents(NewPlatform, offsets).scrollX == 0.0
    ensures ProcessEvents(NewPlatform, offsets).scrollY == 0.0
    ensures var p := PollInput(NewPlatform, true, d, s).0;
      ProcessEvents(p, offsets).scrollX == SumX(offsets) && ProcessEvents(p, offsets).scrollY == SumY(offsets)
  {
    FrameScrollIsSum(NewPlatform, offsets);
    FrameScrollIsSum(PollInput(NewPlatform, true, d, s).0, offsets);
  }

  /** Without a pad the keyboard drives the axes and the device stays `KeyboardMouse`. */
  lemma NoPadKeyboardAxes(p: Platform, d: Reads, s: InputState)
    requires d.pad.None?
    ensures var r := PollInput(p, true, d, s).1;
      && r.moveAxisY == Unit(W in d.keys) - Unit(S in d.keys)
      && r.moveAxisX == Unit(D in d.keys) - Unit(A in d.keys)
      && r.lookAxisX == d.cursorX - p.prevMouseX && r.lookAxisY == d.cursorY - p.prevMouseY
  {
  }

  /**
   * With a pad read, its buttons decide the shared held flags: a left click that is new this
   * frame is reported pressed but, with A up, not held; Space alone no longer holds Jump.
   */
  lemma PadOverridesHeld(p: Platform, d: Reads, s: InputState)
    requires d.pad.Some? && PadA !in d.pad.value.buttons
    requires Left in d.buttons && Left !in p.prevButtons
    ensures var r := PollInput(p, true, d, s).1;
      && r.actions.action1 && !r.actionsHeld.action1 && !r.actionsHeld.jump
      && r.deviceType == Gamepad
  {
  }

  /** Polling the same keys and buttons twice raises no key or button press the second time. */
  lemma SteadyReadsNoPress(p: Platform, d: Reads, s: InputState)
    ensures var (p1, s1) := PollInput(p, true, d, s);
      var r := PollInput(p1, true, d, s1).1;
      && !r.actions.moveForward && !r.actions.moveBackward && !r.actions.moveLeft && !r.actions.moveRight
      && !r.actions.menuOpen && !r.actions.menuConfirm
      && !r.actions.action1 && !r.actions.action2 && !r.actions.action3
      && !r.actionsReleased.action1 && !r.actionsReleased.action2
      && r.pointerDeltaX == 0.0 && r.pointerDeltaY == 0.0
  {
    var (p1, s1) := PollInput(p, true, d, s);
    assert p1.prevKeys == d.keys && p1.prevButtons == d.buttons;
    assert p1.prevMouseX == d.cursorX && p1.prevMouseY == d.cursorY;
  }

  /**
   * The first poll measures the cursor delta from the origin the constructor leaves in the
   * previous position, so its pointer delta (and the look axes without a pad) is the cursor's
   * absolute position.
   */
  lemma FirstPollDeltaIsPosition(d: Reads, s: InputState)
    ensures var r := PollInput(NewPlatform, true, d, s).1;
      && r.pointerDeltaX == d.cursorX && r.pointerDeltaY == d.cursorY
      && (d.pad.None? ==> r.lookAxisX == d.cursorX && r.lookAxisY == d.cursorY)
  {
  }

  /**
   * `ResetInputFrameState`: clears the state's per-frame data and the frame's scroll; the
   * accumulator, arrays and cursor fields are kept.
   */
  function ResetInputFrameState(p: Platform, s: InputState): (r: (Platform, InputState))
    ensures r.0.scrollX == 0.0 && r.0.scrollY == 0.0
    ensures r.0.(scrollX := p.scrollX, scrollY := p.scrollY) == p
    ensures r.1.actions == NoFlags && r.1.actionsReleased == NoFlags
    ensures r.1.actionsHeld == s.actionsHeld && r.1.scrollDelta == 0.0
  {
    (p.(scrollX := 0.0, scrollY := 0.0), s.ResetFrameStates())
  }

  /**
   * A scroll is seen by one frame only: after the reset, a poll with no new `ProcessEvents`
   * reports no scroll and raises no cycle press.
   */
  lemma ScrollSeenOnce(p: Platform, d: Reads, s: InputState)
    ensures var (p1, s1) := ResetInputFrameState(p, s);
      var r := PollInput(p1, true, d, s1).1;
      && r.scrollDelta == 0.0 && !r.actions.cycleLeft && !r.actions.cycleRight
  {
  }

  /** The features this back end reports. */
  const Features: set<string> := {"mouse", "keyboard", "gamepad", "filesystem"}

  /** `HasFeature`. */
  function HasFeature(name: string): (r: bool)
    ensures r <==> name in Features
  {
    name == "mouse" || name == "keyboard" || name == "gamepad" || name == "filesystem"
  }
}
