/**
 * The Wii U back end (WiiUPlatform.cpp): one `VPADRead` of the GamePad per frame, translated
 * into the input state. The read is a parameter (`None` for any read error).
 */
module WiiUPlatform {
  import opened Wrappers
  import opened Inputs
  import opened Analog
  import opened Bindings

  /** The `VPAD_BUTTON_*` bits the back end reads. */
  datatype Button =
    | A | B | X | Y | L | R | ZL | ZR | Plus | Minus | Home
    | Up | Down | Left | Right

  const StickDeadzone: real := 0.15

  /** `NormalizeAxis`: the GamePad's sticks already read -1..1; only the rescaled deadzone applies. */
  function NormalizeAxis(v: real): (r: real)
    ensures Abs(v) <= 1.0 ==> -1.0 <= r <= 1.0
    ensures Abs(v) < StickDeadzone ==> r == 0.0
  {
    RescaledDeadzone(v, StickDeadzone)
  }

  /** One successful read: the hold mask and the raw stick positions. */
  datatype Status = Status(hold: set<Button>, lx: real, ly: real, rx: real, ry: real)

  /** The back end's pad fields: buttons, previous buttons, normalised sticks. */
  datatype Pad = Pad(buttons: set<Button>, prevButtons: set<Button>,
                     lstickX: real, lstickY: real, rstickX: real, rstickY: real)

  /** The record after one read; a read error releases every button and centres the sticks. */
  function ReadPad(pad: Pad, read: Option<Status>): (p: Pad)
    ensures p.prevButtons == pad.buttons
    ensures read.None? ==> p == Pad({}, pad.buttons, 0.0, 0.0, 0.0, 0.0)
    ensures read.Some? ==> p.buttons == read.value.hold
    ensures read.Some? ==> p.lstickX == NormalizeAxis(read.value.lx) && p.lstickY == NormalizeAxis(read.value.ly)
  {
    match read
    case None => Pad({}, pad.buttons, 0.0, 0.0, 0.0, 0.0)
    case Some(v) =>
      Pad(v.hold, pad.buttons, NormalizeAxis(v.lx), NormalizeAxis(v.ly), NormalizeAxis(v.rx), NormalizeAxis(v.ry))
  }

  /**
   * `UpdateGamepadInput` after the read: axes, button holds, the d-pad on the four movement
   * flags, pressed flags from `buttons & ~prevButtons`, then the stick's digital movement.
   */
  function MapPad(p: Pad, s: InputState): (r: InputState)
    ensures r.moveAxisX == p.lstickX && r.moveAxisY == p.lstickY
    ensures r.lookAxisX == p.rstickX * 100.0 && r.lookAxisY == -p.rstickY * 100.0
  {
    var b := p.buttons;
    var pressed := Edges(b, p.prevButtons);
    var held := s.actionsHeld.(
      action1 := A in b, action2 := B in b, action3 := X in b, action4 := Y in b,
      jump := A in b, crouch := ZL in b, sprint := ZR in b,
      cycleLeft := L in b, cycleRight := R in b,
      menuOpen := Plus in b || Home in b, menuBack := B in b || Minus in b,
      moveForward := Up in b, moveBackward := Down in b, moveLeft := Left in b, moveRight := Right in b);
    s.(moveAxisX := p.lstickX, moveAxisY := p.lstickY,
       lookAxisX := p.rstickX * 100.0, lookAxisY := -p.rstickY * 100.0,
       actionsHeld := StickToDigital(held, p.lstickX, p.lstickY),
       actions := s.actions.(action1 := A in pressed, action2 := B in pressed,
                             menuOpen := Plus in pressed, jump := A in pressed))
  }

  /** `PollInput`: read, map, tag the device. */
  function PollInput(pad: Pad, read: Option<Status>, s: InputState): (r: (Pad, InputState))
    ensures r.0 == ReadPad(pad, read)
    ensures r.1.deviceType == WiiUGamePad
  {
    var p := ReadPad(pad, read);
    (p, MapPad(p, s).(deviceType := WiiUGamePad))
  }

  /** The held mapping: MenuOpen on Plus or Home, MenuBack on B or Minus, movement on d-pad or stick. */
  lemma HeldMapping(pad: Pad, read: Option<Status>, s: InputState)
    ensures var (p, r) := PollInput(pad, read, s); var h := r.actionsHeld; var b := p.buttons;
      && h.action1 == h.jump == (A in b)
      && h.action2 == (B in b) && h.action3 == (X in b) && h.action4 == (Y in b)
      && h.crouch == (ZL in b) && h.sprint == (ZR in b)
      && h.cycleLeft == (L in b) && h.cycleRight == (R in b)
      && (h.menuOpen <==> Plus in b || Home in b)
      && (h.menuBack <==> B in b || Minus in b)
      && (h.moveForward <==> Up in b || p.lstickY > StickThreshold)
      && (h.moveBackward <==> Down in b || p.lstickY < -StickThreshold)
      && (h.moveLeft <==> Left in b || p.lstickX < -StickThreshold)
      && (h.moveRight <==> Right in b || p.lstickX > StickThreshold)
  {
  }

  /**
   * Pressed flags: A (for Action1 and Jump), B and Plus, down now and up before. Home holds
   * MenuOpen but never presses it.
   */
  lemma PressedMapping(pad: Pad, read: Option<Status>, s: InputState)
    ensures var (p, r) := PollInput(pad, read, s); var e := r.actions;
      && e.action1 == e.jump == (A in p.buttons && A !in pad.buttons)
      && e.action2 == (B in p.buttons && B !in pad.buttons)
      && e.menuOpen == (Plus in p.buttons && Plus !in pad.buttons)
      && (Plus !in p.buttons && Home in p.buttons ==> r.actionsHeld.menuOpen && !e.menuOpen)
  {
  }

  /** A read error releases every button-driven action, centres the axes and presses nothing. */
  lemma ReadErrorIsNeutral(pad: Pad, s: InputState)
    ensures var (p, r) := PollInput(pad, None, s); var h := r.actionsHeld;
      && p.buttons == {} && r.moveAxisX == 0.0 && r.moveAxisY == 0.0
      && r.lookAxisX == 0.0 && r.lookAxisY == 0.0
      && !h.action1 && !h.action2 && !h.action3 && !h.action4 && !h.jump && !h.crouch && !h.sprint
      && !h.cycleLeft && !h.cycleRight && !h.menuOpen && !h.menuBack
      && !h.moveForward && !h.moveBackward && !h.moveLeft && !h.moveRight
      && !r.actions.action1 && !r.actions.action2 && !r.actions.menuOpen && !r.actions.jump
  {
  }

  /** With the d-pad written every frame, the movement flags never outlive their cause. */
  lemma MovementTracksInputs(pad: Pad, read: Option<Status>, s: InputState)
    ensures var (p, r) := PollInput(pad, read, s);
      Up !in p.buttons && Down !in p.buttons && -StickThreshold <= p.lstickY <= StickThreshold ==>
        !r.actionsHeld.moveForward && !r.actionsHeld.moveBackward
  {
  }

  /** Reading the same status twice raises no press the second time. */
  lemma SteadyReadingNoPress(pad: Pad, read: Option<Status>, s: InputState)
    ensures var (p1, r1) := PollInput(pad, read, s);
      var (p2, r2) := PollInput(p1, read, r1);
      && p2.prevButtons == p2.buttons
      && !r2.actions.action1 && !r2.actions.action2 && !r2.actions.menuOpen && !r2.actions.jump
  {
  }

  /** The features this back end reports; the GamePad has a touch screen. */
  const Features: set<string> := {"gamepad", "touchscreen", "filesystem"}

  /** `HasFeature`. */
  function HasFeature(name: string): (r: bool)
    ensures r <==> name in Features
  {
    name == "gamepad" || name == "touchscreen" || name == "filesystem"
  }
}
