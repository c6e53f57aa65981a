/**
 * The Nintendo Switch back end (SwitchPlatform.cpp): the default pad is updated once per
 * frame and its button mask and stick positions are translated into the input state. The
 * pad's report is a parameter; the down mask the library also returns is not used.
 */
module SwitchPlatform {
  import opened Inputs
  import opened Analog
  import opened Bindings

  /** The `HidNpadButton_*` bits the back end reads. */
  datatype Button = A | B | X | Y | L | R | ZL | ZR | Plus | Minus

  /** An `int32` stick coordinate in the library's range. */
  predicate IsStick(v: int) {
    -32768 <= v <= 32767
  }

  /** `NormalizeAxis`: divide by 32768, then the plain deadzone of 0.15. */
  function NormalizeAxis(v: int): (r: real)
    requires IsStick(v)
    ensures -1.0 <= r < 1.0
    ensures -4915 <= v <= 4915 ==> r == 0.0
  {
    Deadzone(v as real / 32768.0, 0.15)
  }

  /** One `padUpdate`: the held mask and both sticks. */
  datatype Report = Report(buttons: set<Button>, lx: int, ly: int, rx: int, ry: int)
  {
    predicate Valid() {
      IsStick(lx) && IsStick(ly) && IsStick(rx) && IsStick(ry)
    }
  }

  /** The back end's pad fields. */
  datatype Pad = Pad(buttons: set<Button>, prevButtons: set<Button>,
                     lstickX: int, lstickY: int, rstickX: int, rstickY: int)
  {
    predicate Valid() {
      IsStick(lstickX) && IsStick(lstickY) && IsStick(rstickX) && IsStick(rstickY)
    }
  }

  /** The record after one update: the old mask becomes the previous one. */
  function ReadPad(pad: Pad, d: Report): (p: Pad)
    requires d.Valid()
    ensures p.Valid() && p.prevButtons == pad.buttons && p.buttons == d.buttons
    ensures p.lstickX == d.lx && p.lstickY == d.ly && p.rstickX == d.rx && p.rstickY == d.ry
  {
    Pad(d.buttons, pad.buttons, d.lx, d.ly, d.rx, d.ry)
  }

  /** Axes, button holds, and the pressed flags from `buttons & ~prevButtons`. */
  function MapButtons(p: Pad, s: InputState): (r: InputState)
    requires p.Valid()
    ensures r.moveAxisX == NormalizeAxis(p.lstickX) && r.moveAxisY == -NormalizeAxis(p.lstickY)
    ensures r.lookAxisX == NormalizeAxis(p.rstickX) * 100.0 && r.lookAxisY == -NormalizeAxis(p.rstickY) * 100.0
  {
    var b := p.buttons;
    var pressed := Edges(b, p.prevButtons);
    s.(moveAxisX := NormalizeAxis(p.lstickX), moveAxisY := -NormalizeAxis(p.lstickY),
       lookAxisX := NormalizeAxis(p.rstickX) * 100.0, lookAxisY := -NormalizeAxis(p.rstickY) * 100.0,
       actionsHeld := s.actionsHeld.(
         action1 := A in b, action2 := B in b, action3 := X in b, action4 := Y in b,
         jump := A in b, crouch := ZL in b, sprint := ZR in b,
         cycleLeft := L in b, cycleRight := R in b, menuOpen := Plus in b, menuBack := Minus in b || B in b),
       actions := s.actions.(action1 := A in pressed, action2 := B in pressed, menuOpen := Plus in pressed))
  }

  /**
   * `UpdateGamepadInput` as written: the stick only ever sets movement flags, and nothing
   * clears them, so they keep whatever an earlier frame left.
   */
  function MapPad(p: Pad, s: InputState): (r: InputState)
    requires p.Valid()
    ensures r.actionsHeld.moveForward == (s.actionsHeld.moveForward || r.moveAxisY > StickThreshold)
    ensures r.actionsHeld.moveBackward == (s.actionsHeld.moveBackward || r.moveAxisY < -StickThreshold)
    ensures r.actionsHeld.moveRight == (s.actionsHeld.moveRight || r.moveAxisX > StickThreshold)
    ensures r.actionsHeld.moveLeft == (s.actionsHeld.moveLeft || r.moveAxisX < -StickThreshold)
  {
    var m := MapButtons(p, s);
    m.(actionsHeld := StickToDigital(m.actionsHeld, m.moveAxisX, m.moveAxisY))
  }

  /** Corrected: the movement flags are decided by this frame's stick alone. */
  function MapPadCorrected(p: Pad, s: InputState): (r: InputState)
    requires p.Valid()
    ensures r.actionsHeld.moveForward == (r.moveAxisY > StickThreshold)
    ensures r.actionsHeld.moveBackward == (r.moveAxisY < -StickThreshold)
    ensures r.actionsHeld.moveRight == (r.moveAxisX > StickThreshold)
    ensures r.actionsHeld.moveLeft == (r.moveAxisX < -StickThreshold)
  {
    var m := MapButtons(p, s);
    m.(actionsHeld := StickOnlyMoves(m.actionsHeld, m.moveAxisX, m.moveAxisY))
  }

  /** `PollInput` as written: update, map, tag the device. */
  function PollInput(pad: Pad, d: Report, s: InputState): (r: (Pad, InputState))
    requires d.Valid()
    ensures r.0 == ReadPad(pad, d)
    ensures r.1.deviceType == SwitchController
    ensures r.1.actionsHeld.moveForward == (s.actionsHeld.moveForward || r.1.moveAxisY > StickThreshold)
    ensures r.1.actionsHeld.moveBackward == (s.actionsHeld.moveBackward || r.1.moveAxisY < -StickThreshold)
    ensures r.1.actionsHeld.moveRight == (s.actionsHeld.moveRight || r.1.moveAxisX > StickThreshold)
    ensures r.1.actionsHeld.moveLeft == (s.actionsHeld.moveLeft || r.1.moveAxisX < -StickThreshold)
  {
    var p := ReadPad(pad, d);
    (p, MapPad(p, s).(deviceType := SwitchController))
  }

  /** Corrected `PollInput`: the same poll over the corrected update. */
  function PollInputCorrected(pad: Pad, d: Report, s: InputState): (r: (Pad, InputState))
    requires d.Valid()
    ensures r.0 == ReadPad(pad, d)
    ensures r.1.deviceType == SwitchController
    ensures r.1.actionsHeld.moveForward == (r.1.moveAxisY > StickThreshold)
    ensures r.1.actionsHeld.moveBackward == (r.1.moveAxisY < -StickThreshold)
    ensures r.1.actionsHeld.moveRight == (r.1.moveAxisX > StickThreshold)
    ensures r.1.actionsHeld.moveLeft == (r.1.moveAxisX < -StickThreshold)
  {
    var p := ReadPad(pad, d);
    (p, MapPadCorrected(p, s).(deviceType := SwitchController))
  }

  /** The held mapping: A drives Action1 and Jump, MenuBack is Minus or B. */
  lemma HeldMapping(pad: Pad, d: Report, s: InputState)
    requires d.Valid()
    ensures var h := PollInput(pad, d, s).1.actionsHeld; var b := d.buttons;
      && h.action1 == h.jump == (A in b)
      && h.action2 == (B in b) && h.action3 == (X in b) && h.action4 == (Y in b)
      && h.crouch == (ZL in b) && h.sprint == (ZR in b)
      && h.cycleLeft == (L in b) && h.cycleRight == (R in b) && h.menuOpen == (Plus in b)
      && (h.menuBack <==> Minus in b || B in b)
  {
  }

  /**
   * Pressed flags: A, B and Plus down now and up at the previous update. Jump gets no
   * pressed flag although A holds it.
   */
  lemma PressedMapping(pad: Pad, d: Report, s: InputState)
    requires d.Valid()
    ensures var r := PollInput(pad, d, s).1; var e := r.actions;
      && e.action1 == (A in d.buttons && A !in pad.buttons)
      && e.action2 == (B in d.buttons && B !in pad.buttons)
      && e.menuOpen == (Plus in d.buttons && Plus !in pad.buttons)
      && e.jump == s.actions.jump
      && (A in d.buttons - pad.buttons && !s.actions.jump ==> r.actionsHeld.jump && !r.actions.jump)
  {
  }

  /** Reading the same report twice raises no press the second time. */
  lemma SteadyReadingNoPress(pad: Pad, d: Report, s: InputState)
    requires d.Valid()
    ensures var (p1, r1) := PollInput(pad, d, s);
      var (p2, r2) := PollInput(p1, d, r1);
      && p2.prevButtons == p2.buttons
      && !r2.actions.action1 && !r2.actions.action2 && !r2.actions.menuOpen
  {
  }

  /** The as-written update differs from the corrected one only by keeping earlier movement flags. */
  lemma AsWrittenOnlyAddsMoves(pad: Pad, d: Report, s: InputState)
    requires d.Valid()
    ensures var a := PollInput(pad, d, s).1;
      var r := PollInputCorrected(pad, d, s).1;
      && a.actions == r.actions && a.moveAxisX == r.moveAxisX && a.moveAxisY == r.moveAxisY
      && SameBesidesMoves(a.actionsHeld, r.actionsHeld)
      && a.actionsHeld.moveForward == (s.actionsHeld.moveForward || r.actionsHeld.moveForward)
      && a.actionsHeld.moveBackward == (s.actionsHeld.moveBackward || r.actionsHeld.moveBackward)
      && a.actionsHeld.moveRight == (s.actionsHeld.moveRight || r.actionsHeld.moveRight)
      && a.actionsHeld.moveLeft == (s.actionsHeld.moveLeft || r.actionsHeld.moveLeft)
  {
  }

  /** A report with the left stick fully right, and the same with it centred. */
  const StickRight: Report := Report({}, 32767, 0, 0, 0)
  const StickCentred: Report := Report({}, 0, 0, 0, 0)

  /** As written, MoveRight stays held after the stick returns to the centre. */
  lemma StickLatchesRight(pad: Pad, s: InputState)
    ensures var (p1, r1) := PollInput(pad, StickRight, s);
      var r2 := PollInput(p1, StickCentred, r1).1;
      && r1.actionsHeld.moveRight && r2.moveAxisX == 0.0 && r2.actionsHeld.moveRight
  {
  }

  /** Corrected, the centred frame releases MoveRight. */
  lemma CentredStickReleasesRight(pad: Pad, s: InputState)
    ensures var (p1, r1) := PollInputCorrected(pad, StickRight, s);
      var r2 := PollInputCorrected(p1, StickCentred, r1).1;
      && r1.actionsHeld.moveRight && !r2.actionsHeld.moveRight
  {
  }

  /** The features this back end reports. */
  const Features: set<string> := {"gamepad", "filesystem"}

  /** `HasFeature`. */
  function HasFeature(name: string): (r: bool)
    ensures r <==> name in Features
  {
    name == "gamepad" || name == "filesystem"
  }
}
