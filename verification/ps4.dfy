/**
 * The PlayStation 4 back end (PS4Platform.cpp): the pad opened for the initial user is read
 * once per frame and translated into the input state. The pad handle is part of the back
 * end's record; the result of `scePadReadState` is a parameter (`None` when the read fails
 * or reports the pad disconnected).
 */
module Ps4Platform {
  import opened Wrappers
  import opened Inputs
  import opened Analog
  import opened Bindings

  /** The `SCE_PAD_BUTTON_*` bits the back end reads. */
  datatype Button = Cross | Circle | Square | Triangle | L1 | R1 | Options | TouchPad

  /** The trigger value above which L2 and R2 count as pressed (`> 64`, on the raw byte). */
  const TriggerCut: int := 64

  predicate IsByte(v: int) {
    0 <= v <= 255
  }

  /** `NormalizeAxis`: centre 128, divide by 128, then the plain deadzone of 0.15. */
  function NormalizeAxis(v: int): (r: real)
    requires IsByte(v)
    ensures -1.0 <= r < 1.0
    ensures v == 128 ==> r == 0.0
  {
    Deadzone((v - 128) as real / 128.0, 0.15)
  }

  /** One successful read of a connected pad. */
  datatype Report = Report(buttons: set<Button>, lx: int, ly: int, rx: int, ry: int, l2: int, r2: int)
  {
    predicate Valid() {
      IsByte(lx) && IsByte(ly) && IsByte(rx) && IsByte(ry) && IsByte(l2) && IsByte(r2)
    }
  }

  /** The back end's pad fields: handle, buttons and their previous copy, sticks and triggers. */
  datatype Pad = Pad(handle: int, buttons: set<Button>, prevButtons: set<Button>,
                     lstickX: int, lstickY: int, rstickX: int, rstickY: int, l2: int, r2: int)
  {
    predicate Valid() {
      IsByte(lstickX) && IsByte(lstickY) && IsByte(rstickX) && IsByte(rstickY) && IsByte(l2) && IsByte(r2)
    }
  }

  /** The fields as declared: no pad open, nothing down, sticks centred. */
  const NewPad: Pad := Pad(-1, {}, {}, 128, 128, 128, 128, 0, 0)

  /** The record after one read of an open pad; a failed read restores the defaults. */
  function ReadPad(pad: Pad, read: Option<Report>): (p: Pad)
    requires read.Some? ==> read.value.Valid()
    ensures p.Valid() && p.handle == pad.handle && p.prevButtons == pad.buttons
    ensures read.None? ==> p == Pad(pad.handle, {}, pad.buttons, 128, 128, 128, 128, 0, 0)
    ensures read.Some? ==> var d := read.value;
      p == Pad(pad.handle, d.buttons, pad.buttons, d.lx, d.ly, d.rx, d.ry, d.l2, d.r2)
  {
    match read
    case None => Pad(pad.handle, {}, pad.buttons, 128, 128, 128, 128, 0, 0)
    case Some(d) => Pad(pad.handle, d.buttons, pad.buttons, d.lx, d.ly, d.rx, d.ry, d.l2, d.r2)
  }

  /** Axes, button and trigger holds, and the pressed flags from `buttons & ~prevButtons`. */
  function MapButtons(p: Pad, s: InputState): (r: InputState)
    requires p.Valid()
    ensures r.moveAxisX == NormalizeAxis(p.lstickX) && r.moveAxisY == -NormalizeAxis(p.lstickY)
    ensures r.lookAxisX == NormalizeAxis(p.rstickX) * 100.0 && r.lookAxisY == -NormalizeAxis(p.rstickY) * 100.0
  {
    var b := p.buttons;
    var pressed := Edges(b, p.prevButtons);
    s.(moveAxisX := NormalizeAxis(p.lstickX), moveAxisY := -NormalizeAxis(p.lstickY),
       lookAxisX := NormalizeAxis(p.rstickX) * 100.0, lookAxisY := -NormalizeAxis(p.rstickY) * 100.0,
       actionsHeld := s.actionsHeld.(
         action1 := Cross in b, action2 := Circle in b, action3 := Square in b, action4 := Triangle in b,
         jump := Cross in b, crouch := p.l2 > TriggerCut, sprint := p.r2 > TriggerCut,
         cycleLeft := L1 in b, cycleRight := R1 in b, menuOpen := Options in b, menuBack := Circle in b),
       actions := s.actions.(action1 := Cross in pressed, action2 := Circle in pressed,
                             menuOpen := Options in pressed))
  }

  /**
   * `UpdateGamepadInput` for an open pad as written: the stick only ever sets movement flags,
   * and nothing clears them, so they keep whatever an earlier frame left.
   */
  function MapPad(p: Pad, s: InputState): (r: InputState)
    requires p.Valid()
    ensures r.actionsHeld.moveForward == (s.actionsHeld.moveForward || r.moveAxisY > StickThreshold)
    ensures r.actionsHeld.moveBackward == (s.actionsHeld.moveBackward || r.moveAxisY < -StickThreshold)
    ensures r.actionsHeld.moveRight == (s.actionsHeld.moveRight || r.moveAxisX > StickThreshold)
    ensures r.actionsHeld.moveLeft == (s.actionsHeld.moveLeft || r.moveAxisX < -StickThreshold)
  {
    var m := MapButtons(p, s);
    m.(actionsHeld := StickToDigital(m.actionsHeld, m.moveAxisX, m.moveAxisY))
  }

  /** Corrected: the movement flags are decided by this frame's stick alone. */
  function MapPadCorrected(p: Pad, s: InputState): (r: InputState)
    requires p.Valid()
    ensures r.actionsHeld.moveForward == (r.moveAxisY > StickThreshold)
    ensures r.actionsHeld.moveBackward == (r.moveAxisY < -StickThreshold)
    ensures r.actionsHeld.moveRight == (r.moveAxisX > StickThreshold)
    ensures r.actionsHeld.moveLeft == (r.moveAxisX < -StickThreshold)
  {
    var m := MapButtons(p, s);
    m.(actionsHeld := StickOnlyMoves(m.actionsHeld, m.moveAxisX, m.moveAxisY))
  }

  /**
   * `PollInput` as written: with no open pad (handle below 0) the update returns at once and
   * only the device tag is written; otherwise the pad is read and mapped.
   */
  function PollInput(pad: Pad, read: Option<Report>, s: InputState): (r: (Pad, InputState))
    requires read.Some? ==> read.value.Valid()
    ensures pad.handle < 0 ==> r == (pad, s.(deviceType := PSController))
    ensures pad.handle >= 0 ==> r.0 == ReadPad(pad, read)
    ensures r.1.deviceType == PSController
    ensures pad.handle >= 0 ==>
      && r.1.actionsHeld.moveForward == (s.actionsHeld.moveForward || r.1.moveAxisY > StickThreshold)
      && r.1.actionsHeld.moveBackward == (s.actionsHeld.moveBackward || r.1.moveAxisY < -StickThreshold)
      && r.1.actionsHeld.moveRight == (s.actionsHeld.moveRight || r.1.moveAxisX > StickThreshold)
      && r.1.actionsHeld.moveLeft == (s.actionsHeld.moveLeft || r.1.moveAxisX < -StickThreshold)
  {
    if pad.handle < 0 then (pad, s.(deviceType := PSController))
    else
      var p := ReadPad(pad, read);
      (p, MapPad(p, s).(deviceType := PSController))
  }

  /** Corrected `PollInput`: the same poll over the corrected update. */
  function PollInputCorrected(pad: Pad, read: Option<Report>, s: InputState): (r: (Pad, InputState))
    requires read.Some? ==> read.value.Valid()
    ensures pad.handle < 0 ==> r == (pad, s.(deviceType := PSController))
    ensures pad.handle >= 0 ==> r.0 == ReadPad(pad, read)
    ensures r.1.deviceType == PSController
    ensures pad.handle >= 0 ==>
      && r.1.actionsHeld.moveForward == (r.1.moveAxisY > StickThreshold)
      && r.1.actionsHeld.moveBackward == (r.1.moveAxisY < -StickThreshold)
      && r.1.actionsHeld.moveRight == (r.1.moveAxisX > StickThreshold)
      && r.1.actionsHeld.moveLeft == (r.1.moveAxisX < -StickThreshold)
  {
    if pad.handle < 0 then (pad, s.(deviceType := PSController))
    else
      var p := ReadPad(pad, read);
      (p, MapPadCorrected(p, s).(deviceType := PSController))
  }

  /** The held mapping of an open pad; the triggers hold Crouch and Sprint above 64 on the raw byte. */
  lemma HeldMapping(pad: Pad, read: Option<Report>, s: InputState)
    requires read.Some? ==> read.value.Valid()
    requires pad.handle >= 0
    ensures var (p, r) := PollInput(pad, read, s); var h := r.actionsHeld; var b := p.buttons;
      && h.action1 == h.jump == (Cross in b)
      && h.action2 == h.menuBack == (Circle in b)
      && h.action3 == (Square in b) && h.action4 == (Triangle in b)
      && h.cycleLeft == (L1 in b) && h.cycleRight == (R1 in b) && h.menuOpen == (Options in b)
      && h.crouch == (p.l2 > 64) && h.sprint == (p.r2 > 64)
  {
  }

  /** Pressed flags: Cross, Circle and Options down now and up at the previous read. */
  lemma PressedMapping(pad: Pad, read: Option<Report>, s: InputState)
    requires read.Some? ==> read.value.Valid()
    requires pad.handle >= 0
    ensures var (p, r) := PollInput(pad, read, s); var e := r.actions;
      && e.action1 == (Cross in p.buttons && Cross !in pad.buttons)
      && e.action2 == (Circle in p.buttons && Circle !in pad.buttons)
      && e.menuOpen == (Options in p.buttons && Options !in pad.buttons)
      && e.jump == s.actions.jump
  {
  }

  /**
   * A failed read centres the sticks, zeroes the triggers and releases every button; the
   * movement flags keep whatever the incoming state held.
   */
  lemma FailedReadIsNeutral(pad: Pad, s: InputState)
    requires pad.handle >= 0
    ensures var (p, r) := PollInput(pad, None, s); var h := r.actionsHeld;
      && p.buttons == {} && p.l2 == 0 && p.r2 == 0
      && r.moveAxisX == 0.0 && r.moveAxisY == 0.0 && r.lookAxisX == 0.0 && r.lookAxisY == 0.0
      && !h.action1 && !h.action2 && !h.action3 && !h.action4 && !h.jump && !h.crouch && !h.sprint
      && !h.cycleLeft && !h.cycleRight && !h.menuOpen && !h.menuBack
      && h.moveForward == s.actionsHeld.moveForward && h.moveBackward == s.actionsHeld.moveBackward
      && h.moveLeft == s.actionsHeld.moveLeft && h.moveRight == s.actionsHeld.moveRight
      && !r.actions.action1 && !r.actions.action2 && !r.actions.menuOpen
  {
  }

  /** Corrected, a failed read also releases the four movement flags. */
  lemma FailedReadIsNeutralCorrected(pad: Pad, s: InputState)
    requires pad.handle >= 0
    ensures var (p, r) := PollInputCorrected(pad, None, s); var h := r.actionsHeld;
      && p.buttons == {} && r.moveAxisX == 0.0 && r.moveAxisY == 0.0
      && !h.action1 && !h.action2 && !h.action3 && !h.action4 && !h.jump && !h.crouch && !h.sprint
      && !h.cycleLeft && !h.cycleRight && !h.menuOpen && !h.menuBack
      && !h.moveForward && !h.moveBackward && !h.moveLeft && !h.moveRight
  {
  }

  /** Without an open pad nothing but the device tag changes, however often it is polled. */
  lemma ClosedPadKeepsState(pad: Pad, read: Option<Report>, s: InputState)
    requires read.Some? ==> read.value.Valid()
    requires pad.handle < 0
    ensures var (p1, r1) := PollInput(pad, read, s);
      PollInput(p1, read, r1) == (pad, s.(deviceType := PSController))
  {
  }

  /** Reading the same report twice raises no press the second time. */
  lemma SteadyReadingNoPress(pad: Pad, read: Option<Report>, s: InputState)
    requires read.Some? ==> read.value.Valid()
    ensures var (p1, r1) := PollInput(pad, read, s);
      var (p2, r2) := PollInput(p1, read, r1);
      pad.handle >= 0 ==> !r2.actions.action1 && !r2.actions.action2 && !r2.actions.menuOpen
  {
  }

  /** The as-written update differs from the corrected one only by keeping earlier movement flags. */
  lemma AsWrittenOnlyAddsMoves(pad: Pad, read: Option<Report>, s: InputState)
    requires read.Some? ==> read.value.Valid()
    ensures var a := PollInput(pad, read, s).1;
      var r := PollInputCorrected(pad, read, s).1;
      && a.actions == r.actions && a.moveAxisX == r.moveAxisX && a.moveAxisY == r.moveAxisY
      && SameBesidesMoves(a.actionsHeld, r.actionsHeld)
      && (pad.handle >= 0 ==>
            && a.actionsHeld.moveForward == (s.actionsHeld.moveForward || r.actionsHeld.moveForward)
            && a.actionsHeld.moveBackward == (s.actionsHeld.moveBackward || r.actionsHeld.moveBackward)
            && a.actionsHeld.moveRight == (s.actionsHeld.moveRight || r.actionsHeld.moveRight)
            && a.actionsHeld.moveLeft == (s.actionsHeld.moveLeft || r.actionsHeld.moveLeft))
      && (pad.handle < 0 ==> a == r)
  {
  }

  /** A report with the left stick pushed fully left (horizontal byte 0). */
  const StickLeft: Report := Report({}, 0, 128, 128, 128, 0, 0)

  /** The same report with the stick centred. */
  const StickCentred: Report := Report({}, 128, 128, 128, 128, 0, 0)

  /** As written, MoveLeft stays held after the stick returns to the centre. */
  lemma StickLatchesLeft(pad: Pad, s: InputState)
    requires pad.handle >= 0
    ensures var (p1, r1) := PollInput(pad, Some(StickLeft), s);
      var r2 := PollInput(p1, Some(StickCentred), r1).1;
      && r1.actionsHeld.moveLeft && r2.moveAxisX == 0.0 && r2.actionsHeld.moveLeft
  {
    assert NormalizeAxis(0) == -1.0;
  }

  /** Corrected, the centred frame releases MoveLeft. */
  lemma CentredStickReleasesLeft(pad: Pad, s: InputState)
    requires pad.handle >= 0
    ensures var (p1, r1) := PollInputCorrected(pad, Some(StickLeft), s);
      var r2 := PollInputCorrected(p1, Some(StickCentred), r1).1;
      && r1.actionsHeld.moveLeft && !r2.actionsHeld.moveLeft
  {
    assert NormalizeAxis(0) == -1.0;
  }

  /**
   * `Shutdown`: an open pad is closed and the handle set to -1. The result also names the
   * handle passed to `scePadClose`, if any.
   */
  function Shutdown(pad: Pad): (r: (Pad, Option<int>))
    ensures r.0.handle == -1 || (r.0.handle == pad.handle && pad.handle < 0)
    ensures r.1.Some? <==> pad.handle >= 0
    ensures r.1.Some? ==> r.1.value == pad.handle
    ensures r.0 == pad.(handle := r.0.handle)
  {
    if pad.handle >= 0 then (pad.(handle := -1), Some(pad.handle)) else (pad, None)
  }

  /** A second shutdown closes nothing and changes nothing. */
  lemma ShutdownTwice(pad: Pad)
    ensures Shutdown(Shutdown(pad).0) == (Shutdown(pad).0, None)
  {
  }

  /**
   * `SetVibration`: with an open pad, the motor bytes are the two strengths scaled to 255 and
   * truncated; without one nothing is sent.
   */
  function VibrationParams(pad: Pad, low: real, high: real): (r: Option<(int, int)>)
    requires 0.0 <= low <= 1.0 && 0.0 <= high <= 1.0
    ensures r.Some? <==> pad.handle >= 0
    ensures r.Some? ==> IsByte(r.value.0) && IsByte(r.value.1)
    ensures r.Some? ==> r.value.0 as real <= low * 255.0 < r.value.0 as real + 1.0
    ensures r.Some? ==> r.value.1 as real <= high * 255.0 < r.value.1 as real + 1.0
  {
    if pad.handle < 0 then None else Some(((low * 255.0).Floor, (high * 255.0).Floor))
  }

  /** `StopVibration` sends zero to both motors, if a pad is open. */
  lemma StopVibrationSendsZero(pad: Pad)
    ensures VibrationParams(pad, 0.0, 0.0) == if pad.handle >= 0 then Some((0, 0)) else None
  {
  }

  /** The features this back end reports. */
  const Features: set<string> := {"gamepad", "filesystem"}

  /** `HasFeature`. */
  function HasFeature(name: string): (r: bool)
    ensures r <==> name in Features
  {
    name == "gamepad" || name == "filesystem"
  }
}
