/**
 * The Xbox Series back end (XboxSeriesPlatform.cpp): one XInput read of controller 0 per
 * frame, translated into the input state. The XInput read is the `Option<Reading>`
 * parameter (`None` when `XInputGetState` fails).
 */
module XboxSeries {
  import opened Wrappers
  import opened Inputs
  import opened Analog
  import opened Bindings

  /** The XInput button bits the back end reads. */
  datatype Button =
    | A | B | X | Y | LeftShoulder | RightShoulder | Start | Back
    | DPadUp | DPadDown | DPadLeft | DPadRight

  /** `XUSER_MAX_COUNT`. */
  const MaxControllers: int := 4

  const StickDeadzone: real := 0.24

  /** `XINPUT_GAMEPAD_TRIGGER_THRESHOLD` (30) over the trigger range (255). */
  const TriggerDeadzone: real := 30.0 / 255.0

  /** An `int16` thumbstick reading. */
  predicate IsThumb(v: int) {
    -32768 <= v <= 32767
  }

  /** A `uint8` trigger reading. */
  predicate IsTriggerByte(v: int) {
    0 <= v <= 255
  }

  /** `NormalizeAxis` as written: divide by 32767, then the rescaled deadzone. */
  function StickAxisAsWritten(v: int): real
    requires IsThumb(v)
  {
    RescaledDeadzone((v as real) / 32767.0, StickDeadzone)
  }

  /** The most negative reading is pushed past -1: dividing -32768 by 32767 overshoots. */
  lemma StickAxisOvershoots()
    ensures StickAxisAsWritten(-32768) < -1.0
  {
  }

  /**
   * `NormalizeAxis` with the quotient clamped to [-1, 1] before the deadzone. It agrees with
   * the source on every reading but -32768 and keeps every axis in range.
   */
  function StickAxis(v: int): (r: real)
    requires IsThumb(v)
    ensures -1.0 <= r <= 1.0
    ensures v != -32768 ==> r == StickAxisAsWritten(v)
  {
    RescaledDeadzone(Clamp((v as real) / 32767.0, -1.0, 1.0), StickDeadzone)
  }

  /** `NormalizeTrigger`: divide by 255, then the one-sided rescale. */
  function TriggerAxis(v: int): (r: real)
    requires IsTriggerByte(v)
    ensures 0.0 <= r <= 1.0
    ensures v < 30 ==> r == 0.0
    ensures v == 255 ==> r == 1.0
  {
    TriggerRescale((v as real) / 255.0, TriggerDeadzone)
  }

  /** One successful `XInputGetState` of controller 0. */
  datatype Reading = Reading(
    buttons: set<Button>,
    thumbLX: int, thumbLY: int, thumbRX: int, thumbRY: int,
    leftTrigger: int, rightTrigger: int)
  {
    predicate Valid() {
      IsThumb(thumbLX) && IsThumb(thumbLY) && IsThumb(thumbRX) && IsThumb(thumbRY)
      && IsTriggerByte(leftTrigger) && IsTriggerByte(rightTrigger)
    }
  }

  /** The back end's pad record: current and previous buttons, normalised sticks and triggers. */
  datatype Pad = Pad(
    buttons: set<Button>, prevButtons: set<Button>,
    lstickX: real, lstickY: real, rstickX: real, rstickY: real,
    leftTrigger: real, rightTrigger: real)

  /** Which normalisation the sticks use: as written, or clamped to [-1, 1] as intended. */
  datatype Rules = Rules(clampSticks: bool)

  const AsWritten: Rules := Rules(false)
  const Corrected: Rules := Rules(true)

  function Axis(rules: Rules, v: int): (r: real)
    requires IsThumb(v)
    ensures rules.clampSticks ==> -1.0 <= r <= 1.0
    ensures v != -32768 ==> r == StickAxis(v)
  {
    if rules.clampSticks then StickAxis(v) else StickAxisAsWritten(v)
  }

  /** The pad record after one read; on a failed read everything returns to rest. */
  function ReadPad(rules: Rules, pad: Pad, read: Option<Reading>): (p: Pad)
    requires read.Some? ==> read.value.Valid()
    ensures p.prevButtons == pad.buttons
    ensures read.None? ==> p == Pad({}, pad.buttons, 0.0, 0.0, 0.0, 0.0, 0.0, 0.0)
    ensures read.Some? ==> p.buttons == read.value.buttons
    ensures rules.clampSticks ==> -1.0 <= p.lstickX <= 1.0 && -1.0 <= p.lstickY <= 1.0
    ensures rules.clampSticks ==> -1.0 <= p.rstickX <= 1.0 && -1.0 <= p.rstickY <= 1.0
    ensures 0.0 <= p.leftTrigger <= 1.0 && 0.0 <= p.rightTrigger <= 1.0
  {
    match read
    case None => Pad({}, pad.buttons, 0.0, 0.0, 0.0, 0.0, 0.0, 0.0)
    case Some(r) =>
      Pad(r.buttons, pad.buttons,
          Axis(rules, r.thumbLX), Axis(rules, r.thumbLY), Axis(rules, r.thumbRX), Axis(rules, r.thumbRY),
          TriggerAxis(r.leftTrigger), TriggerAxis(r.rightTrigger))
  }

  /** Both rule sets read the same record unless a thumbstick reads -32768. */
  lemma RulesAgreeAwayFromMinimum(pad: Pad, read: Option<Reading>)
    requires read.Some? ==> read.value.Valid()
    requires read.Some? ==> read.value.thumbLX != -32768 && read.value.thumbLY != -32768
    requires read.Some? ==> read.value.thumbRX != -32768 && read.value.thumbRY != -32768
    ensures ReadPad(AsWritten, pad, read) == ReadPad(Corrected, pad, read)
  {
  }

  /**
   * Writes the input state from the pad record: axes, the held mapping (buttons, trigger
   * thresholds, d-pad), the pressed mapping from `buttons & ~prevButtons`, then the stick's
   * digital movement.
   */
  function MapPad(p: Pad, s: InputState): (r: InputState)
    ensures r.moveAxisX == p.lstickX && r.moveAxisY == p.lstickY
    ensures r.lookAxisX == p.rstickX * 100.0 && r.lookAxisY == -p.rstickY * 100.0
    ensures r == s.(actions := r.actions, actionsHeld := r.actionsHeld,
                    moveAxisX := r.moveAxisX, moveAxisY := r.moveAxisY,
                    lookAxisX := r.lookAxisX, lookAxisY := r.lookAxisY)
  {
    var b := p.buttons;
    var held := s.actionsHeld.(
      action1 := A in b, action2 := B in b, action3 := X in b, action4 := Y in b,
      jump := A in b,
      crouch := p.leftTrigger > TriggerThreshold, sprint := p.rightTrigger > TriggerThreshold,
      cycleLeft := LeftShoulder in b, cycleRight := RightShoulder in b,
      menuOpen := Start in b, menuBack := B in b || Back in b,
      moveForward := DPadUp in b, moveBackward := DPadDown in b,
      moveLeft := DPadLeft in b, moveRight := DPadRight in b);
    var pressed := Edges(b, p.prevButtons);
    s.(moveAxisX := p.lstickX, moveAxisY := p.lstickY,
       lookAxisX := p.rstickX * 100.0, lookAxisY := -p.rstickY * 100.0,
       actionsHeld := StickToDigital(held, p.lstickX, p.lstickY),
       actions := s.actions.(action1 := A in pressed, action2 := B in pressed,
                             menuOpen := Start in pressed, jump := A in pressed))
  }

  /**
   * `PollInput`: read the pad, write the state, tag the device. `AsWritten` is the source's
   * poll; `Corrected` clamps the sticks.
   */
  function PollInput(rules: Rules, pad: Pad, s: InputState, read: Option<Reading>): (r: (Pad, InputState))
    requires read.Some? ==> read.value.Valid()
    ensures r.0 == ReadPad(rules, pad, read) && r.0.prevButtons == pad.buttons
    ensures r.1.deviceType == XboxController
    ensures rules.clampSticks ==> -1.0 <= r.1.moveAxisX <= 1.0 && -1.0 <= r.1.moveAxisY <= 1.0
  {
    var p := ReadPad(rules, pad, read);
    (p, MapPad(p, s).(deviceType := XboxController))
  }

  /** A left stick held fully left, nothing else. */
  const StickFullLeft: Reading := Reading({}, -32768, 0, 0, 0, 0, 0)

  /** As written, that reading drives the movement axis below -1; corrected, it reads -1. */
  lemma AsWrittenPollOvershoots(pad: Pad, s: InputState)
    ensures PollInput(AsWritten, pad, s, Some(StickFullLeft)).1.moveAxisX < -1.0
    ensures PollInput(Corrected, pad, s, Some(StickFullLeft)).1.moveAxisX == -1.0
  {
    StickAxisOvershoots();
  }

  /** The held mapping: shared buttons, OR-combined buttons, trigger thresholds, d-pad or stick. */
  lemma HeldMapping(rules: Rules, pad: Pad, s: InputState, read: Option<Reading>)
    requires read.Some? ==> read.value.Valid()
    ensures var (p, r) := PollInput(rules, pad, s, read); var h := r.actionsHeld;
      && h.action1 == h.jump == (A in p.buttons)
      && (h.menuBack <==> B in p.buttons || Back in p.buttons)
      && h.action2 == (B in p.buttons) && h.action3 == (X in p.buttons) && h.action4 == (Y in p.buttons)
      && h.cycleLeft == (LeftShoulder in p.buttons) && h.cycleRight == (RightShoulder in p.buttons)
      && h.menuOpen == (Start in p.buttons)
      && h.crouch == (p.leftTrigger > TriggerThreshold) && h.sprint == (p.rightTrigger > TriggerThreshold)
      && (h.moveForward <==> DPadUp in p.buttons || p.lstickY > StickThreshold)
      && (h.moveBackward <==> DPadDown in p.buttons || p.lstickY < -StickThreshold)
      && (h.moveLeft <==> DPadLeft in p.buttons || p.lstickX < -StickThreshold)
      && (h.moveRight <==> DPadRight in p.buttons || p.lstickX > StickThreshold)
  {
  }

  /** Pressed flags are edges of A, B and Start; Jump and Action1 share the A edge. */
  lemma PressedMapping(rules: Rules, pad: Pad, s: InputState, read: Option<Reading>)
    requires read.Some? ==> read.value.Valid()
    ensures var (p, r) := PollInput(rules, pad, s, read); var e := r.actions;
      && e.action1 == e.jump == (A in p.buttons && A !in pad.buttons)
      && e.action2 == (B in p.buttons && B !in pad.buttons)
      && e.menuOpen == (Start in p.buttons && Start !in pad.buttons)
      && (e.action1 ==> r.actionsHeld.action1) && (e.action2 ==> r.actionsHeld.action2)
      && (e.menuOpen ==> r.actionsHeld.menuOpen)
  {
  }

  /** Actions the pad does not drive keep whatever the state held before. */
  lemma UndrivenActionsUnchanged(rules: Rules, pad: Pad, s: InputState, read: Option<Reading>)
    requires read.Some? ==> read.value.Valid()
    ensures var (_, r) := PollInput(rules, pad, s, read);
      && r.actionsReleased == s.actionsReleased
      && r.actionsHeld == s.actionsHeld.(
           action1 := r.actionsHeld.action1, action2 := r.actionsHeld.action2,
           action3 := r.actionsHeld.action3, action4 := r.actionsHeld.action4,
           jump := r.actionsHeld.jump, crouch := r.actionsHeld.crouch, sprint := r.actionsHeld.sprint,
           cycleLeft := r.actionsHeld.cycleLeft, cycleRight := r.actionsHeld.cycleRight,
           menuOpen := r.actionsHeld.menuOpen, menuBack := r.actionsHeld.menuBack,
           moveForward := r.actionsHeld.moveForward, moveBackward := r.actionsHeld.moveBackward,
           moveLeft := r.actionsHeld.moveLeft, moveRight := r.actionsHeld.moveRight)
      && r.actions == s.actions.(action1 := r.actions.action1, action2 := r.actions.action2,
                                 menuOpen := r.actions.menuOpen, jump := r.actions.jump)
  {
  }

  /** A failed read releases every button- and trigger-driven action and raises no press. */
  lemma DisconnectedPadIsNeutral(rules: Rules, pad: Pad, s: InputState)
    ensures var (p, r) := PollInput(rules, pad, s, None); var h := r.actionsHeld;
      && p.buttons == {} && p.prevButtons == pad.buttons
      && r.moveAxisX == 0.0 && r.moveAxisY == 0.0 && r.lookAxisX == 0.0 && r.lookAxisY == 0.0
      && !h.action1 && !h.action2 && !h.action3 && !h.action4 && !h.jump && !h.crouch && !h.sprint
      && !h.cycleLeft && !h.cycleRight && !h.menuOpen && !h.menuBack
      && !h.moveForward && !h.moveBackward && !h.moveLeft && !h.moveRight
      && !r.actions.action1 && !r.actions.action2 && !r.actions.menuOpen && !r.actions.jump
  {
  }

  /** Polling the same reading twice raises no press the second time. */
  lemma SteadyReadingNoPress(rules: Rules, pad: Pad, s: InputState, read: Option<Reading>)
    requires read.Some? ==> read.value.Valid()
    ensures var (p1, r1) := PollInput(rules, pad, s, read);
      var (p2, r2) := PollInput(rules, p1, r1, read);
      && p2.prevButtons == p2.buttons
      && !r2.actions.action1 && !r2.actions.action2 && !r2.actions.menuOpen && !r2.actions.jump
  {
  }

  /** `SetVibration`: the controller the motors are set on, or `None` when the index is refused. */
  function VibrationTarget(playerIndex: int): (r: Option<int>)
    ensures r.Some? <==> 0 <= playerIndex < MaxControllers
    ensures r.Some? ==> r.value == playerIndex
  {
    if playerIndex < 0 || playerIndex >= MaxControllers then None else Some(playerIndex)
  }

  /** `StopVibration` goes through the same guard. */
  function StopVibrationTarget(playerIndex: int): (r: Option<int>)
    ensures r == VibrationTarget(playerIndex)
    ensures r.Some? <==> 0 <= playerIndex < MaxControllers
  {
    VibrationTarget(playerIndex)
  }

  /** The feature names this back end reports. */
  const Features: set<string> := {"gamepad", "filesystem"}

  function HasFeature(name: string): (r: bool)
    ensures r <==> name in Features
  {
    if name == "gamepad" then true
    else if name == "filesystem" then true
    else false
  }
}
