/**
 * The GameCube back end (GameCubePlatform.cpp): one `PAD_ScanPads` per frame, controller 0's
 * held and down masks, sticks and triggers translated into the input state. The library's
 * answers are parameters.
 */
module GameCubePlatform {
  import opened Inputs
  import opened Analog
  import opened Bindings

  /** The `PAD_BUTTON_*` and `PAD_TRIGGER_*` bits the back end reads. */
  datatype Button = A | B | X | Y | Z | L | R | Start | Up | Down | Left | Right

  const StickDeadzone: real := 0.15
  const TriggerDeadzone: real := 0.1

  /** An `s8` stick reading. */
  predicate IsStick(v: int) {
    -128 <= v <= 127
  }

  /** A `u8` trigger reading. */
  predicate IsTriggerByte(v: int) {
    0 <= v <= 255
  }

  /** `NormalizeAxis` as written: divide by 127, then the rescaled deadzone. */
  function StickAxisAsWritten(v: int): real
    requires IsStick(v)
  {
    RescaledDeadzone(v as real / 127.0, StickDeadzone)
  }

  /** The most negative reading is pushed past -1: dividing -128 by 127 overshoots. */
  lemma StickAxisOvershoots()
    ensures StickAxisAsWritten(-128) < -1.0
  {
  }

  /**
   * `NormalizeAxis` with the quotient clamped to [-1, 1] before the deadzone. It agrees with
   * the source on every reading but -128 and keeps every axis in range.
   */
  function StickAxis(v: int): (r: real)
    requires IsStick(v)
    ensures -1.0 <= r <= 1.0
    ensures v != -128 ==> r == StickAxisAsWritten(v)
  {
    RescaledDeadzone(Clamp(v as real / 127.0, -1.0, 1.0), StickDeadzone)
  }

  /** `NormalizeTrigger`: divide by 255, then the one-sided rescale with deadzone 0.1. */
  function TriggerAxis(v: int): (r: real)
    requires IsTriggerByte(v)
    ensures 0.0 <= r <= 1.0
  {
    TriggerRescale(v as real / 255.0, TriggerDeadzone)
  }

  /** A trigger counts as pressed (above 0.5 after rescaling) from the raw value 141 up. */
  lemma TriggerCut(v: int)
    requires IsTriggerByte(v)
    ensures TriggerAxis(v) > TriggerThreshold <==> v >= 141
  {
    var n := v as real / 255.0;
    if v >= 141 {
      assert n >= 141.0 / 255.0;
      assert (n - 0.1) / 0.9 > 0.5;
    } else {
      assert n <= 140.0 / 255.0;
      if n >= 0.1 {
        assert (n - 0.1) / 0.9 <= 0.5;
      }
    }
  }

  /** What the library reports for controller 0 after a scan. */
  datatype Report = Report(held: set<Button>, down: set<Button>,
                           mainX: int, mainY: int, cX: int, cY: int, trigL: int, trigR: int)
  {
    predicate Valid() {
      IsStick(mainX) && IsStick(mainY) && IsStick(cX) && IsStick(cY)
      && IsTriggerByte(trigL) && IsTriggerByte(trigR)
    }
  }

  /** The back end's pad fields: buttons, previous buttons, normalised sticks and triggers. */
  datatype Pad = Pad(buttons: set<Button>, prevButtons: set<Button>,
                     mainX: real, mainY: real, cX: real, cY: real, leftTrigger: real, rightTrigger: real)

  /** Which corrections to apply: as written (`false`, `false`) or as intended. */
  datatype Rules = Rules(clampSticks: bool, sprintFollowsTrigger: bool)

  const AsWritten: Rules := Rules(false, false)
  const Corrected: Rules := Rules(true, true)

  function Axis(rules: Rules, v: int): (r: real)
    requires IsStick(v)
    ensures rules.clampSticks ==> -1.0 <= r <= 1.0
  {
    if rules.clampSticks then StickAxis(v) else StickAxisAsWritten(v)
  }

  /** The record after one scan: the old buttons become the previous ones, then the held mask. */
  function ReadPad(rules: Rules, pad: Pad, d: Report): (p: Pad)
    requires d.Valid()
    ensures p.prevButtons == pad.buttons && p.buttons == d.held
    ensures p.rightTrigger == TriggerAxis(d.trigR) && p.leftTrigger == TriggerAxis(d.trigL)
    ensures rules.clampSticks ==> -1.0 <= p.mainX <= 1.0 && -1.0 <= p.mainY <= 1.0
  {
    Pad(d.held, pad.buttons, Axis(rules, d.mainX), Axis(rules, d.mainY), Axis(rules, d.cX), Axis(rules, d.cY),
        TriggerAxis(d.trigL), TriggerAxis(d.trigR))
  }

  /** The held flags the buttons, the left trigger and the d-pad drive (Sprint aside). */
  function PadHeld(p: Pad, held: ActionFlags): ActionFlags {
    var b := p.buttons;
    held.(action1 := A in b, action2 := B in b, action3 := X in b, action4 := Y in b,
          jump := A in b, crouch := Z in b,
          cycleLeft := L in b || p.leftTrigger > TriggerThreshold, cycleRight := R in b,
          menuOpen := Start in b, menuBack := B in b,
          moveForward := Up in b, moveBackward := Down in b, moveLeft := Left in b, moveRight := Right in b)
  }

  /**
   * `UpdateGamepadInput` after the read: axes, button holds, the triggers, the d-pad, pressed
   * flags from the library's down mask, then the stick's digital movement. As written the
   * right trigger can only set Sprint, which no button clears.
   */
  function MapPad(rules: Rules, p: Pad, down: set<Button>, s: InputState): (r: InputState)
    ensures r.moveAxisX == p.mainX && r.moveAxisY == p.mainY
    ensures r.lookAxisX == p.cX * 100.0 && r.lookAxisY == -p.cY * 100.0
  {
    var pulled := p.rightTrigger > TriggerThreshold;
    var sprint := if rules.sprintFollowsTrigger then pulled else pulled || s.actionsHeld.sprint;
    s.(moveAxisX := p.mainX, moveAxisY := p.mainY, lookAxisX := p.cX * 100.0, lookAxisY := -p.cY * 100.0,
       actionsHeld := StickToDigital(PadHeld(p, s.actionsHeld).(sprint := sprint), p.mainX, p.mainY),
       actions := s.actions.(action1 := A in down, action2 := B in down,
                             menuOpen := Start in down, jump := A in down))
  }

  /** `PollInput`: scan, map, tag the device. */
  function PollInput(rules: Rules, pad: Pad, d: Report, s: InputState): (r: (Pad, InputState))
    requires d.Valid()
    ensures r.0 == ReadPad(rules, pad, d)
    ensures r.1.deviceType == GameCubeController
  {
    var p := ReadPad(rules, pad, d);
    (p, MapPad(rules, p, d.down, s).(deviceType := GameCubeController))
  }

  /** The held mapping; the left trigger also holds CycleLeft, movement is d-pad or stick. */
  lemma HeldMapping(rules: Rules, pad: Pad, d: Report, s: InputState)
    requires d.Valid()
    ensures var (p, r) := PollInput(rules, pad, d, s); var h := r.actionsHeld; var b := d.held;
      && h.action1 == h.jump == (A in b)
      && h.action2 == h.menuBack == (B in b)
      && h.action3 == (X in b) && h.action4 == (Y in b)
      && h.crouch == (Z in b) && h.cycleRight == (R in b) && h.menuOpen == (Start in b)
      && (h.cycleLeft <==> L in b || d.trigL >= 141)
      && (h.moveForward <==> Up in b || p.mainY > StickThreshold)
      && (h.moveLeft <==> Left in b || p.mainX < -StickThreshold)
  {
    TriggerCut(d.trigL);
  }

  /**
   * Pressed flags come from the down mask alone: they do not depend on the stored previous
   * buttons, and they agree with `held & ~previous` whenever the library's mask does.
   */
  lemma PressedFromDownMask(rules: Rules, pad: Pad, d: Report, s: InputState)
    requires d.Valid()
    ensures var r := PollInput(rules, pad, d, s).1; var e := r.actions;
      && e.action1 == e.jump == (A in d.down)
      && e.action2 == (B in d.down) && e.menuOpen == (Start in d.down)
      && e == PollInput(rules, pad.(buttons := {}), d, s).1.actions
      && (d.down == Edges(d.held, pad.buttons) ==> e.action1 == (A in d.held && A !in pad.buttons))
  {
  }

  /** Corrected, Sprint is held exactly while the right trigger is past the cut. */
  lemma SprintTracksTrigger(pad: Pad, d: Report, s: InputState)
    requires d.Valid()
    ensures PollInput(Corrected, pad, d, s).1.actionsHeld.sprint <==> d.trigR >= 141
  {
    TriggerCut(d.trigR);
  }

  /** A report with the right trigger fully pulled, and the same with it released. */
  const TriggerPulled: Report := Report({}, {}, 0, 0, 0, 0, 0, 255)
  const TriggerReleased: Report := Report({}, {}, 0, 0, 0, 0, 0, 0)

  /** As written, Sprint stays held after the trigger is released. */
  lemma SprintLatches(pad: Pad, s: InputState)
    ensures var (p1, r1) := PollInput(AsWritten, pad, TriggerPulled, s);
      var (p2, r2) := PollInput(AsWritten, p1, TriggerReleased, r1);
      && r1.actionsHeld.sprint && p2.rightTrigger == 0.0 && r2.actionsHeld.sprint
  {
  }

  /** Away from the bottom stick reading the corrections read the same pad record, except nothing. */
  lemma CorrectedPadAgrees(pad: Pad, d: Report)
    requires d.Valid()
    requires d.mainX != -128 && d.mainY != -128 && d.cX != -128 && d.cY != -128
    ensures ReadPad(AsWritten, pad, d) == ReadPad(Corrected, pad, d)
  {
  }

  /**
   * Under either rules the held flags are the stick rule over the button holds, with Sprint
   * set afterwards: the corrections differ only in Sprint, which as written also keeps its
   * earlier value.
   */
  lemma HeldUnderRules(rules: Rules, p: Pad, down: set<Button>, s: InputState)
    ensures var pulled := p.rightTrigger > TriggerThreshold;
      MapPad(rules, p, down, s).actionsHeld
        == StickToDigital(PadHeld(p, s.actionsHeld), p.mainX, p.mainY).(
             sprint := if rules.sprintFollowsTrigger then pulled else pulled || s.actionsHeld.sprint)
  {
    var pulled := p.rightTrigger > TriggerThreshold;
    var sprint := if rules.sprintFollowsTrigger then pulled else pulled || s.actionsHeld.sprint;
    StickKeepsSprint(PadHeld(p, s.actionsHeld), sprint, p.mainX, p.mainY);
  }

  /** The features this back end reports. */
  const Features: set<string> := {"gamepad", "filesystem"}

  /** `HasFeature`. */
  function HasFeature(name: string): (r: bool)
    ensures r <==> name in Features
  {
    name == "gamepad" || name == "filesystem"
  }
}
