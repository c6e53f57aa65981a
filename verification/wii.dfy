/**
 * The Wii back end (WiiPlatform.cpp): one `WPAD_ScanPads` per frame, the Wii Remote's held
 * and down masks, the Nunchuk's stick and buttons, and the IR pointer translated into the
 * input state. The library's answers are parameters.
 *
 * As written the Nunchuk's Z and C buttons are folded into the remote's HOME and 1 bits
 * (holding MenuOpen and Action3), where the comments beside them say Crouch and Sprint.
 * `Rules` selects between that and the commented intent.
 */
module WiiPlatform {
  import opened Wrappers
  import opened Inputs
  import opened Analog
  import opened Bindings

  /** The `WPAD_BUTTON_*` bits the back end reads. */
  datatype Button = A | B | One | Two | Home | Plus | Minus | Up | Down | Left | Right

  const StickDeadzone: real := 0.15

  /** A `u8` Nunchuk stick reading or calibration centre. */
  predicate IsByte(v: int) {
    0 <= v <= 255
  }

  /**
   * `NormalizeAxis`: the offset from the calibrated centre over 128, then the plain deadzone.
   * There is no clamp, so a reading far from an off-centre calibration can pass 1.
   */
  function NormalizeAxis(value: int, center: int): (r: real)
    requires IsByte(value) && IsByte(center)
    ensures -255.0 / 128.0 <= r <= 255.0 / 128.0
    ensures -19 <= value - center <= 19 ==> r == 0.0
    ensures (value - center < -19 || 19 < value - center) ==> r == (value - center) as real / 128.0
  {
    Deadzone((value - center) as real / 128.0, StickDeadzone)
  }

  /** The Nunchuk as the expansion data reports it. */
  datatype Nunchuk = Nunchuk(posX: int, posY: int, centerX: int, centerY: int, z: bool, c: bool)
  {
    predicate Valid() {
      IsByte(posX) && IsByte(posY) && IsByte(centerX) && IsByte(centerY)
    }
  }

  /**
   * What one scan reports for channel 0: the held and down masks, the Nunchuk when one is
   * the attached expansion, and the IR position when the pointer is valid. A missing data
   * block reads as no Nunchuk and no pointer.
   */
  datatype Scan = Scan(held: set<Button>, down: set<Button>, nunchuk: Option<Nunchuk>, ir: Option<Vec2>)
  {
    predicate Valid() {
      nunchuk.Some? ==> nunchuk.value.Valid()
    }
  }

  /**
   * The back end's remote fields. `crouch` and `sprint` carry the Nunchuk's Z and C for the
   * corrected rules; as written they are always false and the buttons carry the fold.
   */
  datatype Remote = Remote(buttons: set<Button>, prevButtons: set<Button>,
                           nunchukX: real, nunchukY: real,
                           irValid: bool, irX: real, irY: real,
                           crouch: bool, sprint: bool)

  /** Which reading of the Nunchuk buttons to apply: the fold as written, or Crouch and Sprint. */
  datatype Rules = Rules(nunchukDrivesCrouchSprint: bool)

  const AsWritten: Rules := Rules(false)
  const Corrected: Rules := Rules(true)

  /** The remote bits the Nunchuk's buttons are folded into as written: Z into HOME, C into 1. */
  function Folded(n: Nunchuk): (r: set<Button>)
    ensures Home in r <==> n.z
    ensures One in r <==> n.c
    ensures r <= {Home, One}
  {
    (if n.z then {Home} else {}) + (if n.c then {One} else {})
  }

  /** The record after one scan. Without a valid pointer the last IR position is kept. */
  function ReadRemote(rules: Rules, rm: Remote, d: Scan): (r: Remote)
    requires d.Valid()
    ensures r.prevButtons == rm.buttons
    ensures d.held <= r.buttons <= d.held + {Home, One}
    ensures d.nunchuk.None? ==> r.buttons == d.held && r.nunchukX == 0.0 && r.nunchukY == 0.0
    ensures r.irValid == d.ir.Some?
    ensures d.ir.None? ==> r.irX == rm.irX && r.irY == rm.irY
    ensures d.ir.Some? ==> r.irX == d.ir.value.x / 640.0 && r.irY == d.ir.value.y / 480.0
  {
    var n := d.nunchuk;
    var fold := n.Some? && !rules.nunchukDrivesCrouchSprint;
    Remote(if fold then d.held + Folded(n.value) else d.held, rm.buttons,
           if n.Some? then NormalizeAxis(n.value.posX, n.value.centerX) else 0.0,
           if n.Some? then NormalizeAxis(n.value.posY, n.value.centerY) else 0.0,
           d.ir.Some?,
           if d.ir.Some? then d.ir.value.x / 640.0 else rm.irX,
           if d.ir.Some? then d.ir.value.y / 480.0 else rm.irY,
           rules.nunchukDrivesCrouchSprint && n.Some? && n.value.z,
           rules.nunchukDrivesCrouchSprint && n.Some? && n.value.c)
  }

  /**
   * The held flags the remote's buttons drive: A, B, 1, 2, HOME, the +/- pair and the d-pad;
   * under the corrected rules also Crouch and Sprint from the Nunchuk.
   */
  function RemoteHeld(rules: Rules, r: Remote, held: ActionFlags): ActionFlags {
    var b := r.buttons;
    var own := rules.nunchukDrivesCrouchSprint;
    held.(action1 := A in b, action2 := B in b, action3 := One in b, action4 := Two in b,
          jump := A in b, menuOpen := Home in b, menuBack := B in b,
          crouch := if own then r.crouch else held.crouch, sprint := if own then r.sprint else held.sprint,
          cycleLeft := Minus in b, cycleRight := Plus in b,
          moveForward := Up in b, moveBackward := Down in b, moveLeft := Left in b, moveRight := Right in b)
  }

  /**
   * `UpdateWiimoteInput` after the scan: the Nunchuk drives the move axes, a valid pointer
   * the look axes, the buttons the held flags, the down mask the pressed flags, then the
   * Nunchuk stick's digital movement over the d-pad.
   */
  function MapRemote(rules: Rules, r: Remote, down: set<Button>, s: InputState): (t: InputState)
    ensures t.moveAxisX == r.nunchukX && t.moveAxisY == r.nunchukY
    ensures !r.irValid ==> t.lookAxisX == s.lookAxisX && t.lookAxisY == s.lookAxisY
  {
    var held := RemoteHeld(rules, r, s.actionsHeld);
    s.(moveAxisX := r.nunchukX, moveAxisY := r.nunchukY,
       lookAxisX := if r.irValid then (r.irX - 0.5) * 200.0 else s.lookAxisX,
       lookAxisY := if r.irValid then (r.irY - 0.5) * 200.0 else s.lookAxisY,
       actionsHeld := StickToDigital(held, r.nunchukX, r.nunchukY),
       actions := s.actions.(action1 := A in down, action2 := B in down,
                             menuOpen := Home in down, jump := A in down))
  }

  /** `PollInput`: scan, map, tag the device. */
  function PollInput(rules: Rules, rm: Remote, d: Scan, s: InputState): (r: (Remote, InputState))
    requires d.Valid()
    ensures r.0 == ReadRemote(rules, rm, d)
    ensures r.1.deviceType == WiiRemote
  {
    var p := ReadRemote(rules, rm, d);
    (p, MapRemote(rules, p, d.down, s).(deviceType := WiiRemote))
  }

  /**
   * The held mapping under either rules, over the stored buttons (the held mask, plus the
   * folded Nunchuk bits as written): movement is the d-pad or the Nunchuk stick.
   */
  lemma HeldMapping(rules: Rules, rm: Remote, d: Scan, s: InputState)
    requires d.Valid()
    ensures var (p, r) := PollInput(rules, rm, d, s); var h := r.actionsHeld; var b := p.buttons;
      && (h.action1 <==> A in b) && (h.jump <==> A in b)
      && (h.action2 <==> B in b) && (h.menuBack <==> B in b)
      && (h.action3 <==> One in b) && (h.action4 <==> Two in b) && (h.menuOpen <==> Home in b)
      && (h.cycleLeft <==> Minus in b) && (h.cycleRight <==> Plus in b)
      && (h.moveForward <==> Up in b || p.nunchukY > StickThreshold)
      && (h.moveBackward <==> Down in b || p.nunchukY < -StickThreshold)
      && (h.moveLeft <==> Left in b || p.nunchukX < -StickThreshold)
      && (h.moveRight <==> Right in b || p.nunchukX > StickThreshold)
  {
  }

  /** The pressed flags come from the down mask alone: A (Action1 and Jump), B and HOME. */
  lemma PressedFromDownMask(rules: Rules, rm: Remote, d: Scan, s: InputState)
    requires d.Valid()
    ensures var e := PollInput(rules, rm, d, s).1.actions;
      && e.action1 == e.jump == (A in d.down)
      && e.action2 == (B in d.down) && e.menuOpen == (Home in d.down)
      && e == PollInput(rules, rm.(buttons := {}), d, s).1.actions
  {
  }

  /** Without a Nunchuk the move axes read 0 and only the d-pad moves. */
  lemma NoNunchukCentres(rules: Rules, rm: Remote, d: Scan, s: InputState)
    requires d.Valid() && d.nunchuk.None?
    ensures var r := PollInput(rules, rm, d, s).1;
      && r.moveAxisX == 0.0 && r.moveAxisY == 0.0
      && (r.actionsHeld.moveForward <==> Up in d.held)
      && (r.actionsHeld.moveRight <==> Right in d.held)
  {
  }

  /**
   * The look axes follow the pointer while it is valid, centred on the middle of the
   * 640 by 480 screen, and keep their last values while it is not.
   */
  lemma LookFollowsPointer(rules: Rules, rm: Remote, d: Scan, s: InputState)
    requires d.Valid()
    ensures var r := PollInput(rules, rm, d, s).1;
      && (d.ir.None? ==> r.lookAxisX == s.lookAxisX && r.lookAxisY == s.lookAxisY)
      && (d.ir == Some(Vec2(320.0, 240.0)) ==> r.lookAxisX == 0.0 && r.lookAxisY == 0.0)
      && (d.ir.Some? ==> -100.0 <= r.lookAxisX <= 100.0
                         || d.ir.value.x < 0.0 || d.ir.value.x > 640.0)
  {
  }

  /** A scan with the Nunchuk's Z button down and nothing else. */
  const ZOnly: Scan := Scan({}, {}, Some(Nunchuk(128, 128, 128, 128, true, false)), None)

  /**
   * As written, Z holds MenuOpen (through the HOME bit) yet never presses it, and Crouch is
   * left as it was; C likewise holds Action3 and leaves Sprint.
   */
  lemma NunchukZOpensMenu(rm: Remote, s: InputState)
    ensures var r := PollInput(AsWritten, rm, ZOnly, s).1;
      && r.actionsHeld.menuOpen && !r.actions.menuOpen
      && r.actionsHeld.crouch == s.actionsHeld.crouch
  {
  }

  /** As written, the Nunchuk buttons reach the actions only through the folded remote bits. */
  lemma FoldedButtonsAsWritten(rm: Remote, d: Scan, s: InputState)
    requires d.Valid() && d.nunchuk.Some?
    ensures var h := PollInput(AsWritten, rm, d, s).1.actionsHeld; var n := d.nunchuk.value;
      && (h.menuOpen <==> Home in d.held || n.z)
      && (h.action3 <==> One in d.held || n.c)
      && h.crouch == s.actionsHeld.crouch && h.sprint == s.actionsHeld.sprint
  {
  }

  /** Corrected, Z holds Crouch and C holds Sprint, and HOME and 1 are the remote's own. */
  lemma NunchukDrivesCrouchSprint(rm: Remote, d: Scan, s: InputState)
    requires d.Valid()
    ensures var h := PollInput(Corrected, rm, d, s).1.actionsHeld;
      && (h.crouch <==> d.nunchuk.Some? && d.nunchuk.value.z)
      && (h.sprint <==> d.nunchuk.Some? && d.nunchuk.value.c)
      && (h.menuOpen <==> Home in d.held) && (h.action3 <==> One in d.held)
  {
  }

  /** The features this back end reports; the remote has motion sensing. */
  const Features: set<string> := {"gamepad", "motion", "filesystem"}

  /** `HasFeature`. */
  function HasFeature(name: string): (r: bool)
    ensures r <==> name in Features
  {
    name == "gamepad" || name == "motion" || name == "filesystem"
  }
}
