/**
 * The PlayStation 3 back end (PS3Platform.cpp): one read of pad 0 per frame through the
 * homebrew pad library, assembled into a 16-bit button word and translated into the input
 * state. The library's answers (is pad 0 connected, the data read or a failed read) are
 * parameters.
 */
module Ps3Platform {
  import opened Wrappers
  import opened Inputs
  import opened Analog
  import opened Bindings

  // ---------------------------------------------------------------- the button word

  const PadSelect: bv16 := 0x0001
  const PadL3: bv16 := 0x0002
  const PadR3: bv16 := 0x0004
  const PadStart: bv16 := 0x0008
  const PadUp: bv16 := 0x0010
  const PadRight: bv16 := 0x0020
  const PadDown: bv16 := 0x0040
  const PadLeft: bv16 := 0x0080
  const PadL2: bv16 := 0x0100
  const PadR2: bv16 := 0x0200
  const PadL1: bv16 := 0x0400
  const PadR1: bv16 := 0x0800
  const PadTriangle: bv16 := 0x1000
  const PadCircle: bv16 := 0x2000
  const PadCross: bv16 := 0x4000
  const PadSquare: bv16 := 0x8000

  /** The sixteen button constants in declaration order. */
  const ButtonBits: seq<bv16> :=
    [PadSelect, PadL3, PadR3, PadStart, PadUp, PadRight, PadDown, PadLeft,
     PadL2, PadR2, PadL1, PadR1, PadTriangle, PadCircle, PadCross, PadSquare]

  /** Constant `i` is bit `i`. */
  lemma ButtonBitsArePositions()
    ensures |ButtonBits| == 16
    ensures forall i :: 0 <= i < 16 ==> ButtonBits[i] == (1 as bv16) << i
  {
  }

  /** Two different bit positions of a 16-bit word do not overlap. */
  lemma PositionsDisjoint(i: nat, j: nat)
    requires i < 16 && j < 16 && i != j
    ensures ((1 as bv16) << i) & ((1 as bv16) << j) == 0
  {
  }

  /** No two constants share a bit, so each button is read independently of the others. */
  lemma ButtonBitsDisjoint()
    ensures forall i, j :: 0 <= i < 16 && 0 <= j < 16 && i != j ==> ButtonBits[i] & ButtonBits[j] == 0
  {
    ButtonBitsArePositions();
    forall i, j | 0 <= i < 16 && 0 <= j < 16 && i != j
      ensures ButtonBits[i] & ButtonBits[j] == 0
    {
      PositionsDisjoint(i, j);
    }
  }

  /** `button[2] | (button[3] << 8)` stored in the 16-bit `buttons` field. */
  function ButtonWord(b2: bv16, b3: bv16): (w: bv16)
    ensures b2 < 0x100 && b3 < 0x100 ==> w & 0xFF == b2 && w >> 8 == b3
  {
    b2 | (b3 << 8)
  }

  /** Every word is assembled from its own two bytes: the assembly loses nothing. */
  lemma ButtonWordOfBytes(w: bv16)
    ensures ButtonWord(w & 0xFF, w >> 8) == w
  {
  }

  predicate Down(w: bv16, bit: bv16) {
    w & bit != 0
  }

  /** The first digital byte carries Select to Left, the second L2 to Square. */
  lemma BytesCarryTheirButtons(b2: bv16, b3: bv16)
    requires b2 < 0x100 && b3 < 0x100
    ensures Down(ButtonWord(b2, b3), PadSelect) <==> b2 & 0x01 != 0
    ensures Down(ButtonWord(b2, b3), PadStart) <==> b2 & 0x08 != 0
    ensures Down(ButtonWord(b2, b3), PadCross) <==> b3 & 0x40 != 0
    ensures Down(ButtonWord(b2, b3), PadCircle) <==> b3 & 0x20 != 0
  {
  }

  /** For a button bit, `(now & ~prev) & bit` is "down now and up before". */
  lemma PressedBit(now: bv16, prev: bv16, bit: bv16)
    requires bit in ButtonBits
    ensures Down(now & !prev, bit) <==> Down(now, bit) && !Down(prev, bit)
  {
  }

  // ---------------------------------------------------------------- sticks

  /** A `uint8` stick reading. */
  predicate IsStickByte(v: int) {
    0 <= v <= 255
  }

  /** `NormalizeAxis`: centre 128, divide by 128, then the plain deadzone of 0.15. */
  function NormalizeAxis(v: int): (r: real)
    requires IsStickByte(v)
    ensures -1.0 <= r < 1.0
    ensures v == 128 ==> r == 0.0
    ensures r == 0.0 || Abs(r) >= 0.15
  {
    DeadzoneGap((v - 128) as real / 128.0, 0.15);
    Deadzone((v - 128) as real / 128.0, 0.15)
  }

  // ---------------------------------------------------------------- reading the pad

  /** What `ioPadGetData` fills in: the report length, the two digital bytes and the sticks. */
  datatype PadData = PadData(len: int, button2: bv16, button3: bv16,
                             anaLH: int, anaLV: int, anaRH: int, anaRV: int)
  {
    predicate Valid() {
      IsStickByte(anaLH) && IsStickByte(anaLV) && IsStickByte(anaRH) && IsStickByte(anaRV)
    }
  }

  /** `m_padState`. */
  datatype Pad = Pad(buttons: bv16, prevButtons: bv16,
                     lstickX: int, lstickY: int, rstickX: int, rstickY: int)

  /**
   * The pad record after one update: the old buttons become the previous ones, then buttons
   * 0 and sticks 128, overwritten only when pad 0 is connected and a non-empty report is read.
   */
  function ReadPad(pad: Pad, connected: bool, data: Option<PadData>): (p: Pad)
    requires data.Some? ==> data.value.Valid()
    ensures p.prevButtons == pad.buttons
    ensures !(connected && data.Some? && data.value.len > 0) ==> p == Pad(0, pad.buttons, 128, 128, 128, 128)
    ensures connected && data.Some? && data.value.len > 0 ==> var d := data.value;
      p == Pad(ButtonWord(d.button2, d.button3), pad.buttons, d.anaLH, d.anaLV, d.anaRH, d.anaRV)
    ensures IsStickByte(p.lstickX) && IsStickByte(p.lstickY) && IsStickByte(p.rstickX) && IsStickByte(p.rstickY)
  {
    var reset := Pad(0, pad.buttons, 128, 128, 128, 128);
    if connected then
      match data
      case Some(d) =>
        if d.len > 0 then reset.(buttons := ButtonWord(d.button2, d.button3),
                                 lstickX := d.anaLH, lstickY := d.anaLV, rstickX := d.anaRH, rstickY := d.anaRV)
        else reset
      case None => reset
    else reset
  }

  predicate SticksValid(p: Pad) {
    IsStickByte(p.lstickX) && IsStickByte(p.lstickY) && IsStickByte(p.rstickX) && IsStickByte(p.rstickY)
  }

  // ---------------------------------------------------------------- writing the state

  /** The held flags the buttons drive. */
  function HeldButtons(held: ActionFlags, w: bv16): ActionFlags {
    held.(action1 := Down(w, PadCross), action2 := Down(w, PadCircle),
          action3 := Down(w, PadSquare), action4 := Down(w, PadTriangle),
          jump := Down(w, PadCross), crouch := Down(w, PadL2), sprint := Down(w, PadR2),
          cycleLeft := Down(w, PadL1), cycleRight := Down(w, PadR1),
          menuOpen := Down(w, PadStart), menuBack := Down(w, PadSelect) || Down(w, PadCircle))
  }

  /** Axes, button-held flags and the pressed flags from `buttons & ~prevButtons`. */
  function MapButtons(p: Pad, s: InputState): (r: InputState)
    requires SticksValid(p)
    ensures r.moveAxisX == NormalizeAxis(p.lstickX) && r.moveAxisY == -NormalizeAxis(p.lstickY)
    ensures r.lookAxisX == NormalizeAxis(p.rstickX) * 100.0 && r.lookAxisY == -NormalizeAxis(p.rstickY) * 100.0
  {
    var pressed := p.buttons & !p.prevButtons;
    s.(moveAxisX := NormalizeAxis(p.lstickX), moveAxisY := -NormalizeAxis(p.lstickY),
       lookAxisX := NormalizeAxis(p.rstickX) * 100.0, lookAxisY := -NormalizeAxis(p.rstickY) * 100.0,
       actionsHeld := HeldButtons(s.actionsHeld, p.buttons),
       actions := s.actions.(action1 := Down(pressed, PadCross), action2 := Down(pressed, PadCircle),
                             menuOpen := Down(pressed, PadStart)))
  }

  /**
   * `UpdateGamepadInput` as written: the stick can only set the movement flags, and nothing
   * clears them, so they keep whatever an earlier frame left.
   */
  function MapPad(p: Pad, s: InputState): (r: InputState)
    requires SticksValid(p)
    ensures r.actionsHeld.moveForward == (s.actionsHeld.moveForward || r.moveAxisY > StickThreshold)
    ensures r.actionsHeld.moveBackward == (s.actionsHeld.moveBackward || r.moveAxisY < -StickThreshold)
    ensures r.actionsHeld.moveRight == (s.actionsHeld.moveRight || r.moveAxisX > StickThreshold)
    ensures r.actionsHeld.moveLeft == (s.actionsHeld.moveLeft || r.moveAxisX < -StickThreshold)
  {
    var m := MapButtons(p, s);
    ElseIfSpellingAgrees(m.actionsHeld, m.moveAxisX, m.moveAxisY);
    m.(actionsHeld := StickToDigitalElseIf(m.actionsHeld, m.moveAxisX, m.moveAxisY))
  }

  /** Corrected: the movement flags are decided by this frame's stick alone. */
  function MapPadCorrected(p: Pad, s: InputState): (r: InputState)
    requires SticksValid(p)
    ensures r.actionsHeld.moveForward == (r.moveAxisY > StickThreshold)
    ensures r.actionsHeld.moveBackward == (r.moveAxisY < -StickThreshold)
    ensures r.actionsHeld.moveRight == (r.moveAxisX > StickThreshold)
    ensures r.actionsHeld.moveLeft == (r.moveAxisX < -StickThreshold)
  {
    var m := MapButtons(p, s);
    m.(actionsHeld := StickOnlyMoves(m.actionsHeld, m.moveAxisX, m.moveAxisY))
  }

  /** `PollInput` as written: update the pad, write the state, tag the device. */
  function PollInput(pad: Pad, connected: bool, data: Option<PadData>, s: InputState): (r: (Pad, InputState))
    requires data.Some? ==> data.value.Valid()
    ensures r.0 == ReadPad(pad, connected, data)
    ensures r.1.deviceType == PSController
    ensures r.1.actionsHeld.moveForward == (s.actionsHeld.moveForward || r.1.moveAxisY > StickThreshold)
    ensures r.1.actionsHeld.moveBackward == (s.actionsHeld.moveBackward || r.1.moveAxisY < -StickThreshold)
    ensures r.1.actionsHeld.moveRight == (s.actionsHeld.moveRight || r.1.moveAxisX > StickThreshold)
    ensures r.1.actionsHeld.moveLeft == (s.actionsHeld.moveLeft || r.1.moveAxisX < -StickThreshold)
  {
    var p := ReadPad(pad, connected, data);
    (p, MapPad(p, s).(deviceType := PSController))
  }

  /** Corrected `PollInput`: the same poll over the corrected update. */
  function PollInputCorrected(pad: Pad, connected: bool, data: Option<PadData>, s: InputState)
    : (r: (Pad, InputState))
    requires data.Some? ==> data.value.Valid()
    ensures r.0 == ReadPad(pad, connected, data)
    ensures r.1.deviceType == PSController
    ensures r.1.actionsHeld.moveForward == (r.1.moveAxisY > StickThreshold)
    ensures r.1.actionsHeld.moveBackward == (r.1.moveAxisY < -StickThreshold)
    ensures r.1.actionsHeld.moveRight == (r.1.moveAxisX > StickThreshold)
    ensures r.1.actionsHeld.moveLeft == (r.1.moveAxisX < -StickThreshold)
  {
    var p := ReadPad(pad, connected, data);
    (p, MapPadCorrected(p, s).(deviceType := PSController))
  }

  /** The held mapping, with Cross driving both Action1 and Jump and MenuBack on Select or Circle. */
  lemma HeldMapping(pad: Pad, connected: bool, data: Option<PadData>, s: InputState)
    requires data.Some? ==> data.value.Valid()
    ensures var (p, r) := PollInput(pad, connected, data, s); var h := r.actionsHeld; var w := p.buttons;
      && h.action1 == h.jump == Down(w, PadCross)
      && h.action2 == Down(w, PadCircle) && h.action3 == Down(w, PadSquare) && h.action4 == Down(w, PadTriangle)
      && h.crouch == Down(w, PadL2) && h.sprint == Down(w, PadR2)
      && h.cycleLeft == Down(w, PadL1) && h.cycleRight == Down(w, PadR1)
      && h.menuOpen == Down(w, PadStart)
      && (h.menuBack <==> Down(w, PadSelect) || Down(w, PadCircle))
  {
  }

  /** Pressed flags: Cross, Circle and Start that are down now and were up at the previous update. */
  lemma PressedMapping(pad: Pad, connected: bool, data: Option<PadData>, s: InputState)
    requires data.Some? ==> data.value.Valid()
    ensures var (p, r) := PollInput(pad, connected, data, s); var e := r.actions;
      && e.action1 == (Down(p.buttons, PadCross) && !Down(pad.buttons, PadCross))
      && e.action2 == (Down(p.buttons, PadCircle) && !Down(pad.buttons, PadCircle))
      && e.menuOpen == (Down(p.buttons, PadStart) && !Down(pad.buttons, PadStart))
      && e.jump == s.actions.jump
  {
    var p := ReadPad(pad, connected, data);
    PressedBit(p.buttons, pad.buttons, PadCross);
    PressedBit(p.buttons, pad.buttons, PadCircle);
    PressedBit(p.buttons, pad.buttons, PadStart);
  }

  /**
   * With pad 0 absent or its read failing, the sticks read as centred and no button is down;
   * the movement flags keep whatever the incoming state held.
   */
  lemma AbsentPadIsNeutral(pad: Pad, connected: bool, data: Option<PadData>, s: InputState)
    requires data.Some? ==> data.value.Valid()
    requires !connected || data.None? || data.value.len <= 0
    ensures var (p, r) := PollInput(pad, connected, data, s); var h := r.actionsHeld;
      && p.buttons == 0 && p.prevButtons == pad.buttons
      && r.moveAxisX == 0.0 && r.moveAxisY == 0.0 && r.lookAxisX == 0.0 && r.lookAxisY == 0.0
      && !h.action1 && !h.action2 && !h.action3 && !h.action4 && !h.jump && !h.crouch && !h.sprint
      && !h.cycleLeft && !h.cycleRight && !h.menuOpen && !h.menuBack
      && h.moveForward == s.actionsHeld.moveForward && h.moveBackward == s.actionsHeld.moveBackward
      && h.moveLeft == s.actionsHeld.moveLeft && h.moveRight == s.actionsHeld.moveRight
      && !r.actions.action1 && !r.actions.action2 && !r.actions.menuOpen
  {
  }

  /** Corrected, an absent pad also releases the four movement flags. */
  lemma AbsentPadIsNeutralCorrected(pad: Pad, connected: bool, data: Option<PadData>, s: InputState)
    requires data.Some? ==> data.value.Valid()
    requires !connected || data.None? || data.value.len <= 0
    ensures var (p, r) := PollInputCorrected(pad, connected, data, s); var h := r.actionsHeld;
      && p.buttons == 0 && r.moveAxisX == 0.0 && r.moveAxisY == 0.0
      && !h.action1 && !h.action2 && !h.action3 && !h.action4 && !h.jump && !h.crouch && !h.sprint
      && !h.cycleLeft && !h.cycleRight && !h.menuOpen && !h.menuBack
      && !h.moveForward && !h.moveBackward && !h.moveLeft && !h.moveRight
  {
  }

  /** Reading the same report twice raises no press the second time. */
  lemma SteadyReadingNoPress(pad: Pad, connected: bool, data: Option<PadData>, s: InputState)
    requires data.Some? ==> data.value.Valid()
    ensures var (p1, r1) := PollInput(pad, connected, data, s);
      var (p2, r2) := PollInput(p1, connected, data, r1);
      && p2.prevButtons == p2.buttons
      && !r2.actions.action1 && !r2.actions.action2 && !r2.actions.menuOpen
  {
  }

  /**
   * The as-written update differs from the corrected one only in the movement flags, where it
   * also keeps every flag the incoming state held.
   */
  lemma AsWrittenOnlyAddsMoves(pad: Pad, connected: bool, data: Option<PadData>, s: InputState)
    requires data.Some? ==> data.value.Valid()
    ensures var a := PollInput(pad, connected, data, s).1;
      var r := PollInputCorrected(pad, connected, data, s).1;
      && a.actions == r.actions && a.moveAxisX == r.moveAxisX && a.moveAxisY == r.moveAxisY
      && SameBesidesMoves(a.actionsHeld, r.actionsHeld)
      && a.actionsHeld.moveForward == (s.actionsHeld.moveForward || r.actionsHeld.moveForward)
      && a.actionsHeld.moveBackward == (s.actionsHeld.moveBackward || r.actionsHeld.moveBackward)
      && a.actionsHeld.moveRight == (s.actionsHeld.moveRight || r.actionsHeld.moveRight)
      && a.actionsHeld.moveLeft == (s.actionsHeld.moveLeft || r.actionsHeld.moveLeft)
  {
    ElseIfSpellingAgrees(MapButtons(ReadPad(pad, connected, data), s).actionsHeld,
                         PollInputCorrected(pad, connected, data, s).1.moveAxisX,
                         PollInputCorrected(pad, connected, data, s).1.moveAxisY);
  }

  /** A report with the left stick pushed fully up (vertical byte 0) and no button down. */
  const StickUp: PadData := PadData(1, 0, 0, 128, 0, 128, 128)

  /** The same report with the stick back in the centre. */
  const StickCentred: PadData := PadData(1, 0, 0, 128, 128, 128, 128)

  /**
   * As written, pushing the stick up and letting it go leaves MoveForward held on the centred
   * frame, and on every later one, although the axis reads 0.
   */
  lemma StickLatchesForward(pad: Pad, s: InputState)
    ensures var (p1, r1) := PollInput(pad, true, Some(StickUp), s);
      var r2 := PollInput(p1, true, Some(StickCentred), r1).1;
      && r1.moveAxisY == 1.0 && r1.actionsHeld.moveForward
      && r2.moveAxisY == 0.0 && r2.actionsHeld.moveForward
  {
    assert NormalizeAxis(0) == -1.0;
  }

  /** Corrected, the centred frame releases MoveForward. */
  lemma CentredStickReleasesForward(pad: Pad, s: InputState)
    ensures var (p1, r1) := PollInputCorrected(pad, true, Some(StickUp), s);
      var r2 := PollInputCorrected(p1, true, Some(StickCentred), r1).1;
      && r1.actionsHeld.moveForward && !r2.actionsHeld.moveForward
  {
    assert NormalizeAxis(0) == -1.0;
  }

  /** The features this back end reports. */
  const Features: set<string> := {"gamepad", "filesystem"}

  /** `HasFeature`. */
  function HasFeature(name: string): (r: bool)
    ensures r <==> name in Features
  {
    name == "gamepad" || name == "filesystem"
  }
}
