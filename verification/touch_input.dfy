/**
 * The touch facade (TouchInput.cpp): one touch is synthesised from the pointer of the current
 * state, with a phase derived from the previous frame's touch list.
 */
module TouchInput {
  import opened Wrappers
  import opened Inputs

  datatype Phase = Began | Moved | Stationary | Ended | Canceled

  datatype Touch = Touch(
    fingerId: int,
    position: Vec2,
    deltaPosition: Vec2,
    pressure: real,
    isActive: bool,
    phase: Phase)

  /** A default-constructed touch: finger -1, at the origin, inactive, phase Ended. */
  const InvalidTouch: Touch := Touch(-1, Zero2, Zero2, 1.0, false, Ended)

  /** `MAX_TOUCHES`. */
  const MaxTouches: nat := 10

  /**
   * The squared form of the moved test `sqrt(dx*dx + dy*dy) > 0.01`: over the reals the
   * square root is monotone, so comparing squares with 0.01 * 0.01 decides the same.
   */
  const MoveThresholdSquared: real := 0.0001

  /** The facade's static fields: the current state and the current and previous touch lists. */
  datatype Facade = Facade(current: Option<InputState>, touches: seq<Touch>, prevTouches: seq<Touch>)

  const InitialFacade := Facade(None, [], [])

  /** `IsSupported`: a state from a touchscreen or a Wii U GamePad. */
  function IsSupported(state: Option<InputState>): (r: bool)
    ensures r <==> state.Some? && state.value.deviceType in {Touchscreen, WiiUGamePad}
  {
    match state
    case None => false
    case Some(s) => s.deviceType == Touchscreen || s.deviceType == WiiUGamePad
  }

  /** `SupportsMultiTouch` answers the same as `IsSupported`. */
  function SupportsMultiTouch(state: Option<InputState>): (r: bool)
    ensures r == IsSupported(state)
  {
    IsSupported(state)
  }

  /** `GetMaxTouchCount`. */
  function GetMaxTouchCount(state: Option<InputState>): (n: nat)
    ensures IsSupported(state) ==> n == MaxTouches
    ensures !IsSupported(state) ==> n == 0
  {
    if !IsSupported(state) then 0 else MaxTouches
  }

  /** `IsWiiUGamePad`. */
  function IsWiiUGamePad(state: Option<InputState>): (r: bool)
    ensures r <==> state.Some? && state.value.deviceType == WiiUGamePad
    ensures r ==> IsSupported(state)
  {
    state.Some? && state.value.deviceType == WiiUGamePad
  }

  /** `FindPreviousTouch`: the first active touch with the finger id, scanning in order. */
  function FindPreviousTouch(prev: seq<Touch>, fingerId: int): (r: Option<nat>)
    ensures r.Some? ==> r.value < |prev| && prev[r.value].isActive && prev[r.value].fingerId == fingerId
    ensures r.Some? ==> forall j :: 0 <= j < r.value ==> !(prev[j].isActive && prev[j].fingerId == fingerId)
    ensures r.None? <==> forall j :: 0 <= j < |prev| ==> !(prev[j].isActive && prev[j].fingerId == fingerId)
  {
    if |prev| == 0 then None
    else if prev[0].fingerId == fingerId && prev[0].isActive then Some(0)
    else
      match FindPreviousTouch(prev[1..], fingerId)
      case None => None
      case Some(i) => Some(i + 1)
  }

  /** Squared distance between two positions. */
  function DistanceSquared(a: Vec2, b: Vec2): (d: real)
    ensures d >= 0.0
  {
    (a.x - b.x) * (a.x - b.x) + (a.y - b.y) * (a.y - b.y)
  }

  /** The phase of the synthesised touch at `position` given the previous frame's touches. */
  function PhaseOf(prev: seq<Touch>, position: Vec2): (ph: Phase)
    ensures ph == Began <==> FindPreviousTouch(prev, 0).None?
    ensures ph in {Began, Moved, Stationary}
  {
    match FindPreviousTouch(prev, 0)
    case None => Began
    case Some(i) =>
      if DistanceSquared(position, prev[i].position) > MoveThresholdSquared then Moved else Stationary
  }

  /**
   * `UpdateTouches`: no touch without a supported state or with the pointer up; otherwise
   * one active touch, finger 0, pressure 1, at the pointer with the pointer's delta.
   */
  function UpdateTouches(state: Option<InputState>, prev: seq<Touch>): (ts: seq<Touch>)
    ensures |ts| <= 1
    ensures |ts| == 1 <==> IsSupported(state) && state.value.pointerDown
    ensures |ts| == 1 ==> var s := state.value; var t := ts[0];
      && t.fingerId == 0 && t.pressure == 1.0 && t.isActive
      && t.position == Vec2(s.pointerX, s.pointerY)
      && t.deltaPosition == Vec2(s.pointerDeltaX, s.pointerDeltaY)
      && (t.phase == Began <==> FindPreviousTouch(prev, 0).None?)
  {
    if !IsSupported(state) then []
    else
      var s := state.value;
      if !s.pointerDown then []
      else
        var position := Vec2(s.pointerX, s.pointerY);
        [Touch(0, position, Vec2(s.pointerDeltaX, s.pointerDeltaY), 1.0, true, PhaseOf(prev, position))]
  }

  /** `SetInputState`: the current list becomes the previous one, then the list is rebuilt. */
  function SetInputState(f: Facade, state: Option<InputState>): (r: Facade)
    ensures r.current == state && r.prevTouches == f.touches
    ensures r.touches == UpdateTouches(state, f.touches)
  {
    Facade(state, UpdateTouches(state, f.touches), f.touches)
  }

  /** `GetTouchCount`. */
  function GetTouchCount(f: Facade): (n: nat)
    ensures n == |f.touches|
  {
    |f.touches|
  }

  /** `IsTouching`. */
  function IsTouching(f: Facade): (r: bool)
    ensures r <==> GetTouchCount(f) > 0
  {
    |f.touches| > 0
  }

  /** `GetTouch(index)`: the default touch for an index outside the list. */
  function GetTouch(f: Facade, index: int): (t: Touch)
    ensures 0 <= index < |f.touches| ==> t == f.touches[index]
    ensures (index < 0 || index >= |f.touches|) ==> t == InvalidTouch
  {
    if index < 0 || index >= |f.touches| then InvalidTouch else f.touches[index]
  }

  /** `GetPrimaryTouch`. */
  function GetPrimaryTouch(f: Facade): (t: Touch)
    ensures t == GetTouch(f, 0)
  {
    GetTouch(f, 0)
  }

  /** Whether some touch of a list has the phase (the loops of `TouchBegan` and `TouchMoved`). */
  function AnyInPhase(ts: seq<Touch>, ph: Phase): (r: bool)
    ensures r <==> exists i :: 0 <= i < |ts| && ts[i].phase == ph
  {
    if |ts| == 0 then false
    else if ts[0].phase == ph then true
    else
      assert forall i :: 1 <= i < |ts| ==> ts[i] == ts[1..][i - 1];
      AnyInPhase(ts[1..], ph)
  }

  function TouchBegan(f: Facade): (r: bool)
    ensures r <==> exists i :: 0 <= i < |f.touches| && f.touches[i].phase == Began
  {
    AnyInPhase(f.touches, Began)
  }

  function TouchMoved(f: Facade): (r: bool)
    ensures r <==> exists i :: 0 <= i < |f.touches| && f.touches[i].phase == Moved
  {
    AnyInPhase(f.touches, Moved)
  }

  /** Whether some touch of a list carries the finger id (the inner loop of `TouchEnded`). */
  function HasFinger(ts: seq<Touch>, fingerId: int): (r: bool)
    ensures r <==> exists i :: 0 <= i < |ts| && ts[i].fingerId == fingerId
  {
    if |ts| == 0 then false
    else if ts[0].fingerId == fingerId then true
    else
      assert forall i :: 1 <= i < |ts| ==> ts[i] == ts[1..][i - 1];
      HasFinger(ts[1..], fingerId)
  }

  /** The outer loop of `TouchEnded`: some active previous touch whose finger is gone. */
  function AnyEnded(prev: seq<Touch>, cur: seq<Touch>): (r: bool)
    ensures r <==> exists i :: 0 <= i < |prev| && prev[i].isActive && !HasFinger(cur, prev[i].fingerId)
  {
    if |prev| == 0 then false
    else if prev[0].isActive && !HasFinger(cur, prev[0].fingerId) then true
    else
      assert forall i :: 1 <= i < |prev| ==> prev[i] == prev[1..][i - 1];
      AnyEnded(prev[1..], cur)
  }

  /** `TouchEnded`. */
  function TouchEnded(f: Facade): (r: bool)
    ensures r <==> exists i :: 0 <= i < |f.prevTouches| && f.prevTouches[i].isActive
                                && !HasFinger(f.touches, f.prevTouches[i].fingerId)
  {
    AnyEnded(f.prevTouches, f.touches)
  }

  /** A touch held on a supported device over two frames is Began in the first and not in the second. */
  lemma HeldTouchBeginsOnce(f: Facade, s1: InputState, s2: InputState)
    requires IsSupported(Some(s1)) && s1.pointerDown
    requires IsSupported(Some(s2)) && s2.pointerDown
    requires forall i :: 0 <= i < |f.touches| ==> !f.touches[i].isActive
    ensures var g := SetInputState(f, Some(s1)); var h := SetInputState(g, Some(s2));
      && TouchBegan(g) && !TouchEnded(g)
      && !TouchBegan(h) && !TouchEnded(h) && IsTouching(h)
  {
    var g := SetInputState(f, Some(s1));
    assert FindPreviousTouch(f.touches, 0).None?;
    assert g.touches[0].isActive && g.touches[0].fingerId == 0;
    assert FindPreviousTouch(g.touches, 0).Some?;
    assert HasFinger(g.touches, 0);
  }

  /** Lifting the pointer after a frame with a touch ends it. */
  lemma LiftEndsTouch(f: Facade, s: InputState)
    requires IsTouching(f) && f.touches[0].isActive
    requires !s.pointerDown
    ensures var g := SetInputState(f, Some(s)); TouchEnded(g) && !IsTouching(g)
  {
    var g := SetInputState(f, Some(s));
    assert !HasFinger(g.touches, f.touches[0].fingerId);
  }

  /** Without a state there is no touch, nothing begins and touch support is off. */
  lemma NoStateNoTouch(f: Facade)
    ensures var g := SetInputState(f, None);
      && !IsTouching(g) && !TouchBegan(g) && !TouchMoved(g)
      && GetTouch(g, 0) == InvalidTouch && GetMaxTouchCount(None) == 0
  {
  }

  /** `GetTouchPosition` / `GetTouchDelta`: the pointer, 0 without a state. */
  function GetTouchPosition(state: Option<InputState>): (v: Vec2)
    ensures state.None? ==> v == Zero2
    ensures state.Some? ==> v == Vec2(state.value.pointerX, state.value.pointerY)
  {
    match state
    case None => Zero2
    case Some(s) => Vec2(s.pointerX, s.pointerY)
  }

  function GetTouchDelta(state: Option<InputState>): (v: Vec2)
    ensures state.None? ==> v == Zero2
    ensures state.Some? ==> v == Vec2(state.value.pointerDeltaX, state.value.pointerDeltaY)
  {
    match state
    case None => Zero2
    case Some(s) => Vec2(s.pointerDeltaX, s.pointerDeltaY)
  }

  /** A touch on the list is where the pointer is. */
  lemma TouchSitsAtPointer(f: Facade, s: InputState)
    requires IsSupported(Some(s)) && s.pointerDown
    ensures var g := SetInputState(f, Some(s));
      GetPrimaryTouch(g).position == GetTouchPosition(Some(s))
      && GetPrimaryTouch(g).deltaPosition == GetTouchDelta(Some(s))
  {
  }
}
