/**
 * The Android back end (AndroidPlatform.cpp): motion events maintain the touch table, the
 * per-frame pass turns the table into an input state, and the five on-screen controls are
 * rebuilt from scratch by `SetupVirtualControls`.
 *
 * Event coordinates arrive already divided by the screen size (`normX`, `normY`).
 */
module AndroidPlatform {
  import opened Wrappers
  import opened Inputs
  import opened TouchSlots
  import opened TouchControls

  /** The masked motion actions the dispatcher tells apart; every other action code is `OtherMotion`. */
  datatype MotionAction = Down | PointerDown | Move | Up | PointerUp | Cancel | OtherMotion

  /** One pointer of a motion event: its id and normalised position. */
  datatype Pointer = Pointer(id: int, x: real, y: real)

  /**
   * An input event: a motion event with the pointer its action refers to and all its
   * pointers, or any other event type (keys and so on).
   */
  datatype InputEvent =
    | Motion(action: MotionAction, actor: Pointer, pointers: seq<Pointer>)
    | OtherEvent

  /** `SetupVirtualControls`: clears the list, then adds the five controls. */
  function SetupVirtualControls(p: BackEnd): (r: BackEnd)
    ensures |r.controls| == 5 && r.controls == DefaultControls
    ensures r.table == p.table && r.controller == p.controller
  {
    p.(controls := DefaultControls)
  }

  /** Because the list is cleared first, setting up twice is setting up once. */
  lemma SetupVirtualControlsIdempotent(p: BackEnd)
    ensures SetupVirtualControls(SetupVirtualControls(p)) == SetupVirtualControls(p)
  {
  }

  /**
   * DOWN / POINTER_DOWN: allocate the lowest free slot for the pointer and place the touch
   * there, start and current position alike. A full table is left as it is.
   */
  function Press(t: seq<TouchPoint>, p: Pointer): (r: seq<TouchPoint>)
    ensures |r| == |t|
    ensures FirstFree(t).None? ==> r == t
    ensures FirstFree(t).Some? ==> var i := FirstFree(t).value;
      && r[i] == TouchPoint(p.id, p.x, p.y, p.x, p.y, true)
      && (forall j :: 0 <= j < |t| && j != i ==> r[j] == t[j])
  {
    match AllocateTouchPoint(t, p.id)
    case (t1, None) => t1
    case (t1, Some(i)) => t1[i := t1[i].(x := p.x, y := p.y, startX := p.x, startY := p.y)]
  }

  /** Two tables with the same slots in use under the same ids and start points. */
  predicate SameSlots(t: seq<TouchPoint>, r: seq<TouchPoint>) {
    |r| == |t|
    && forall j :: 0 <= j < |t| ==>
         r[j].id == t[j].id && r[j].active == t[j].active
         && r[j].startX == t[j].startX && r[j].startY == t[j].startY
  }

  /** MOVE: every pointer of the event whose id a slot carries moves that slot, in pointer order. */
  function MoveAll(t: seq<TouchPoint>, ps: seq<Pointer>): (r: seq<TouchPoint>)
    ensures SameSlots(t, r)
    decreases |ps|
  {
    if |ps| == 0 then t
    else
      var t1 := match GetTouchPoint(t, ps[0].id)
        case None => t
        case Some(i) => MoveTo(t, i, ps[0].x, ps[0].y);
      MoveAll(t1, ps[1..])
  }

  /**
   * `HandleInputEvent`: motion events update the table and report 1 (handled); any other
   * event leaves it alone and reports 0. UP, POINTER_UP and CANCEL release the pointer's
   * slot; other motion actions change nothing.
   */
  function HandleInputEvent(t: seq<TouchPoint>, e: InputEvent): (r: (seq<TouchPoint>, int))
    ensures r.1 == 1 <==> e.Motion?
    ensures r.1 == 0 <==> e.OtherEvent?
    ensures |r.0| == |t|
    ensures e.OtherEvent? ==> r.0 == t
    ensures e.Motion? && e.action in {Down, PointerDown} ==> r.0 == Press(t, e.actor)
    ensures e.Motion? && e.action == Move ==> r.0 == MoveAll(t, e.pointers)
    ensures e.Motion? && e.action in {Up, PointerUp, Cancel} ==> r.0 == ReleaseTouchPoint(t, e.actor.id)
    ensures e.Motion? && e.action == OtherMotion ==> r.0 == t
  {
    match e
    case OtherEvent => (t, 0)
    case Motion(action, actor, pointers) =>
      var t1 := match action
        case Down => Press(t, actor)
        case PointerDown => Press(t, actor)
        case Move => MoveAll(t, pointers)
        case Up => ReleaseTouchPoint(t, actor.id)
        case PointerUp => ReleaseTouchPoint(t, actor.id)
        case Cancel => ReleaseTouchPoint(t, actor.id)
        case OtherMotion => t;
      (t1, 1)
  }

  /** The slot count depends only on which slots are in use. */
  lemma {:induction false} SameSlotsSameCount(t: seq<TouchPoint>, r: seq<TouchPoint>)
    requires SameSlots(t, r)
    ensures ActiveCount(r) == ActiveCount(t)
  {
    if |t| > 0 {
      assert SameSlots(t[1..], r[1..]) by {
        assert forall j :: 0 <= j < |t| - 1 ==> t[1..][j] == t[j + 1] && r[1..][j] == r[j + 1];
      }
      SameSlotsSameCount(t[1..], r[1..]);
    }
  }

  /**
   * How each event moves the number of slots in use: a press adds one unless the table is
   * full, a release of a carried id removes one, and everything else keeps the count.
   */
  lemma EventCounts(t: seq<TouchPoint>, e: InputEvent)
    ensures var r := HandleInputEvent(t, e).0;
      && (e.Motion? && e.action in {Down, PointerDown} ==>
            ActiveCount(r) == ActiveCount(t) + (if FirstFree(t).Some? then 1 else 0))
      && (e.Motion? && e.action in {Up, PointerUp, Cancel} ==>
            ActiveCount(r) + (if GetTouchPoint(t, e.actor.id).Some? then 1 else 0) == ActiveCount(t))
      && (e.OtherEvent? || e.action in {Move, OtherMotion} ==> ActiveCount(r) == ActiveCount(t))
  {
    var r := HandleInputEvent(t, e).0;
    match e
    case OtherEvent =>
    case Motion(action, actor, pointers) =>
      if action in {Down, PointerDown} {
        if FirstFree(t).Some? {
          ActiveCountUpdate(t, FirstFree(t).value, r[FirstFree(t).value]);
          assert r == t[FirstFree(t).value := r[FirstFree(t).value]];
        }
      } else if action in {Up, PointerUp, Cancel} {
        AllocateReleaseCounts(t, actor.id);
      } else if action == Move {
        SameSlotsSameCount(t, r);
      }
  }

  /** Moving slots keeps ids unique. */
  lemma SameSlotsKeepUnique(t: seq<TouchPoint>, r: seq<TouchPoint>)
    requires SameSlots(t, r) && UniqueIds(t)
    ensures UniqueIds(r)
  {
  }

  /** A press of a pointer no slot carries keeps ids unique. */
  lemma PressFreshKeepsUnique(t: seq<TouchPoint>, p: Pointer)
    requires UniqueIds(t) && GetTouchPoint(t, p.id).None?
    ensures UniqueIds(Press(t, p))
  {
    assert forall j :: 0 <= j < |t| ==> !Carries(t[j], p.id);
  }

  /**
   * Every event keeps the ids of the slots in use distinct, provided a press names a pointer
   * id that no slot carries (the system never reuses a live pointer id).
   */
  lemma EventsKeepUniqueIds(t: seq<TouchPoint>, e: InputEvent)
    requires UniqueIds(t)
    requires e.Motion? && e.action in {Down, PointerDown} ==> GetTouchPoint(t, e.actor.id).None?
    ensures UniqueIds(HandleInputEvent(t, e).0)
  {
    match e
    case OtherEvent =>
    case Motion(action, actor, pointers) =>
      if action in {Down, PointerDown} {
        PressFreshKeepsUnique(t, actor);
      } else if action in {Up, PointerUp, Cancel} {
        ReleaseKeepsUnique(t, actor.id);
      } else if action == Move {
        SameSlotsKeepUnique(t, MoveAll(t, pointers));
      }
  }

  /** A press with a free slot is what a lookup of its id finds, placed where the finger went down. */
  lemma PressPlacesTouch(t: seq<TouchPoint>, p: Pointer)
    requires GetTouchPoint(t, p.id).None? && FirstFree(t).Some?
    ensures var r := Press(t, p);
      && GetTouchPoint(r, p.id) == FirstFree(t)
      && r[FirstFree(t).value] == TouchPoint(p.id, p.x, p.y, p.x, p.y, true)
  {
    var r := Press(t, p);
    var i := FirstFree(t).value;
    assert forall j :: 0 <= j < |t| ==> !Carries(t[j], p.id);
    assert forall j :: 0 <= j < i ==> r[j] == t[j] && !Carries(r[j], p.id);
    assert Carries(r[i], p.id);
  }

  /** After a release, under distinct ids, no slot carries the released pointer. */
  lemma ReleaseForgetsPointer(t: seq<TouchPoint>, e: InputEvent)
    requires UniqueIds(t)
    requires e.Motion? && e.action in {Up, PointerUp, Cancel}
    ensures GetTouchPoint(HandleInputEvent(t, e).0, e.actor.id).None?
  {
    ReleaseKeepsUnique(t, e.actor.id);
  }

  /** A pointer of a move event whose id no slot carries leaves a slot untouched. */
  lemma {:induction false} MoveAllKeepsUnnamed(t: seq<TouchPoint>, ps: seq<Pointer>, i: nat)
    requires i < |t|
    requires !t[i].active || forall m :: 0 <= m < |ps| ==> ps[m].id != t[i].id
    ensures MoveAll(t, ps)[i] == t[i]
    decreases |ps|
  {
    if |ps| > 0 {
      var t1 := match GetTouchPoint(t, ps[0].id)
        case None => t
        case Some(k) => MoveTo(t, k, ps[0].x, ps[0].y);
      assert t1[i] == t[i];
      assert forall m :: 0 <= m < |ps| - 1 ==> ps[1..][m] == ps[m + 1];
      MoveAllKeepsUnnamed(t1, ps[1..], i);
    }
  }

  /** Under distinct ids, a lookup of a slot's id finds that slot. */
  lemma FindUnique(t: seq<TouchPoint>, i: nat)
    requires UniqueIds(t) && i < |t| && t[i].active
    ensures GetTouchPoint(t, t[i].id) == Some(i)
  {
    var g := GetTouchPoint(t, t[i].id);
    assert Carries(t[i], t[i].id);
    assert !(g.value < i) && !(g.value > i);
  }

  /** Distinct pointer ids within one event. */
  predicate DistinctPointers(ps: seq<Pointer>) {
    forall m, n :: 0 <= m < n < |ps| ==> ps[m].id != ps[n].id
  }

  /**
   * A move event puts every tracked finger where the event says it is: with distinct slot
   * ids and distinct pointer ids, the slot carrying pointer `k`'s id ends at pointer `k`.
   */
  lemma {:induction false} MovedPointerLands(t: seq<TouchPoint>, ps: seq<Pointer>, k: nat, i: nat)
    requires UniqueIds(t) && DistinctPointers(ps)
    requires k < |ps| && i < |t| && Carries(t[i], ps[k].id)
    ensures MoveAll(t, ps)[i].x == ps[k].x && MoveAll(t, ps)[i].y == ps[k].y
    decreases |ps|
  {
    FindUnique(t, i);
    var t1 := match GetTouchPoint(t, ps[0].id)
      case None => t
      case Some(j) => MoveTo(t, j, ps[0].x, ps[0].y);
    assert SameSlots(t, t1);
    assert forall m :: 0 <= m < |ps| - 1 ==> ps[1..][m] == ps[m + 1];
    if k == 0 {
      assert t1[i].x == ps[0].x && t1[i].y == ps[0].y;
      MoveAllKeepsUnnamed(t1, ps[1..], i);
    } else {
      assert Carries(t1[i], ps[1..][k - 1].id);
      MovedPointerLands(t1, ps[1..], k - 1, i);
    }
  }

  /** The first finger on an empty table lands in slot 0, wherever it goes down. */
  lemma FirstTouchTakesSlotZero(id: int, x: real, y: real)
    ensures var tap := Pointer(id, x, y);
      HandleInputEvent(InitialTable, Motion(Down, tap, [tap])).0 == InitialTable[0 := TouchPoint(id, x, y, x, y, true)]
  {
    var tap := Pointer(id, x, y);
    var r := HandleInputEvent(InitialTable, Motion(Down, tap, [tap])).0;
    assert FirstFree(InitialTable) == Some(0);
    assert |r| == |InitialTable|;
    assert forall j :: 0 <= j < |r| ==> r[j] == InitialTable[0 := TouchPoint(id, x, y, x, y, true)][j];
  }

  /** The pass over a table whose only touch is one on the A button finds Action1 alone. */
  lemma ButtonTapScan(stick: TouchPoint -> Vec2, look: TouchPoint -> Vec2)
    ensures var t := InitialTable[0 := TouchPoint(7, 0.85, 0.85, 0.85, 0.85, true)];
      var a := ScanSlots(Scan(-1, -1, {}, Zero2, Zero2), DefaultControls, stick, look, t);
      a.buttons == {Action1} && a.joystickId == -1 && a.lookId == -1
  {
    var t := InitialTable[0 := TouchPoint(7, 0.85, 0.85, 0.85, 0.85, true)];
    var start := Scan(-1, -1, {}, Zero2, Zero2);
    assert FirstHit(DefaultControls, 0.85, 0.85) == Some(1);
    var first := TouchStep(start, DefaultControls, stick, look, t[0]);
    assert first == start.(buttons := {Action1});
    InactiveTailKeepsScan(first, DefaultControls, stick, look, t[1..]);
  }

  /** A finger that goes down on the A button presses and holds Action1 at the next poll. */
  lemma ButtonTapPresses(s: InputState, stick: TouchPoint -> Vec2, look: TouchPoint -> Vec2)
    ensures var p0 := SetupVirtualControls(NewBackEnd);
      var tap := Pointer(7, 0.85, 0.85);
      var down := HandleInputEvent(p0.table, Motion(Down, tap, [tap])).0;
      var (p1, s1) := PollBackEnd(p0.(table := down), stick, look, ButtonsOnly, s);
      && p1.controller.buttons == {Action1}
      && s1.actions.action1 && s1.actionsHeld.action1 && !s1.actionsReleased.action1
  {
    FirstTouchTakesSlotZero(7, 0.85, 0.85);
    ButtonTapScan(stick, look);
    FlagsOfGet({Action1}, Action1);
    FlagsOfGet({}, Action1);
  }

  /**
   * Once every finger has lifted, the next poll holds and presses nothing, releases exactly
   * what the previous poll held, and frees the joystick and look ids.
   */
  lemma LiftedTableReleasesAll(p: BackEnd, stick: TouchPoint -> Vec2, look: TouchPoint -> Vec2,
                               rule: HeldRule, s: InputState)
    requires forall j :: 0 <= j < |p.table| ==> !p.table[j].active
    ensures var (p1, s1) := PollBackEnd(p, stick, look, rule, s);
      && p1.controller.buttons == {} && p1.controller.joystickId == -1 && p1.controller.lookId == -1
      && s1.actions == NoFlags && s1.actionsReleased == FlagsOf(p.controller.prevButtons)
  {
    var c := p.controller;
    InactiveTailKeepsScan(Scan(c.joystickId, c.lookId, {}, Zero2, Zero2), p.controls, stick, look, p.table);
    assert forall id :: GetTouchPoint(p.table, id).None?;
    var f := ProcessTouchInput(c, p.table, p.controls, stick, look, rule, s);
    assert f.controller.buttons == {};
    assert {} - c.prevButtons == {};
    assert c.prevButtons - {} == c.prevButtons;
  }

  /** The pass over a table whose only touch is one on the menu button claims it for the joystick. */
  lemma MenuTapScan(stick: TouchPoint -> Vec2, look: TouchPoint -> Vec2)
    ensures var t := InitialTable[0 := TouchPoint(7, 0.10, 0.10, 0.10, 0.10, true)];
      var a := ScanSlots(Scan(-1, -1, {}, Zero2, Zero2), DefaultControls, stick, look, t);
      a.buttons == {} && a.joystickId == 7 && GetTouchPoint(t, 7) == Some(0)
  {
    var t := InitialTable[0 := TouchPoint(7, 0.10, 0.10, 0.10, 0.10, true)];
    var start := Scan(-1, -1, {}, Zero2, Zero2);
    var first := TouchStep(start, DefaultControls, stick, look, t[0]);
    assert first == start.(joystickId := 7);
    InactiveTailKeepsScan(first, DefaultControls, stick, look, t[1..]);
    assert Carries(t[0], 7);
  }

  /**
   * The menu button sits in the left half, where a new finger claims the joystick before
   * any button is looked at: a lone tap on it holds nothing and makes that finger the
   * joystick.
   */
  lemma LoneMenuTapClaimsJoystick(s: InputState, stick: TouchPoint -> Vec2, look: TouchPoint -> Vec2)
    ensures var p0 := SetupVirtualControls(NewBackEnd);
      var tap := Pointer(7, 0.10, 0.10);
      var down := HandleInputEvent(p0.table, Motion(Down, tap, [tap])).0;
      var (p1, s1) := PollBackEnd(p0.(table := down), stick, look, ButtonsOnly, s);
      && p1.controller.joystickId == 7 && p1.controller.buttons == {}
      && !s1.actionsHeld.menuOpen && !s1.actions.menuOpen
  {
    FirstTouchTakesSlotZero(7, 0.10, 0.10);
    MenuTapScan(stick, look);
    FlagsOfGet({}, MenuOpen);
  }

  /** The features this back end reports. */
  const Features: set<string> := {"touchscreen", "filesystem"}

  /** `HasFeature`. */
  function HasFeature(name: string): (r: bool)
    ensures r <==> name in Features
  {
    name == "touchscreen" || name == "filesystem"
  }
}
