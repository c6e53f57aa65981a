/**
 * The fixed table of touch points the Android and iOS back ends keep (`m_touchPoints`):
 * lookup by id, allocation of the lowest free slot and release of the first matching slot.
 * The functions work on a table of any length; the back ends use `MaxTouchPoints` slots.
 */
module TouchSlots {
  import opened Wrappers

  /** One slot: the pointer id, current and start position (normalised) and whether it is in use. */
  datatype TouchPoint = TouchPoint(id: int, x: real, y: real, startX: real, startY: real, active: bool)

  /** `MAX_TOUCH_POINTS`. */
  const MaxTouchPoints: nat := 10

  /** A value-initialised slot (`= {}`): id 0, at the origin, not in use. */
  const BlankSlot: TouchPoint := TouchPoint(0, 0.0, 0.0, 0.0, 0.0, false)

  /** The table as the back ends construct it. */
  const InitialTable: seq<TouchPoint> :=
    [BlankSlot, BlankSlot, BlankSlot, BlankSlot, BlankSlot,
     BlankSlot, BlankSlot, BlankSlot, BlankSlot, BlankSlot]

  predicate Carries(p: TouchPoint, id: int) {
    p.active && p.id == id
  }

  /** `GetTouchPoint(id)`: the index of the first slot in use with the id. */
  function GetTouchPoint(t: seq<TouchPoint>, id: int): (r: Option<nat>)
    ensures r.Some? ==> r.value < |t| && Carries(t[r.value], id)
    ensures r.Some? ==> forall j :: 0 <= j < r.value ==> !Carries(t[j], id)
    ensures r.None? <==> forall j :: 0 <= j < |t| ==> !Carries(t[j], id)
  {
    if |t| == 0 then None
    else if Carries(t[0], id) then Some(0)
    else
      match GetTouchPoint(t[1..], id)
      case None => None
      case Some(i) => Some(i + 1)
  }

  /** The index of the first slot not in use. */
  function FirstFree(t: seq<TouchPoint>): (r: Option<nat>)
    ensures r.Some? ==> r.value < |t| && !t[r.value].active
    ensures r.Some? ==> forall j :: 0 <= j < r.value ==> t[j].active
    ensures r.None? <==> forall j :: 0 <= j < |t| ==> t[j].active
  {
    if |t| == 0 then None
    else if !t[0].active then Some(0)
    else
      match FirstFree(t[1..])
      case None => None
      case Some(i) => Some(i + 1)
  }

  /**
   * `AllocateTouchPoint(id)`: marks the lowest free slot in use with the id and returns its
   * index; a full table is returned unchanged with `None`. Positions are left for the caller.
   */
  function AllocateTouchPoint(t: seq<TouchPoint>, id: int): (r: (seq<TouchPoint>, Option<nat>))
    ensures |r.0| == |t|
    ensures r.1.None? <==> forall j :: 0 <= j < |t| ==> t[j].active
    ensures r.1.None? ==> r.0 == t
    ensures r.1.Some? ==> var i := r.1.value;
      && i < |t| && !t[i].active && (forall j :: 0 <= j < i ==> t[j].active)
      && r.0 == t[i := t[i].(active := true, id := id)]
  {
    match FirstFree(t)
    case None => (t, None)
    case Some(i) => (t[i := t[i].(active := true, id := id)], Some(i))
  }

  /**
   * `ReleaseTouchPoint(id)`: frees only the first slot in use with the id and resets its id
   * to -1; nothing changes when no slot carries the id.
   */
  function ReleaseTouchPoint(t: seq<TouchPoint>, id: int): (r: seq<TouchPoint>)
    ensures |r| == |t|
    ensures GetTouchPoint(t, id).None? ==> r == t
    ensures GetTouchPoint(t, id).Some? ==> var i := GetTouchPoint(t, id).value;
      r == t[i := t[i].(active := false, id := -1)]
  {
    match GetTouchPoint(t, id)
    case None => t
    case Some(i) => t[i := t[i].(active := false, id := -1)]
  }

  /** Number of slots in use. */
  function ActiveCount(t: seq<TouchPoint>): (n: nat)
    ensures n <= |t|
  {
    if |t| == 0 then 0 else (if t[0].active then 1 else 0) + ActiveCount(t[1..])
  }

  /** Changing one slot's use flag moves the count by one. */
  lemma {:induction false} ActiveCountUpdate(t: seq<TouchPoint>, i: nat, p: TouchPoint)
    requires i < |t|
    ensures ActiveCount(t[i := p]) ==
      ActiveCount(t) - (if t[i].active then 1 else 0) + (if p.active then 1 else 0)
  {
    if i == 0 {
      assert t[i := p][1..] == t[1..];
    } else {
      assert t[i := p][1..] == t[1..][i - 1 := p];
      ActiveCountUpdate(t[1..], i - 1, p);
    }
  }

  /** A successful allocation puts one more slot in use; a release of a carried id one fewer. */
  lemma AllocateReleaseCounts(t: seq<TouchPoint>, id: int)
    ensures AllocateTouchPoint(t, id).1.Some? ==>
      ActiveCount(AllocateTouchPoint(t, id).0) == ActiveCount(t) + 1
    ensures GetTouchPoint(t, id).Some? ==> ActiveCount(ReleaseTouchPoint(t, id)) + 1 == ActiveCount(t)
  {
    var (t1, r) := AllocateTouchPoint(t, id);
    if r.Some? {
      ActiveCountUpdate(t, r.value, t[r.value].(active := true, id := id));
    }
    var g := GetTouchPoint(t, id);
    if g.Some? {
      ActiveCountUpdate(t, g.value, t[g.value].(active := false, id := -1));
    }
  }

  /** No two slots in use carry the same id. */
  predicate UniqueIds(t: seq<TouchPoint>) {
    forall i, j :: 0 <= i < j < |t| && t[i].active && t[j].active ==> t[i].id != t[j].id
  }

  /** Allocating an id no slot carries keeps ids unique, and the new slot is what lookups find. */
  lemma AllocateFreshKeepsUnique(t: seq<TouchPoint>, id: int)
    requires UniqueIds(t) && GetTouchPoint(t, id).None?
    ensures var (t1, r) := AllocateTouchPoint(t, id);
      && UniqueIds(t1)
      && (r.Some? ==> GetTouchPoint(t1, id) == r)
  {
    var (t1, r) := AllocateTouchPoint(t, id);
    if r.Some? {
      var i := r.value;
      assert forall j :: 0 <= j < |t| && j != i ==> t1[j] == t[j];
      assert forall j :: 0 <= j < |t| ==> !Carries(t[j], id);
      assert Carries(t1[i], id);
      assert forall j :: 0 <= j < i ==> !Carries(t1[j], id);
    }
  }

  /** Releasing keeps ids unique, and afterwards no slot carries the released id. */
  lemma ReleaseKeepsUnique(t: seq<TouchPoint>, id: int)
    requires UniqueIds(t)
    ensures UniqueIds(ReleaseTouchPoint(t, id))
    ensures GetTouchPoint(ReleaseTouchPoint(t, id), id).None?
  {
    var r := ReleaseTouchPoint(t, id);
    match GetTouchPoint(t, id)
    case None =>
    case Some(i) =>
      assert forall j :: 0 <= j < |t| && j != i ==> r[j] == t[j] && !Carries(t[j], id);
      assert !Carries(r[i], id);
  }

  /**
   * Allocating a fresh id and releasing it again gives back the table, except that the slot
   * used now carries id -1.
   */
  lemma AllocateThenRelease(t: seq<TouchPoint>, id: int)
    requires GetTouchPoint(t, id).None?
    ensures var (t1, r) := AllocateTouchPoint(t, id);
      r.Some? ==> ReleaseTouchPoint(t1, id) == t[r.value := t[r.value].(id := -1)]
  {
    var (t1, r) := AllocateTouchPoint(t, id);
    if r.Some? {
      var i := r.value;
      assert forall j :: 0 <= j < |t| ==> !Carries(t[j], id);
      assert forall j :: 0 <= j < i ==> !Carries(t1[j], id);
      assert Carries(t1[i], id);
      assert GetTouchPoint(t1, id) == Some(i);
      var released := t1[i := t1[i].(active := false, id := -1)];
      assert ReleaseTouchPoint(t1, id) == released;
      assert t1[i].(active := false, id := -1) == t[i].(id := -1);
      assert released == t[i := t[i].(id := -1)];
    }
  }

  /** A table with every slot in use refuses allocation and comes back unchanged. */
  lemma FullTableRefuses(t: seq<TouchPoint>, id: int)
    requires ActiveCount(t) == |t|
    ensures AllocateTouchPoint(t, id) == (t, None)
  {
    AllActiveWhenCountFull(t);
  }

  lemma {:induction false} AllActiveWhenCountFull(t: seq<TouchPoint>)
    requires ActiveCount(t) == |t|
    ensures forall j :: 0 <= j < |t| ==> t[j].active
  {
    if |t| > 0 {
      AllActiveWhenCountFull(t[1..]);
      assert forall j :: 1 <= j < |t| ==> t[j] == t[1..][j - 1];
    }
  }

  /** Sets a slot's current position (a move event). */
  function MoveTo(t: seq<TouchPoint>, i: nat, x: real, y: real): (r: seq<TouchPoint>)
    requires i < |t|
    ensures |r| == |t| && r[i].x == x && r[i].y == y
    ensures r[i] == t[i].(x := x, y := y)
    ensures forall j :: 0 <= j < |t| && j != i ==> r[j] == t[j]
  {
    t[i := t[i].(x := x, y := y)]
  }
}
