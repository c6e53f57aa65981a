/**
 * The iOS back end (iOSPlatform.cpp). Its touch table and per-frame pass are the ones the
 * Android back end uses; what differs is `SetupVirtualControls`, which appends the five
 * controls without clearing the list first. Touch events reach the table through UIKit
 * handlers that are not part of this model.
 */
module IosPlatform {
  import opened Wrappers
  import opened Inputs
  import opened TouchSlots
  import opened TouchControls

  /** `SetupVirtualControls`: appends the five controls to whatever the list holds. */
  function SetupVirtualControls(p: BackEnd): (r: BackEnd)
    ensures |r.controls| == |p.controls| + 5
    ensures r.controls[..|p.controls|] == p.controls && r.controls[|p.controls|..] == DefaultControls
    ensures r.table == p.table && r.controller == p.controller
  {
    p.(controls := p.controls + DefaultControls)
  }

  /** `n` copies of the five controls, one after the other. */
  function Repeated(n: nat): (r: seq<VirtualControl>)
    ensures |r| == 5 * n
  {
    if n == 0 then [] else Repeated(n - 1) + DefaultControls
  }

  /** `n` set-ups of a new back end leave `n` copies of the controls: the list grows by 5 each time. */
  function SetupTimes(p: BackEnd, n: nat): (r: BackEnd)
    ensures p.controls == [] ==> r.controls == Repeated(n)
    ensures |r.controls| == |p.controls| + 5 * n
    ensures r.table == p.table && r.controller == p.controller
  {
    if n == 0 then p else SetupVirtualControls(SetupTimes(p, n - 1))
  }

  /** Appending controls that are already on the list changes nothing a touch can hit. */
  lemma ButtonUnderAppendKnown(c1: seq<VirtualControl>, c2: seq<VirtualControl>, x: real, y: real)
    requires forall k :: 0 <= k < |c2| ==> c2[k] in c1
    ensures ButtonUnder(c1 + c2, x, y) == ButtonUnder(c1, x, y)
  {
    var both := c1 + c2;
    match FirstHit(c1, x, y)
    case Some(i) =>
      assert forall j :: 0 <= j < i ==> both[j] == c1[j];
      assert both[i] == c1[i];
      var g := FirstHit(both, x, y);
      assert g.Some?;
      assert !(g.value < i) && !(g.value > i);
    case None =>
      assert forall k :: 0 <= k < |c2| ==> !Hits(c2[k], x, y);
      assert forall j :: 0 <= j < |both| ==> !Hits(both[j], x, y) by {
        forall j | 0 <= j < |both|
          ensures !Hits(both[j], x, y)
        {
          if j >= |c1| {
            assert both[j] == c2[j - |c1|];
          }
        }
      }
  }

  /** However often the controls were set up (at least once), a touch hits what it hits on five. */
  lemma {:induction false} RepeatedButtonUnder(n: nat, x: real, y: real)
    requires n >= 1
    ensures ButtonUnder(Repeated(n), x, y) == ButtonUnder(DefaultControls, x, y)
  {
    if n == 1 {
      assert Repeated(1) == [] + DefaultControls == DefaultControls;
    } else {
      RepeatedButtonUnder(n - 1, x, y);
      RepeatedHoldsDefaults(n - 1);
      ButtonUnderAppendKnown(Repeated(n - 1), DefaultControls, x, y);
      assert Repeated(n) == Repeated(n - 1) + DefaultControls;
    }
  }

  /** Each of the five controls is on a repeated list. */
  lemma RepeatedHoldsDefaults(n: nat)
    requires n >= 1
    ensures forall k :: 0 <= k < |DefaultControls| ==> DefaultControls[k] in Repeated(n)
  {
    RepeatedPrefix(n);
    forall k | 0 <= k < |DefaultControls|
      ensures DefaultControls[k] in Repeated(n)
    {
      assert DefaultControls[k] == Repeated(n)[..5][k] == Repeated(n)[k];
    }
  }

  /** A repeated list starts with the five controls. */
  lemma {:induction false} RepeatedPrefix(n: nat)
    requires n >= 1
    ensures Repeated(n)[..5] == DefaultControls
  {
    if n > 1 {
      RepeatedPrefix(n - 1);
      assert Repeated(n)[..5] == Repeated(n - 1)[..5];
    }
  }

  /** One touch is handled alike under two control lists that agree on what every point hits. */
  lemma TouchStepSameHits(acc: Scan, c1: seq<VirtualControl>, c2: seq<VirtualControl>,
                          stick: TouchPoint -> Vec2, look: TouchPoint -> Vec2, p: TouchPoint)
    requires ButtonUnder(c1, p.x, p.y) == ButtonUnder(c2, p.x, p.y)
    ensures TouchStep(acc, c1, stick, look, p) == TouchStep(acc, c2, stick, look, p)
  {
  }

  /** The whole scan is alike under two control lists that agree on what every point hits. */
  lemma {:induction false} ScanSlotsSameHits(acc: Scan, c1: seq<VirtualControl>, c2: seq<VirtualControl>,
                                             stick: TouchPoint -> Vec2, look: TouchPoint -> Vec2,
                                             t: seq<TouchPoint>)
    requires forall x: real, y: real :: ButtonUnder(c1, x, y) == ButtonUnder(c2, x, y)
    ensures ScanSlots(acc, c1, stick, look, t) == ScanSlots(acc, c2, stick, look, t)
    decreases |t|
  {
    if |t| > 0 {
      if t[0].active {
        TouchStepSameHits(acc, c1, c2, stick, look, t[0]);
      }
      var next := if t[0].active then TouchStep(acc, c1, stick, look, t[0]) else acc;
      ScanSlotsSameHits(next, c1, c2, stick, look, t[1..]);
    }
  }

  /**
   * The growing list is harmless: after `n >= 1` set-ups, a poll gives the same state and the
   * same held buttons as with the five controls alone.
   */
  lemma RepeatedSetupSamePoll(n: nat, t: seq<TouchPoint>, c: Controller,
                              stick: TouchPoint -> Vec2, look: TouchPoint -> Vec2,
                              rule: HeldRule, s: InputState)
    requires n >= 1
    ensures var many := PollBackEnd(BackEnd(t, Repeated(n), c), stick, look, rule, s);
      var five := PollBackEnd(BackEnd(t, DefaultControls, c), stick, look, rule, s);
      many.1 == five.1 && many.0.controller == five.0.controller
  {
    forall x: real, y: real
      ensures ButtonUnder(Repeated(n), x, y) == ButtonUnder(DefaultControls, x, y)
    {
      RepeatedButtonUnder(n, x, y);
    }
    ScanSlotsSameHits(Scan(c.joystickId, c.lookId, {}, Zero2, Zero2), Repeated(n), DefaultControls,
                      stick, look, t);
  }

  /** The features this back end reports. */
  const Features: set<string> := {"touchscreen", "filesystem"}

  /** `HasFeature`. */
  function HasFeature(name: string): (r: bool)
    ensures r <==> name in Features
  {
    name == "touchscreen" || name == "filesystem"
  }
}
