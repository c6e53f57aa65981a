/**
 * Rules every console back end shares when it turns a pad reading into action flags.
 *
 * SDK button masks are modelled as sets of button names: the SDK constants are distinct
 * single bits, so "bit set in the mask" is set membership and `held & ~prev` is set
 * difference.
 */
module Bindings {
  import opened Inputs
  import opened Analog

  /** The pressed-this-frame rule: buttons down now that were up before (`now & ~prev`). */
  function Edges<B>(now: set<B>, prev: set<B>): set<B> {
    now - prev
  }

  /** Overwrites the four movement flags and nothing else. */
  function WithMoves(held: ActionFlags, forward: bool, backward: bool, right: bool, left: bool)
    : (r: ActionFlags)
    ensures r.moveForward == forward && r.moveBackward == backward
    ensures r.moveRight == right && r.moveLeft == left
    ensures SameBesidesMoves(r, held)
  {
    held.(moveForward := forward, moveBackward := backward, moveRight := right, moveLeft := left)
  }

  /**
   * Which side of the cut-off band a stick axis sits on: `if (|v| > 0.3) { if (v > 0.3) +1
   * else -1 }`, and 0 inside the band.
   */
  function Side(v: real): (r: int)
    ensures r == 1 <==> v > StickThreshold
    ensures r == -1 <==> v < -StickThreshold
    ensures r == 0 <==> -StickThreshold <= v <= StickThreshold
  {
    if Abs(v) > StickThreshold then (if v > StickThreshold then 1 else -1) else 0
  }

  /**
   * The analog-to-digital movement rule the consoles apply after the d-pad: a stick beyond
   * the cut-off on an axis also holds the movement action on that side. It only ever sets
   * flags and leaves every other action alone.
   */
  function StickToDigital(held: ActionFlags, x: real, y: real): (r: ActionFlags)
    ensures r.moveForward == (held.moveForward || y > StickThreshold)
    ensures r.moveBackward == (held.moveBackward || y < -StickThreshold)
    ensures r.moveRight == (held.moveRight || x > StickThreshold)
    ensures r.moveLeft == (held.moveLeft || x < -StickThreshold)
    ensures SameBesidesMoves(r, held)
  {
    var vertical := Side(y);
    var horizontal := Side(x);
    assert (vertical == -1) == (y < -StickThreshold);
    assert (horizontal == -1) == (x < -StickThreshold);
    WithMoves(held, held.moveForward || vertical == 1, held.moveBackward || vertical == -1,
              held.moveRight || horizontal == 1, held.moveLeft || horizontal == -1)
  }

  /** The PS3 spelling of the same rule, with `else if (y < -0.3)` in the inner branch. */
  function StickToDigitalElseIf(held: ActionFlags, x: real, y: real): ActionFlags {
    var vertical := Abs(y) > StickThreshold;
    var horizontal := Abs(x) > StickThreshold;
    WithMoves(held, held.moveForward || (vertical && y > StickThreshold),
              held.moveBackward || (vertical && !(y > StickThreshold) && y < -StickThreshold),
              held.moveRight || (horizontal && x > StickThreshold),
              held.moveLeft || (horizontal && !(x > StickThreshold) && x < -StickThreshold))
  }

  /** The inner `else if` is redundant: both spellings compute the same flags. */
  lemma ElseIfSpellingAgrees(held: ActionFlags, x: real, y: real)
    ensures StickToDigitalElseIf(held, x, y) == StickToDigital(held, x, y)
  {
  }

  /** The stick alone never holds two opposite directions. */
  lemma StickHoldsNoOpposites(held: ActionFlags, x: real, y: real)
    requires !held.moveForward && !held.moveBackward && !held.moveLeft && !held.moveRight
    ensures var r := StickToDigital(held, x, y);
      !(r.moveForward && r.moveBackward) && !(r.moveLeft && r.moveRight)
  {
  }

  /**
   * The rule for back ends with no d-pad mapping, as it should read: the stick alone decides
   * the four movement flags, so a flag drops as soon as the stick returns inside the band.
   */
  function StickOnlyMoves(held: ActionFlags, x: real, y: real): (r: ActionFlags)
    ensures r.moveForward == (y > StickThreshold) && r.moveBackward == (y < -StickThreshold)
    ensures r.moveRight == (x > StickThreshold) && r.moveLeft == (x < -StickThreshold)
    ensures SameBesidesMoves(r, held)
  {
    WithMoves(held, y > StickThreshold, y < -StickThreshold, x > StickThreshold, x < -StickThreshold)
  }

  /** It is the shared rule applied after the movement flags are cleared, as a released d-pad would. */
  lemma StickOnlyIsClearedRule(held: ActionFlags, x: real, y: real)
    ensures StickOnlyMoves(held, x, y) == StickToDigital(WithMoves(held, false, false, false, false), x, y)
  {
  }

  /** The rule leaves Sprint alone: setting it before or after gives the same flags. */
  lemma StickKeepsSprint(held: ActionFlags, v: bool, x: real, y: real)
    ensures StickToDigital(held.(sprint := v), x, y) == StickToDigital(held, x, y).(sprint := v)
  {
  }

  /** A stick inside the cut-off band leaves the movement flags as the d-pad set them. */
  lemma CentredStickAddsNothing(held: ActionFlags, x: real, y: real)
    requires Abs(x) <= StickThreshold && Abs(y) <= StickThreshold
    ensures StickToDigital(held, x, y) == held
  {
  }
}
