/**
 * Real-valued helpers shared by the platform layers: absolute value, clamping, the two
 * deadzone shapes the console back ends use and the one-sided trigger rescale. Floats are
 * modelled as exact reals; the literals (0.15, 0.24, ...) stand for the nearest floats.
 */
module Analog {

  function Abs(x: real): (r: real)
    ensures r >= 0.0 && (r == x || r == -x)
  {
    if x < 0.0 then -x else x
  }

  /** `std::clamp(x, lo, hi)`. */
  function Clamp(x: real, lo: real, hi: real): (r: real)
    requires lo <= hi
    ensures lo <= r <= hi
    ensures lo <= x <= hi ==> r == x
  {
    if x < lo then lo else if x > hi then hi else x
  }

  /** The clamped value is the point of the interval nearest to `x`. */
  lemma ClampIsNearest(x: real, lo: real, hi: real, y: real)
    requires lo <= y <= hi
    ensures Abs(Clamp(x, lo, hi) - x) <= Abs(y - x)
  {
  }

  /** The plain deadzone (PS3, PS4, Switch, Wii): readings below `dz` in size read as 0. */
  function Deadzone(n: real, dz: real): (r: real)
    ensures Abs(n) < dz ==> r == 0.0
    ensures Abs(n) >= dz ==> r == n
  {
    if Abs(n) < dz then 0.0 else n
  }

  /** The plain deadzone never produces a value strictly inside the dead band other than 0. */
  lemma DeadzoneGap(n: real, dz: real)
    ensures var r := Deadzone(n, dz); r == 0.0 || Abs(r) >= dz
    ensures Abs(Deadzone(n, dz)) <= Abs(n)
  {
  }

  /** The sign of a non-zero reading (`value > 0 ? 1 : -1`). */
  function Sign(n: real): real {
    if n > 0.0 then 1.0 else -1.0
  }

  /**
   * The rescaled deadzone (Xbox, Wii U and GameCube sticks): the dead band reads as 0 and the
   * rest of the range is stretched linearly so that the band's edge maps to 0 and full
   * deflection to full deflection.
   */
  function RescaledDeadzone(n: real, dz: real): (r: real)
    requires 0.0 < dz < 1.0
    ensures Abs(n) < dz ==> r == 0.0
    ensures Abs(n) <= 1.0 ==> Abs(r) <= 1.0
    ensures Abs(n) == 1.0 ==> Abs(r) == 1.0
    ensures Abs(n) == dz ==> r == 0.0
    ensures r > 0.0 ==> n > 0.0
    ensures r < 0.0 ==> n < 0.0
  {
    if Abs(n) < dz then 0.0
    else
      var mag := (Abs(n) - dz) / (1.0 - dz);
      Quotient(Abs(n) - dz, 1.0 - dz);
      Sign(n) * mag
  }

  /** Facts about a quotient by a positive real. */
  lemma Quotient(a: real, b: real)
    requires 0.0 < b
    ensures a >= 0.0 ==> a / b >= 0.0
    ensures a <= b ==> a / b <= 1.0
    ensures a == b ==> a / b == 1.0
  {
    var q := a / b;
    assert q * b == a;
  }

  lemma DivideMonotone(a: real, c: real, b: real)
    requires 0.0 < b && a <= c
    ensures a / b <= c / b
  {
  }

  /** Pushing a stick further never reads as less deflection. */
  lemma RescaledDeadzoneMonotone(a: real, b: real, dz: real)
    requires 0.0 < dz < 1.0 && a <= b
    ensures RescaledDeadzone(a, dz) <= RescaledDeadzone(b, dz)
  {
    if Abs(a) >= dz && Abs(b) >= dz {
      if a > 0.0 {
        DivideMonotone(Abs(a) - dz, Abs(b) - dz, 1.0 - dz);
      } else if b < 0.0 {
        DivideMonotone(Abs(b) - dz, Abs(a) - dz, 1.0 - dz);
      }
    }
  }

  /** The one-sided trigger rescale (Xbox and GameCube triggers). */
  function TriggerRescale(n: real, dz: real): (r: real)
    requires 0.0 < dz < 1.0
    ensures n < dz ==> r == 0.0
    ensures n <= 1.0 ==> r <= 1.0
    ensures r >= 0.0
    ensures n == 1.0 ==> r == 1.0
  {
    if n < dz then 0.0
    else
      Quotient(n - dz, 1.0 - dz);
      (n - dz) / (1.0 - dz)
  }

  /** The analog-to-digital cut-off for movement (`0.3f`). */
  const StickThreshold: real := 0.3

  /** The analog-to-digital cut-off for triggers (`0.5f`). */
  const TriggerThreshold: real := 0.5
}
