/**
 * The few `Mathf` helpers the controllers use, on `real`.
 * The semantics follow the engine's definitions, in particular
 * `Sign(0) == 1`: the engine's Sign returns +1 for every non-negative input.
 */
module UnityMath {

  function Abs(x: real): (r: real)
    ensures r >= 0.0
    ensures r == x || r == -x
  {
    if x < 0.0 then -x else x
  }

  /** `Mathf.Sign`: never zero, +1 for zero. */
  function Sign(x: real): (r: real)
    ensures r == 1.0 || r == -1.0
    ensures r == 1.0 <==> x >= 0.0
  {
    if x >= 0.0 then 1.0 else -1.0
  }

  /** `(int)Mathf.Sign(x)` and `Mathf.RoundToInt(Mathf.Sign(x))`. */
  function SignInt(x: real): (r: int)
    ensures r == 1 || r == -1
    ensures r as real == Sign(x)
  {
    if x >= 0.0 then 1 else -1
  }

  function Max(a: real, b: real): (r: real)
    ensures r >= a && r >= b
    ensures r == a || r == b
  {
    if a >= b then a else b
  }

  function Min(a: real, b: real): (r: real)
    ensures r <= a && r <= b
    ensures r == a || r == b
  {
    if a <= b then a else b
  }

  /** `Mathf.Clamp`: the lower bound is tested first. */
  function Clamp(v: real, lo: real, hi: real): (r: real)
    ensures lo <= hi ==> lo <= r <= hi
    ensures lo <= v <= hi ==> r == v
    ensures v < lo ==> r == lo
  {
    if v < lo then lo else if v > hi then hi else v
  }

  function Clamp01(v: real): (r: real)
    ensures 0.0 <= r <= 1.0
    ensures 0.0 <= v <= 1.0 ==> r == v
  {
    Clamp(v, 0.0, 1.0)
  }

  /** `Mathf.Lerp` clamps its parameter, so the result lies between the ends. */
  function Lerp(a: real, b: real, t: real): (r: real)
    ensures Min(a, b) <= r <= Max(a, b)
    ensures Clamp01(t) == 0.0 ==> r == a
    ensures Clamp01(t) == 1.0 ==> r == b
  {
    var u := Clamp01(t);
    OffsetWithin(a, b - a, u);
    a + (b - a) * u
  }

  /** A fraction of an offset `d` from `a` lands between `a` and `a + d`. */
  lemma OffsetWithin(a: real, d: real, u: real)
    requires 0.0 <= u <= 1.0
    ensures Min(a, a + d) <= a + d * u <= Max(a, a + d)
  {
    if d >= 0.0 {
      ScaleWithin(d, u);
      assert 0.0 <= d * u <= d;
      assert Min(a, a + d) == a && Max(a, a + d) == a + d;
    } else {
      ScaleWithinNegative(d, u);
      assert d <= d * u <= 0.0;
      assert Min(a, a + d) == a + d && Max(a, a + d) == a;
    }
  }

  /** Multiplying a non-negative length by a fraction keeps it within the length. */
  lemma ScaleWithin(d: real, u: real)
    requires d >= 0.0 && 0.0 <= u <= 1.0
    ensures 0.0 <= d * u <= d
  {
    assert d * (1.0 - u) >= 0.0;
  }

  lemma ScaleWithinNegative(d: real, u: real)
    requires d <= 0.0 && 0.0 <= u <= 1.0
    ensures d <= d * u <= 0.0
  {
    assert d * (1.0 - u) <= 0.0;
  }

  /** `Mathf.MoveTowards`: a step of at most `maxDelta` that never overshoots. */
  function MoveTowards(current: real, target: real, maxDelta: real): (r: real)
    ensures Abs(target - current) <= maxDelta ==> r == target
    ensures maxDelta >= 0.0 ==> Abs(r - current) <= maxDelta
    ensures 0.0 <= maxDelta ==> Min(current, target) <= r <= Max(current, target)
  {
    if Abs(target - current) <= maxDelta then target
    else current + Sign(target - current) * maxDelta
  }
}
