/**
 Rounding a real to 53 significant bits, to nearest with ties to even, as IEEE 754-2019
 section 4.3.1 asks of binary64. The exponent is unbounded: the costs computed here stay
 far from overflow and underflow.
 */
module Rounding {

  const LOW: real := 4503599627370496.0    // 2^52
  const HIGH: real := 9007199254740992.0   // 2^53

  /** The largest error allowed at x: 2^-53 of it. */
  function Tolerance(x: real): real {
    x / 9007199254740992.0
  }

  /** The nearest integer, ties to even. */
  function NearestEven(x: real): int {
    var f := x.Floor;
    var d := x - f as real;
    if d < 0.5 then f
    else if d > 0.5 then f + 1
    else if f % 2 == 0 then f else f + 1
  }

  /** How far x is from the binade [2^52, 2^53), where units in the last place are integers. */
  function Distance(x: real): (d: int)
    requires x > 0.0
    ensures d >= 0
  {
    if x >= HIGH then x.Floor else if x < LOW then (HIGH / x).Floor else 0
  }

  lemma HalvingApproaches(x: real)
    requires x >= HIGH
    ensures Distance(x / 2.0) < Distance(x)
  {
  }

  lemma DoublingApproaches(x: real)
    requires 0.0 < x < LOW
    ensures Distance(2.0 * x) < Distance(x)
  {
    var y := HIGH / x;
    assert y > 2.0 by {
      assert y * x == HIGH;
      if y <= 2.0 {
        Product(y, 2.0, x, LOW);
      }
    }
    assert HIGH / (2.0 * x) == y / 2.0;
  }

  /** Products of non-negative reals are monotone. */
  lemma Product(a: real, b: real, c: real, d: real)
    requires 0.0 <= a <= b && 0.0 <= c <= d
    ensures 0.0 <= a * c <= b * d
  {
    assert b * d - a * c == (b - a) * d + a * (d - c);
  }

  /** The rounding of a non-negative real. */
  function Magnitude(x: real): real
    requires x >= 0.0
    decreases if x == 0.0 then 0 else Distance(x)
  {
    if x == 0.0 then 0.0
    else if x >= HIGH then
      HalvingApproaches(x);
      2.0 * Magnitude(x / 2.0)
    else if x < LOW then
      DoublingApproaches(x);
      Magnitude(2.0 * x) / 2.0
    else NearestEven(x) as real
  }

  /** The relative error of one rounding is at most 2^-53. */
  lemma {:induction false} MagnitudeError(x: real)
    requires x >= 0.0
    ensures x - Tolerance(x) <= Magnitude(x) <= x + Tolerance(x)
    decreases if x == 0.0 then 0 else Distance(x)
  {
    if x == 0.0 {
    } else if x >= HIGH {
      HalvingApproaches(x);
      MagnitudeError(x / 2.0);
    } else if x < LOW {
      DoublingApproaches(x);
      MagnitudeError(2.0 * x);
    } else {
      NearestWithinHalf(x);
    }
  }

  lemma NearestWithinHalf(x: real)
    ensures x - 0.5 <= NearestEven(x) as real <= x + 0.5
  {
  }

  lemma NearestMonotone(x: real, y: real)
    requires x <= y
    ensures NearestEven(x) <= NearestEven(y)
  {
  }

  lemma MagnitudeSign(x: real)
    requires x >= 0.0
    ensures Magnitude(x) >= 0.0
    ensures Magnitude(x) == 0.0 <==> x == 0.0
  {
    MagnitudeError(x);
  }

  /** The ends of the binade stay put. */
  lemma {:induction false} RoundBelow(x: real)
    requires x >= 0.0
    ensures x < LOW ==> Magnitude(x) <= LOW
    ensures x < HIGH ==> Magnitude(x) <= HIGH
    decreases if x == 0.0 then 0 else Distance(x)
  {
    if 0.0 < x < LOW {
      DoublingApproaches(x);
      RoundBelow(2.0 * x);
    }
  }

  lemma {:induction false} RoundAbove(x: real)
    requires x >= 0.0
    ensures x >= LOW ==> Magnitude(x) >= LOW
    ensures x >= HIGH ==> Magnitude(x) >= HIGH
    decreases if x == 0.0 then 0 else Distance(x)
  {
    if x >= HIGH {
      HalvingApproaches(x);
      RoundAbove(x / 2.0);
    }
  }

  /** Rounding never reverses an order. */
  lemma {:induction false} MagnitudeMonotone(x: real, y: real)
    requires 0.0 <= x <= y
    ensures Magnitude(x) <= Magnitude(y)
    decreases if y == 0.0 then 0 else Distance(y), if x == 0.0 then 0 else Distance(x)
  {
    if x == 0.0 {
      MagnitudeSign(y);
    } else if x >= HIGH {
      HalvingApproaches(x);
      HalvingApproaches(y);
      MagnitudeMonotone(x / 2.0, y / 2.0);
    } else if y < LOW {
      DoublingApproaches(x);
      DoublingApproaches(y);
      MagnitudeMonotone(2.0 * x, 2.0 * y);
    } else if x < LOW {
      RoundBelow(x);
      RoundAbove(y);
    } else if y >= HIGH {
      RoundBelow(x);
      RoundAbove(y);
    } else {
      NearestMonotone(x, y);
    }
  }

  /** Integers up to 2^53 are representable. */
  lemma {:induction false} MagnitudeExact(n: int, x: real)
    requires 0 <= n && x == n as real && x <= HIGH
    ensures Magnitude(x) == x
    decreases if x == 0.0 then 0 else Distance(x)
  {
    if x == 0.0 {
    } else if x >= HIGH {
      HalvingApproaches(x);
      assert Magnitude(x / 2.0) == NearestEven(x / 2.0) as real;
    } else if x < LOW {
      DoublingApproaches(x);
      MagnitudeExact(2 * n, 2.0 * x);
    }
  }

  // -- Correct rounding ----------------------------------------------------------------

  /** n times 2^e. */
  function Ldexp(n: real, e: int): real
    decreases if e < 0 then -e else e
  {
    if e == 0 then n
    else if e > 0 then 2.0 * Ldexp(n, e - 1)
    else Ldexp(n, e + 1) / 2.0
  }

  /** z is n times 2^e with n of at most 53 bits (2^53 itself has one bit set). */
  ghost predicate Denotes(z: real, n: nat, e: int) {
    n <= 9007199254740992 && z == Ldexp(n as real, e)
  }

  ghost predicate RepresentableMagnitude(z: real) {
    exists n: nat, e: int :: Denotes(z, n, e)
  }

  lemma Rescaled(z: real)
    requires RepresentableMagnitude(z)
    ensures RepresentableMagnitude(z / 2.0) && RepresentableMagnitude(2.0 * z)
  {
    var n: nat, e: int :| Denotes(z, n, e);
    assert Denotes(z / 2.0, n, e - 1);
    assert Denotes(2.0 * z, n, e + 1);
  }

  /** A representable value is a whole number or at most 2^52. */
  lemma {:induction false} WholeOrSmall(n: nat, e: int)
    requires n <= 9007199254740992
    ensures var z := Ldexp(n as real, e); z >= 0.0 && (z == z.Floor as real || z <= LOW)
    ensures e < 0 ==> Ldexp(n as real, e) <= LOW
    decreases if e < 0 then -e else e
  {
    if e > 0 {
      WholeOrSmall(n, e - 1);
      WholeAbove(n, e);
    } else if e < 0 {
      WholeOrSmall(n, e + 1);
    }
  }

  lemma {:induction false} WholeAbove(n: nat, e: int)
    requires e >= 0
    ensures Ldexp(n as real, e) == Ldexp(n as real, e).Floor as real
    decreases e
  {
    if e > 0 {
      WholeAbove(n, e - 1);
      assert 2.0 * Ldexp(n as real, e - 1) == (2 * Ldexp(n as real, e - 1).Floor) as real;
    }
  }

  lemma {:induction false} RoundRepresentable(x: real)
    requires x >= 0.0
    ensures RepresentableMagnitude(Magnitude(x))
    decreases if x == 0.0 then 0 else Distance(x)
  {
    if x == 0.0 {
      assert Denotes(0.0, 0, 0);
    } else if x >= HIGH {
      HalvingApproaches(x);
      RoundRepresentable(x / 2.0);
      Rescaled(Magnitude(x / 2.0));
    } else if x < LOW {
      DoublingApproaches(x);
      RoundRepresentable(2.0 * x);
      Rescaled(Magnitude(2.0 * x));
    } else {
      RoundBelow(x);
      assert Denotes(Magnitude(x), NearestEven(x), 0);
    }
  }

  ghost function Gap(a: real, b: real): real {
    if a < b then b - a else a - b
  }

  /** No representable value is closer to x than its rounding. */
  lemma {:induction false} MagnitudeNearest(x: real, z: real)
    requires x >= 0.0 && RepresentableMagnitude(z)
    ensures RepresentableMagnitude(Magnitude(x)) && Gap(Magnitude(x), x) <= Gap(z, x)
    decreases if x == 0.0 then 0 else Distance(x)
  {
    RoundRepresentable(x);
    if x == 0.0 {
    } else if x >= HIGH {
      HalvingApproaches(x);
      Rescaled(z);
      MagnitudeNearest(x / 2.0, z / 2.0);
    } else if x < LOW {
      DoublingApproaches(x);
      Rescaled(z);
      MagnitudeNearest(2.0 * x, 2.0 * z);
    } else {
      var n: nat, e: int :| Denotes(z, n, e);
      WholeOrSmall(n, e);
      NearestWithinHalf(x);
      if z == z.Floor as real {
        NearestOfWhole(x, z.Floor);
      } else {
        NearestOfWhole(x, 4503599627370496);
      }
    }
  }

  lemma NearestOfWhole(x: real, n: int)
    ensures Gap(NearestEven(x) as real, x) <= Gap(n as real, x)
  {
    var f := x.Floor;
    if n <= f {
      assert n as real <= f as real <= x;
    } else {
      assert n as real >= (f + 1) as real >= x;
    }
  }

  // -- Both signs ------------------------------------------------------------------------

  /** Rounding treats both signs alike. */
  function Round(x: real): real {
    if x < 0.0 then -Magnitude(-x) else Magnitude(x)
  }

  /** Of at most 53 significant bits. */
  ghost predicate Representable(z: real) {
    RepresentableMagnitude(if z < 0.0 then -z else z)
  }

  lemma Sign(x: real)
    ensures x >= 0.0 <==> Round(x) >= 0.0
    ensures Round(x) == 0.0 <==> x == 0.0
  {
    MagnitudeSign(if x < 0.0 then -x else x);
  }

  /** The relative error of one rounding is at most 2^-53. */
  lemma RelativeError(x: real)
    ensures Gap(Round(x), x) <= Tolerance(if x < 0.0 then -x else x)
  {
    MagnitudeError(if x < 0.0 then -x else x);
  }

  /** Rounding never reverses an order. */
  lemma Monotone(x: real, y: real)
    requires x <= y
    ensures Round(x) <= Round(y)
  {
    if y < 0.0 {
      MagnitudeMonotone(-y, -x);
    } else if x < 0.0 {
      Sign(x);
      Sign(y);
    } else {
      MagnitudeMonotone(x, y);
    }
  }

  /** Integers of at most 53 bits are converted exactly. */
  lemma IntegersExact(n: int)
    requires -9007199254740992 <= n <= 9007199254740992
    ensures Round(n as real) == n as real
  {
    if n < 0 {
      MagnitudeExact(-n, (-n) as real);
    } else {
      MagnitudeExact(n, n as real);
    }
  }

  /** The rounding of x is representable, and no representable value is closer to x. */
  lemma CorrectlyRounded(x: real, z: real)
    requires Representable(z)
    ensures Representable(Round(x)) && Gap(Round(x), x) <= Gap(z, x)
  {
    var y := if x < 0.0 then -x else x;
    Sign(x);
    if (x < 0.0 && z <= 0.0) || (x >= 0.0 && z >= 0.0) {
      MagnitudeNearest(y, if z < 0.0 then -z else z);
    } else {
      assert Denotes(0.0, 0, 0);
      MagnitudeNearest(y, 0.0);
    }
  }

  /** The exponent is unbounded, so doubling and halving lose nothing. */
  lemma Scales(x: real)
    ensures Round(2.0 * x) == 2.0 * Round(x) && Round(x / 2.0) == Round(x) / 2.0
  {
    var y := if x < 0.0 then -x else x;
    assert 2.0 * y / 2.0 == y && 2.0 * (y / 2.0) == y;
  }

  /** Half way between two neighbours of 53 bits, the even one is taken. */
  lemma TiesToEven(n: int)
    requires 4503599627370496 <= n < 9007199254740992
    ensures Round(n as real + 0.5) == (if n % 2 == 0 then n else n + 1) as real
    ensures Round(-(n as real + 0.5)) == -((if n % 2 == 0 then n else n + 1) as real)
  {
    assert (n as real + 0.5).Floor == n;
  }
}
