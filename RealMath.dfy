/** Real arithmetic for the scoring curves.  The transcendental functions the
    source takes from numpy (exp, sin, cos, x ** 1.5 and round(x, 2)) are
    left uninterpreted: a `Maths` value carries one choice of them, and
    `Lawful` states the only facts the proofs rely on. */
module RealMath {

  /** numpy's `np.pi`. */
  const Pi: real := 3.141592653589793

  datatype Maths = Maths(
    exp: real -> real,
    sin: real -> real,
    cos: real -> real,
    pow15: real -> real,   // x ** 1.5
    round2: real -> real)  // round(x, 2)

  /** x has at most two decimal places. */
  predicate IsHundredth(x: real)
  {
    (x * 100.0).Floor as real == x * 100.0
  }

  /** The facts about the transcendental functions that the proofs use. */
  ghost predicate Lawful(m: Maths)
  {
    && (forall x :: 0.0 < m.exp(x))
    && m.exp(0.0) == 1.0
    && (forall x, y :: x <= y ==> m.exp(x) <= m.exp(y))
    && m.sin(0.0) == 0.0 && m.sin(Pi / 2.0) == 1.0
    && m.cos(0.0) == 1.0 && m.cos(Pi / 2.0) == 0.0
    && (forall x :: -1.0 <= m.sin(x) <= 1.0)
    && (forall x :: -1.0 <= m.cos(x) <= 1.0)
    && (forall x :: 0.0 <= x <= Pi / 2.0 ==> 0.0 <= m.sin(x))
    && (forall x :: 0.0 <= x <= Pi / 2.0 ==> 0.0 <= m.cos(x))
    && m.pow15(0.0) == 0.0 && m.pow15(1.0) == 1.0
    && (forall x :: 0.0 <= x <= 1.0 ==> 0.0 <= m.pow15(x) <= 1.0)
    && (forall x, y :: x <= y ==> m.round2(x) <= m.round2(y))
    && (forall x :: IsHundredth(x) ==> m.round2(x) == x)
  }

  function Abs(x: real): real
  {
    if x < 0.0 then -x else x
  }

  function Min(a: real, b: real): real
  {
    if a <= b then a else b
  }

  function Max(a: real, b: real): real
  {
    if a >= b then a else b
  }

  /** `np.clip(x, lo, hi)`, that is `min(max(x, lo), hi)`. */
  function Clip(x: real, lo: real, hi: real): (r: real)
    requires lo <= hi
    ensures lo <= r <= hi
    ensures lo <= x <= hi ==> r == x
    ensures x <= lo ==> r == lo
    ensures hi <= x ==> r == hi
  {
    Min(Max(x, lo), hi)
  }

  /** Python's `x % d` on floats for a positive divisor (floored modulo). */
  function PyMod(x: real, d: real): (r: real)
    requires 0.0 < d
    ensures 0.0 <= r < d
  {
    var q := (x / d).Floor;
    var f := x / d;
    assert q as real <= f < q as real + 1.0;
    assert d * f == x;
    MulMonotone(d, q as real, f);
    MulStrict(d, f, q as real + 1.0);
    assert d * (q as real + 1.0) == d * (q as real) + d;
    assert x < d * (q as real) + d;
    assert x - d * (q as real) < d;
    x - d * (q as real)
  }

  lemma MulMonotone(d: real, a: real, b: real)
    requires 0.0 < d && a <= b
    ensures d * a <= d * b
  {
  }

  lemma SignOfProduct(a: real, b: real)
    ensures 0.0 < a && b < 0.0 ==> a * b < 0.0
  {
  }

  lemma MulStrict(d: real, a: real, b: real)
    requires 0.0 < d && a < b
    ensures d * a < d * b
  {
  }

  /** Python's `int(x)` on a float: truncation toward zero. */
  function Trunc(x: real): (r: int)
    ensures 0.0 <= x ==> r as real <= x < r as real + 1.0
    ensures x < 0.0 ==> x <= r as real <= 0.0 && r as real - 1.0 < x
  {
    if 0.0 <= x then x.Floor else -((-x).Floor)
  }

  /** The gap between two bearings as `min(d, 360 - d)` with `d = |a - b|`,
      without reducing d modulo 360 first (wind and secondary swell). */
  function AngleGap(a: real, b: real): real
  {
    Min(Abs(a - b), 360.0 - Abs(a - b))
  }

  lemma {:induction false} AngleGapSymmetric(a: real, b: real)
    ensures AngleGap(a, b) == AngleGap(b, a)
    ensures 0.0 <= a < 360.0 && 0.0 <= b < 360.0 ==> 0.0 <= AngleGap(a, b) <= 180.0
  {
    assert Abs(a - b) == Abs(b - a);
  }

  // ---------------------------------------------------------------------
  // Consequences of the axioms used across the score curves.

  lemma ExpAtMostOne(m: Maths, x: real)
    requires Lawful(m) && x <= 0.0
    ensures 0.0 < m.exp(x) <= 1.0
  {
  }

  /** `np.exp(-d ** 2 / w)`: the bell curve most scores are built on. */
  function Gaussian(m: Maths, d: real, w: real): real
    requires w != 0.0
  {
    m.exp(-(d * d) / w)
  }

  /** `round(f * 100, 2)`: a fraction turned into a rounded percentage. */
  function Percent(m: Maths, f: real): real
  {
    m.round2(f * 100.0)
  }

  lemma SquareMonotone(a: real, b: real)
    requires Abs(a) <= Abs(b)
    ensures 0.0 <= a * a <= b * b
  {
    assert a * a == Abs(a) * Abs(a);
    assert b * b == Abs(b) * Abs(b);
    if Abs(a) > 0.0 {
      MulMonotone(Abs(b), Abs(a), Abs(b));
      MulMonotone(Abs(a), Abs(a), Abs(b));
    }
  }

  lemma DivMonotone(a: real, b: real, w: real)
    requires 0.0 < w && a <= b
    ensures a / w <= b / w
  {
    assert a / w * w == a && b / w * w == b;
  }

  /** The bell curve is 1 at its centre, positive, at most 1, and falls
      as the distance from the centre grows. */
  lemma GaussianShape(m: Maths, d1: real, d2: real, w: real)
    requires Lawful(m) && 0.0 < w && Abs(d1) <= Abs(d2)
    ensures 0.0 < Gaussian(m, d2, w) <= Gaussian(m, d1, w) <= 1.0
    ensures Gaussian(m, 0.0, w) == 1.0
  {
    SquareMonotone(d1, d2);
    SquareMonotone(0.0, d1);
    DivMonotone(-(d2 * d2), -(d1 * d1), w);
    DivMonotone(-(d1 * d1), 0.0, w);
    assert -(0.0 * 0.0) / w == 0.0;
  }

  /** A fraction in [0, 1] becomes a percentage in [0, 100], monotonically;
      0 and 1 become exactly 0 and 100. */
  lemma PercentShape(m: Maths, f1: real, f2: real)
    requires Lawful(m) && 0.0 <= f1 <= f2 <= 1.0
    ensures 0.0 <= Percent(m, f1) <= Percent(m, f2) <= 100.0
    ensures Percent(m, 0.0) == 0.0 && Percent(m, 1.0) == 100.0
  {
    assert IsHundredth(0.0) && IsHundredth(100.0);
    assert 0.0 * 100.0 <= f1 * 100.0 <= f2 * 100.0 <= 1.0 * 100.0;
  }

  /** round(x, 2) keeps [lo, hi] when both ends have two decimals. */
  lemma RoundWithin(m: Maths, x: real, lo: real, hi: real)
    requires Lawful(m) && IsHundredth(lo) && IsHundredth(hi) && lo <= x <= hi
    ensures lo <= m.round2(x) <= hi
  {
    assert m.round2(lo) <= m.round2(x) <= m.round2(hi);
  }

  // ---------------------------------------------------------------------
  // The axioms are consistent: one concrete choice satisfies all of them.

  function WitnessExp(x: real): real
  {
    if x <= 0.0 then 1.0 / (1.0 - x) else 1.0 + x
  }

  function WitnessSin(x: real): real
  {
    Clip(x / (Pi / 2.0), 0.0, 1.0)
  }

  function WitnessCos(x: real): real
  {
    Clip(1.0 - x / (Pi / 2.0), 0.0, 1.0)
  }

  lemma ReciprocalAntitone(a: real, b: real)
    requires 0.0 < b <= a
    ensures 1.0 / a <= 1.0 / b
  {
  }

  lemma WitnessExpMonotone(x: real, y: real)
    requires x <= y
    ensures 0.0 < WitnessExp(x) <= WitnessExp(y)
  {
    if x <= 0.0 {
      assert 0.0 < 1.0 / (1.0 - x);
      if y <= 0.0 {
        ReciprocalAntitone(1.0 - x, 1.0 - y);
      } else {
        assert 1.0 / (1.0 - x) <= 1.0;
      }
    }
  }

  lemma {:induction false} LawfulExists()
    ensures exists m :: Lawful(m)
  {
    var m := Maths(WitnessExp, WitnessSin, WitnessCos, x => x, x => x);
    forall x, y | x <= y
      ensures m.exp(x) <= m.exp(y)
    {
      WitnessExpMonotone(x, y);
    }
    forall x
      ensures 0.0 < m.exp(x)
    {
      WitnessExpMonotone(x, x);
    }
    assert WitnessSin(Pi / 2.0) == 1.0;
    assert WitnessCos(Pi / 2.0) == 0.0;
    assert Lawful(m);
  }
}
