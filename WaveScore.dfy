/** The legacy wave scorers (src/recommendation/wave_score.py): the size
    curve, the direction and period curves, the secondary-swell impact and
    the wave composite with its "unsurfable size" veto. */
module WaveScore {
  import opened RealMath

  // ---------------------------------------------------------------------
  // Size: the four masked pieces of the curve, as fractions of 100

  /** Below a positive minimum: minus the squared relative shortfall. */
  function Shortfall(size: real, minimum: real): real
    requires 0.0 < minimum
  {
    var d := (minimum - size) / minimum;
    -(d * d)
  }

  /** From min to ideal: sin(t * pi / 2) ** 1.5 with t the relative progress. */
  function Rise(m: Maths, size: real, minimum: real, ideal: real): real
    requires minimum < ideal
  {
    m.pow15(m.sin((size - minimum) / (ideal - minimum) * Pi / 2.0))
  }

  /** From ideal to max: cos(t * pi / 2) with t the relative progress. */
  function Fall(m: Maths, size: real, ideal: real, maximum: real): real
    requires ideal < maximum
  {
    m.cos((size - ideal) / (maximum - ideal) * Pi / 2.0)
  }

  /** Above max: a line of slope -2 / (max - ideal), floored at -1. */
  function Overshoot(size: real, ideal: real, maximum: real): real
    requires ideal < maximum
  {
    Max(-1.0, (-2.0 / (maximum - ideal)) * (size - maximum))
  }

  /** The fraction the size curve leaves in its buffer before scaling.  The
      source writes four overlapping masks in order (below min, min..ideal,
      ideal..max, above max); later writes win, so the last mask is checked
      first here. */
  function SizeFraction(m: Maths, size: real, minimum: real, ideal: real, maximum: real): real
  {
    if size > maximum && maximum > ideal then Overshoot(size, ideal, maximum)
    else if size > maximum && maximum == ideal && maximum >= 0.0 then -1.0
    else if ideal < size <= maximum && maximum > ideal then Fall(m, size, ideal, maximum)
    else if minimum <= size <= ideal && ideal > minimum then Rise(m, size, minimum, ideal)
    else if size < minimum && minimum > 0.0 then Shortfall(size, minimum)
    else 0.0
  }

  /** The size score, `round(fraction * 100, 2)`. */
  function SizeScoreOf(m: Maths, size: real, minimum: real, ideal: real, maximum: real): real
  {
    Percent(m, SizeFraction(m, size, minimum, ideal, maximum))
  }

  /** `calcular_score_tamanho_onda` for one forecast value: a zero buffer
      overwritten by the four masked writes, then scaled and rounded. */
  method SizeScore(m: Maths, size: real, minimum: real, ideal: real, maximum: real)
    returns (score: real)
    ensures score == SizeScoreOf(m, size, minimum, ideal, maximum)
    ensures Lawful(m) && 0.0 <= size ==> -100.0 <= score <= 100.0
  {
    var s := 0.0;
    if size < minimum && minimum > 0.0 {
      s := Shortfall(size, minimum);
    }
    if minimum <= size <= ideal && ideal > minimum {
      s := Rise(m, size, minimum, ideal);
    }
    if ideal < size <= maximum && maximum > ideal {
      s := Fall(m, size, ideal, maximum);
    }
    if size > maximum {
      if maximum > ideal {
        s := Overshoot(size, ideal, maximum);
      } else if maximum == ideal && maximum >= 0.0 {
        s := -1.0;
      }
    }
    score := Percent(m, s);
    if Lawful(m) && 0.0 <= size {
      SizeScoreRange(m, size, minimum, ideal, maximum);
    }
  }

  lemma UnitRatio(a: real, b: real)
    requires 0.0 < a <= b
    ensures 0.0 < a / b <= 1.0
  {
    assert a / b * b == a;
  }

  lemma UnitSquare(d: real)
    requires 0.0 < d <= 1.0
    ensures 0.0 < d * d <= d
  {
    MulMonotone(d, d, 1.0);
  }

  /** The shortfall penalty lies in [-1, 0) for sizes in [0, min) and is
      -1 for a flat sea. */
  lemma ShortfallRange(size: real, minimum: real)
    requires 0.0 <= size < minimum
    ensures -1.0 <= Shortfall(size, minimum) < 0.0
    ensures size == 0.0 ==> Shortfall(size, minimum) == -1.0
  {
    UnitRatio(minimum - size, minimum);
    UnitSquare((minimum - size) / minimum);
  }

  /** Relative progress from lo to hi, as an angle: 0 at lo, a right
      angle at hi, and within [0, pi/2] in between. */
  lemma Progress(x: real, lo: real, hi: real)
    requires lo <= x <= hi && lo < hi
    ensures 0.0 <= (x - lo) / (hi - lo) * Pi / 2.0 <= Pi / 2.0
    ensures (lo - lo) / (hi - lo) * Pi / 2.0 == 0.0
    ensures (hi - lo) / (hi - lo) * Pi / 2.0 == Pi / 2.0
  {
    var t := (x - lo) / (hi - lo);
    if x == lo {
      assert t == 0.0;
    } else {
      UnitRatio(x - lo, hi - lo);
    }
    MulMonotone(Pi / 2.0, t, 1.0);
    assert t * Pi / 2.0 == Pi / 2.0 * t;
    SelfRatio(hi - lo);
  }

  lemma SelfRatio(d: real)
    requires d != 0.0
    ensures d / d == 1.0
  {
  }

  /** The rise goes from 0 at min to 1 at the ideal and stays in [0, 1]. */
  lemma RiseRange(m: Maths, size: real, minimum: real, ideal: real)
    requires Lawful(m) && minimum <= size <= ideal && minimum < ideal
    ensures 0.0 <= Rise(m, size, minimum, ideal) <= 1.0
    ensures Rise(m, minimum, minimum, ideal) == 0.0
    ensures Rise(m, ideal, minimum, ideal) == 1.0
  {
    Progress(size, minimum, ideal);
  }

  /** The fall goes from 1 at the ideal to 0 at max, staying in [0, 1]. */
  lemma FallRange(m: Maths, size: real, ideal: real, maximum: real)
    requires Lawful(m) && ideal <= size <= maximum && ideal < maximum
    ensures 0.0 <= Fall(m, size, ideal, maximum) <= 1.0
    ensures Fall(m, ideal, ideal, maximum) == 1.0
    ensures Fall(m, maximum, ideal, maximum) == 0.0
  {
    Progress(size, ideal, maximum);
  }

  /** Above max the overshoot is max(-1, -2 (size - max) / (max - ideal)),
      which lies in [-1, 0). */
  lemma OvershootRange(size: real, ideal: real, maximum: real)
    requires ideal < maximum < size
    ensures -1.0 <= Overshoot(size, ideal, maximum) < 0.0
    ensures Overshoot(size, ideal, maximum) * 100.0
            == Max(-100.0, -200.0 * (size - maximum) / (maximum - ideal))
  {
    var slope := -2.0 / (maximum - ideal);
    assert slope * (maximum - ideal) == -2.0;
    assert slope < 0.0;
    var line := slope * (size - maximum);
    assert line < 0.0;
    assert line * 100.0 == -200.0 * (size - maximum) / (maximum - ideal);
    assert Overshoot(size, ideal, maximum) == Max(-1.0, line);
    var scaled := -200.0 * (size - maximum) / (maximum - ideal);
    if line >= -1.0 {
      assert Max(-1.0, line) * 100.0 == scaled;
      assert scaled >= -100.0;
    } else {
      assert scaled < -100.0;
    }
  }

  /** Between min and ideal the score climbs from 0 to 100. */
  lemma SizeRampEnds(m: Maths, minimum: real, ideal: real, maximum: real)
    requires Lawful(m) && minimum < ideal
    ensures SizeScoreOf(m, minimum, minimum, ideal, maximum) == 0.0
    ensures SizeScoreOf(m, ideal, minimum, ideal, maximum) == 100.0
  {
    RiseRange(m, minimum, minimum, ideal);
    PercentShape(m, 0.0, 1.0);
  }

  /** From the ideal to max (when max exceeds the ideal) the score falls
      from 100 to 0 and stays in [0, 100]. */
  lemma SizeFallEnds(m: Maths, size: real, minimum: real, ideal: real, maximum: real)
    requires Lawful(m) && minimum <= ideal < size <= maximum
    ensures 0.0 <= SizeScoreOf(m, size, minimum, ideal, maximum) <= 100.0
    ensures SizeScoreOf(m, maximum, minimum, ideal, maximum) == 0.0
  {
    FallRange(m, size, ideal, maximum);
    PercentShape(m, 0.0, Fall(m, size, ideal, maximum));
    PercentShape(m, Fall(m, size, ideal, maximum), 1.0);
  }

  /** Below a positive minimum (preferences ordered min <= ideal <= max)
      the score lies in [-100, 0]; a flat sea scores exactly -100. */
  lemma SizeBelowMinimum(m: Maths, size: real, minimum: real, ideal: real, maximum: real)
    requires Lawful(m) && 0.0 < minimum <= ideal <= maximum && 0.0 <= size < minimum
    ensures -100.0 <= SizeScoreOf(m, size, minimum, ideal, maximum) <= 0.0
    ensures size == 0.0 ==> SizeScoreOf(m, size, minimum, ideal, maximum) == -100.0
  {
    ShortfallRange(size, minimum);
    assert SizeFraction(m, size, minimum, ideal, maximum) == Shortfall(size, minimum);
    assert IsHundredth(-100.0) && IsHundredth(0.0);
    RoundWithin(m, Shortfall(size, minimum) * 100.0, -100.0, 0.0);
  }

  /** Above a maximum that exceeds the ideal the score is
      round(max(-100, -200 (size - max) / (max - ideal)), 2). */
  lemma SizeAboveMaximum(m: Maths, size: real, minimum: real, ideal: real, maximum: real)
    requires Lawful(m) && ideal < maximum < size
    ensures SizeScoreOf(m, size, minimum, ideal, maximum)
            == m.round2(Max(-100.0, -200.0 * (size - maximum) / (maximum - ideal)))
    ensures -100.0 <= SizeScoreOf(m, size, minimum, ideal, maximum) <= 0.0
  {
    OvershootRange(size, ideal, maximum);
    assert IsHundredth(-100.0) && IsHundredth(0.0);
    RoundWithin(m, Overshoot(size, ideal, maximum) * 100.0, -100.0, 0.0);
  }

  /** When max equals a non-negative ideal, anything bigger scores -100. */
  lemma SizeAboveFlatTop(m: Maths, size: real, minimum: real, peak: real)
    requires Lawful(m) && 0.0 <= peak < size
    ensures SizeScoreOf(m, size, minimum, peak, peak) == -100.0
  {
    assert IsHundredth(-100.0);
  }

  /** For a non-negative forecast size the fraction lies in [-1, 1] and the
      size score in [-100, 100]. */
  lemma SizeScoreRange(m: Maths, size: real, minimum: real, ideal: real, maximum: real)
    requires Lawful(m) && 0.0 <= size
    ensures -1.0 <= SizeFraction(m, size, minimum, ideal, maximum) <= 1.0
    ensures -100.0 <= SizeScoreOf(m, size, minimum, ideal, maximum) <= 100.0
  {
    if size > maximum && maximum > ideal {
      OvershootRange(size, ideal, maximum);
    } else if size > maximum && maximum == ideal && maximum >= 0.0 {
    } else if ideal < size <= maximum && maximum > ideal {
      FallRange(m, size, ideal, maximum);
    } else if minimum <= size <= ideal && ideal > minimum {
      RiseRange(m, size, minimum, ideal);
    } else if size < minimum && minimum > 0.0 {
      ShortfallRange(size, minimum);
    }
    var f := SizeFraction(m, size, minimum, ideal, maximum);
    assert -100.0 <= f * 100.0 <= 100.0;
    assert IsHundredth(-100.0) && IsHundredth(100.0);
    RoundWithin(m, f * 100.0, -100.0, 100.0);
  }

  // ---------------------------------------------------------------------
  // Direction and period

  /** `|forecast - ideal| % 360`, then the smaller way round. */
  function DirectionGap(direction: real, ideal: real): (gap: real)
    ensures 0.0 <= gap <= 180.0
  {
    var d := PyMod(Abs(direction - ideal), 360.0);
    Min(d, 360.0 - d)
  }

  /** `calcular_score_direcao_onda`: a bell of width 45 degrees (45 ** 2 =
      2025) on the circular gap, as a rounded percentage. */
  function DirectionScore(m: Maths, direction: real, ideal: real): real
  {
    Percent(m, Gaussian(m, DirectionGap(direction, ideal), 2025.0))
  }

  lemma PyModShift(a: real, k: int)
    ensures PyMod(a + 360.0 * k as real, 360.0) == PyMod(a, 360.0)
  {
    var y := a / 360.0;
    assert (a + 360.0 * k as real) / 360.0 == y + k as real;
    assert (y + k as real).Floor == y.Floor + k;
  }

  lemma PyModNegate(a: real)
    ensures PyMod(-a, 360.0) == 0.0 <==> PyMod(a, 360.0) == 0.0
    ensures PyMod(a, 360.0) != 0.0 ==> PyMod(-a, 360.0) == 360.0 - PyMod(a, 360.0)
  {
    var y := a / 360.0;
    assert -a / 360.0 == -y;
    if y.Floor as real == y {
      assert (-y).Floor == -(y.Floor);
    } else {
      assert (-y).Floor == -(y.Floor) - 1;
    }
  }

  /** The circular gap is the same either side of the ideal and does not
      change when the forecast bearing turns a full circle. */
  lemma DirectionGapSymmetry(ideal: real, x: real)
    ensures DirectionGap(ideal + x, ideal) == DirectionGap(ideal - x, ideal)
    ensures DirectionGap(ideal + x + 360.0, ideal) == DirectionGap(ideal + x, ideal)
  {
    assert (ideal + x) - ideal == x;
    assert (ideal - x) - ideal == -x;
    assert (ideal + x + 360.0) - ideal == x + 360.0;
    assert Abs(x) == Abs(-x);
    if x >= 0.0 {
      PyModShift(x, 1);
    } else if x + 360.0 >= 0.0 {
      PyModShift(-x, -1);
      PyModNegate(-x);
    } else {
      PyModShift(-x, -1);
      assert Abs(x + 360.0) == -x - 360.0;
    }
  }

  /** The direction score is 100 at the ideal, symmetric about it,
      periodic in 360 degrees, and in [0, 100] everywhere. */
  lemma DirectionScoreShape(m: Maths, ideal: real, x: real)
    requires Lawful(m)
    ensures DirectionScore(m, ideal, ideal) == 100.0
    ensures DirectionScore(m, ideal + x, ideal) == DirectionScore(m, ideal - x, ideal)
    ensures DirectionScore(m, ideal + x + 360.0, ideal) == DirectionScore(m, ideal + x, ideal)
    ensures 0.0 <= DirectionScore(m, ideal + x, ideal) <= 100.0
  {
    DirectionGapSymmetry(ideal, x);
    assert DirectionGap(ideal, ideal) == 0.0;
    GaussianShape(m, 0.0, DirectionGap(ideal + x, ideal), 2025.0);
    PercentShape(m, Gaussian(m, DirectionGap(ideal + x, ideal), 2025.0), 1.0);
  }

  /** The direction score never grows as the circular gap widens. */
  lemma DirectionScoreDecay(m: Maths, d1: real, d2: real, ideal: real)
    requires Lawful(m) && DirectionGap(d1, ideal) <= DirectionGap(d2, ideal)
    ensures DirectionScore(m, d2, ideal) <= DirectionScore(m, d1, ideal)
  {
    var g1 := DirectionGap(d1, ideal);
    var g2 := DirectionGap(d2, ideal);
    GaussianShape(m, g1, g2, 2025.0);
    PercentShape(m, Gaussian(m, g2, 2025.0), Gaussian(m, g1, 2025.0));
  }

  /** `calcular_score_periodo_onda`: exp(-(p - ideal)^2 / (ideal + 1e-6)) as
      a rounded percentage.  At the one ideal period where the divisor is 0
      numpy puts -inf in the exponent (score 0) unless the period equals
      the ideal too. */
  function PeriodScore(m: Maths, period: real, ideal: real): real
  {
    var width := ideal + 0.000001;
    if width == 0.0 then Percent(m, 0.0)
    else Percent(m, Gaussian(m, period - ideal, width))
  }

  /** The period score is 100 at the ideal period and symmetric about it;
      for an ideal above -1e-6 it lies in [0, 100] and falls as the period
      moves away from the ideal. */
  lemma PeriodScoreShape(m: Maths, ideal: real, x: real, y: real)
    requires Lawful(m)
    ensures ideal + 0.000001 != 0.0 ==> PeriodScore(m, ideal, ideal) == 100.0
    ensures PeriodScore(m, ideal + x, ideal) == PeriodScore(m, ideal - x, ideal)
    ensures ideal + 0.000001 > 0.0 ==> 0.0 <= PeriodScore(m, ideal + x, ideal) <= 100.0
    ensures ideal + 0.000001 > 0.0 && Abs(x) <= Abs(y) ==>
              PeriodScore(m, ideal + y, ideal) <= PeriodScore(m, ideal + x, ideal)
  {
    assert (ideal + x) - ideal == x && (ideal - x) - ideal == -x && (ideal + y) - ideal == y;
    assert ideal - ideal == 0.0;
    assert x * x == (-x) * (-x);
    var w := ideal + 0.000001;
    PercentShape(m, 0.0, 1.0);
    if w > 0.0 {
      GaussianShape(m, 0.0, x, w);
      PercentShape(m, Gaussian(m, x, w), 1.0);
      if Abs(x) <= Abs(y) {
        GaussianShape(m, x, y, w);
        PercentShape(m, Gaussian(m, y, w), Gaussian(m, x, w));
      }
    } else if w < 0.0 {
      assert -(0.0 * 0.0) / w == 0.0;
    }
  }

  // ---------------------------------------------------------------------
  // Secondary swell

  /** The direction part of the secondary impact: -1 once the two swells
      are more than 90 degrees apart, otherwise the cosine of the gap. */
  function SecondaryDirectionTerm(m: Maths, secondaryDirection: real, direction: real): (r: real)
    ensures AngleGap(secondaryDirection, direction) > 90.0 ==> r == -1.0
    ensures Lawful(m) ==> -1.0 <= r <= 1.0
  {
    var gap := AngleGap(secondaryDirection, direction);
    if gap > 90.0 then -1.0 else m.cos(gap * Pi / 180.0)
  }

  /** The size part: a bell centred on a ratio of 0.45 (width 0.5 ** 2 =
      0.25), turned into a penalty once the secondary swell is more than
      1.2 times the primary. */
  function SecondarySizeTerm(m: Maths, sizeRatio: real): (r: real)
    ensures Lawful(m) && sizeRatio > 1.2 ==> r < 0.0
    ensures Lawful(m) && sizeRatio <= 1.2 ==> 0.0 < r <= 1.0
  {
    var bell := Gaussian(m, sizeRatio - 0.45, 0.25);
    BellRange(m, sizeRatio - 0.45, 0.25);
    var penalty := -1.0 * (sizeRatio - 1.2);
    SignOfProduct(bell, penalty);
    if sizeRatio > 1.2 then bell * penalty else bell
  }

  lemma BellRange(m: Maths, d: real, w: real)
    requires 0.0 < w
    ensures Lawful(m) ==> 0.0 < Gaussian(m, d, w) <= 1.0
  {
    if Lawful(m) {
      GaussianShape(m, 0.0, d, w);
    }
  }

  /** `calcular_impacto_swell_secundario`: a 0.60 / 0.20 / 0.20 blend of
      the direction, size-ratio and period-ratio terms, clipped to [-1, 1];
      0 when the primary height or period is 0. */
  function SecondaryImpact(m: Maths, secondaryHeight: real, secondaryPeriod: real,
                           secondaryDirection: real, height: real, period: real,
                           direction: real): (r: real)
    ensures -1.0 <= r <= 1.0
    ensures height == 0.0 || period == 0.0 ==> r == 0.0
  {
    if height == 0.0 || period == 0.0 then 0.0
    else
      var directionTerm := SecondaryDirectionTerm(m, secondaryDirection, direction);
      var sizeTerm := SecondarySizeTerm(m, secondaryHeight / height);
      var periodTerm := Gaussian(m, secondaryPeriod / period - 1.0, 0.64);
      Clip(directionTerm * 0.60 + sizeTerm * 0.20 + periodTerm * 0.20, -1.0, 1.0)
  }

  /** A positive impact is a bonus of up to 10 %, any other a penalty of up
      to 20 %. */
  function SecondaryModifier(impact: real): (r: real)
    requires -1.0 <= impact <= 1.0
    ensures -0.2 <= r <= 0.1
    ensures 0.0 < impact <==> 0.0 < r
  {
    if impact > 0.0 then impact * 0.10 else impact * 0.20
  }

  // ---------------------------------------------------------------------
  // Composite

  /** The 0.5 / 0.3 / 0.2 blend of size, period and direction scores. */
  function WaveBase(m: Maths, size: real, direction: real, period: real,
                    idealDirection: real, idealPeriod: real): real
  {
    size * 0.50 + PeriodScore(m, period, idealPeriod) * 0.30
      + DirectionScore(m, direction, idealDirection) * 0.20
  }

  /** The blend, scaled by the secondary-swell modifier when a secondary
      swell is present, before clipping and rounding. */
  function WaveBlend(m: Maths, size: real, height: real, direction: real, period: real,
                     idealDirection: real, idealPeriod: real,
                     secondaryHeight: real, secondaryDirection: real,
                     secondaryPeriod: real): real
  {
    var base := WaveBase(m, size, direction, period, idealDirection, idealPeriod);
    if secondaryHeight > 0.0 && secondaryPeriod > 0.0 then
      base * (1.0 + SecondaryModifier(SecondaryImpact(m, secondaryHeight, secondaryPeriod,
                                                      secondaryDirection, height, period,
                                                      direction)))
    else base
  }

  /** `calcular_score_onda`. */
  function WaveScore(m: Maths, height: real, direction: real, period: real,
                     minimum: real, ideal: real, maximum: real,
                     idealDirection: real, idealPeriod: real,
                     secondaryHeight: real, secondaryDirection: real,
                     secondaryPeriod: real): real
  {
    var size := SizeScoreOf(m, height, minimum, ideal, maximum);
    if size < 0.0 then size
    else
      m.round2(Clip(WaveBlend(m, size, height, direction, period, idealDirection, idealPeriod,
                              secondaryHeight, secondaryDirection, secondaryPeriod),
                    -100.0, 100.0))
  }

  /** The veto: a negative size score is returned unchanged, whatever the
      direction, period and secondary swell are. */
  lemma WaveVeto(m: Maths, height: real, minimum: real, ideal: real, maximum: real,
                 direction: real, period: real, idealDirection: real, idealPeriod: real,
                 secondaryHeight: real, secondaryDirection: real, secondaryPeriod: real,
                 direction': real, period': real, idealDirection': real, idealPeriod': real,
                 secondaryHeight': real, secondaryDirection': real, secondaryPeriod': real)
    requires SizeScoreOf(m, height, minimum, ideal, maximum) < 0.0
    ensures WaveScore(m, height, direction, period, minimum, ideal, maximum, idealDirection,
                      idealPeriod, secondaryHeight, secondaryDirection, secondaryPeriod)
            == SizeScoreOf(m, height, minimum, ideal, maximum)
    ensures WaveScore(m, height, direction, period, minimum, ideal, maximum, idealDirection,
                      idealPeriod, secondaryHeight, secondaryDirection, secondaryPeriod)
            == WaveScore(m, height, direction', period', minimum, ideal, maximum, idealDirection',
                         idealPeriod', secondaryHeight', secondaryDirection', secondaryPeriod')
  {
  }

  /** The secondary swell only counts when both its height and its period
      are positive; otherwise the score is that of no secondary swell. */
  lemma SecondaryOnlyWhenPresent(m: Maths, height: real, direction: real, period: real,
                                 minimum: real, ideal: real, maximum: real,
                                 idealDirection: real, idealPeriod: real,
                                 secondaryHeight: real, secondaryDirection: real,
                                 secondaryPeriod: real)
    requires secondaryHeight <= 0.0 || secondaryPeriod <= 0.0
    ensures WaveScore(m, height, direction, period, minimum, ideal, maximum, idealDirection,
                      idealPeriod, secondaryHeight, secondaryDirection, secondaryPeriod)
            == WaveScore(m, height, direction, period, minimum, ideal, maximum, idealDirection,
                         idealPeriod, 0.0, 0.0, 0.0)
  {
  }

  /** For a non-negative forecast height the wave score lies in [-100, 100]. */
  lemma WaveScoreRange(m: Maths, height: real, direction: real, period: real,
                       minimum: real, ideal: real, maximum: real,
                       idealDirection: real, idealPeriod: real,
                       secondaryHeight: real, secondaryDirection: real,
                       secondaryPeriod: real)
    requires Lawful(m) && 0.0 <= height
    ensures -100.0 <= WaveScore(m, height, direction, period, minimum, ideal, maximum,
                                idealDirection, idealPeriod, secondaryHeight,
                                secondaryDirection, secondaryPeriod) <= 100.0
  {
    SizeScoreRange(m, height, minimum, ideal, maximum);
    var size := SizeScoreOf(m, height, minimum, ideal, maximum);
    if size >= 0.0 {
      ClippedPercent(m, WaveBlend(m, size, height, direction, period, idealDirection,
                                  idealPeriod, secondaryHeight, secondaryDirection,
                                  secondaryPeriod));
    }
  }

  /** Clipping to [-100, 100] and rounding stays in [-100, 100]. */
  lemma ClippedPercent(m: Maths, x: real)
    requires Lawful(m)
    ensures -100.0 <= m.round2(Clip(x, -100.0, 100.0)) <= 100.0
  {
    assert IsHundredth(-100.0) && IsHundredth(100.0);
    RoundWithin(m, Clip(x, -100.0, 100.0), -100.0, 100.0);
  }
}
