/** The legacy tide scorer (src/recommendation/tide_score.py): a bell on
    the tide height and a penalty when the flow type is not the wanted one. */
module TideScore {
  import opened RealMath

  /** The ideal flow type that accepts any flow. */
  const AnyFlow: string := "qualquer"

  /** The width of the height bell: the ideal height itself, or the fixed
      0.1 when the ideal is not positive (so the width is never 0). */
  function TideWidth(ideal: real): (w: real)
    ensures 0.0 < w
    ensures ideal > 0.0 ==> w == ideal
  {
    if ideal <= 0.0 then 0.1 else ideal
  }

  /** 0.8 when a specific flow is wanted and the forecast flow differs,
      1 otherwise. */
  function FlowFactor(tideType: string, idealType: string): real
  {
    if idealType != AnyFlow && tideType != idealType then 0.8 else 1.0
  }

  /** `calcular_score_mare` for one forecast value. */
  function TideScore(m: Maths, height: real, ideal: real, tideType: string, idealType: string): real
  {
    var base := Gaussian(m, height - ideal, TideWidth(ideal));
    Percent(m, Clip(base * FlowFactor(tideType, idealType), 0.0, 1.0))
  }

  /** The tide score lies in [0, 100]. */
  lemma TideScoreRange(m: Maths, height: real, ideal: real, tideType: string, idealType: string)
    requires Lawful(m)
    ensures 0.0 <= TideScore(m, height, ideal, tideType, idealType) <= 100.0
  {
    var base := Gaussian(m, height - ideal, TideWidth(ideal));
    PercentShape(m, Clip(base * FlowFactor(tideType, idealType), 0.0, 1.0), 1.0);
  }

  /** At the ideal height, with any flow accepted or the wanted flow
      forecast, the score is 100; with the wrong flow it is 80. */
  lemma TideScorePeak(m: Maths, ideal: real, tideType: string, idealType: string)
    requires Lawful(m)
    ensures idealType == AnyFlow || tideType == idealType ==>
              TideScore(m, ideal, ideal, tideType, idealType) == 100.0
    ensures idealType != AnyFlow && tideType != idealType ==>
              TideScore(m, ideal, ideal, tideType, idealType) == 80.0
  {
    GaussianShape(m, 0.0, 0.0, TideWidth(ideal));
    assert ideal - ideal == 0.0;
    PercentShape(m, 0.0, 1.0);
    assert IsHundredth(80.0);
    assert 0.8 * 100.0 == 80.0;
  }

  /** A mismatched flow scales the height bell by 0.8 and never scores
      above the same height with the wanted flow. */
  lemma TideMismatchPenalty(m: Maths, height: real, ideal: real, tideType: string, idealType: string)
    requires Lawful(m) && idealType != AnyFlow && tideType != idealType
    ensures TideScore(m, height, ideal, tideType, idealType)
            == Percent(m, 0.8 * Gaussian(m, height - ideal, TideWidth(ideal)))
    ensures TideScore(m, height, ideal, tideType, idealType)
            <= TideScore(m, height, ideal, idealType, idealType)
  {
    var base := Gaussian(m, height - ideal, TideWidth(ideal));
    GaussianShape(m, height - ideal, height - ideal, TideWidth(ideal));
    assert base * 0.8 == 0.8 * base;
    PercentShape(m, 0.8 * base, base);
  }

  /** With the ideal type 'qualquer' the forecast flow type has no effect. */
  lemma TideAnyFlowIgnoresType(m: Maths, height: real, ideal: real, type1: string, type2: string)
    ensures TideScore(m, height, ideal, type1, AnyFlow) == TideScore(m, height, ideal, type2, AnyFlow)
  {
  }

  /** The score depends on the height only through its distance to the
      ideal: symmetric about the ideal and falling away from it. */
  lemma TideHeightShape(m: Maths, ideal: real, x: real, y: real, tideType: string, idealType: string)
    requires Lawful(m)
    ensures TideScore(m, ideal + x, ideal, tideType, idealType)
            == TideScore(m, ideal - x, ideal, tideType, idealType)
    ensures Abs(x) <= Abs(y) ==>
              TideScore(m, ideal + y, ideal, tideType, idealType)
              <= TideScore(m, ideal + x, ideal, tideType, idealType)
  {
    assert (ideal + x) - ideal == x && (ideal - x) - ideal == -x && (ideal + y) - ideal == y;
    assert x * x == (-x) * (-x);
    var w := TideWidth(ideal);
    var f := FlowFactor(tideType, idealType);
    if Abs(x) <= Abs(y) {
      GaussianShape(m, x, y, w);
      assert Gaussian(m, y, w) * f <= Gaussian(m, x, w) * f;
      PercentShape(m, Clip(Gaussian(m, y, w) * f, 0.0, 1.0), Clip(Gaussian(m, x, w) * f, 0.0, 1.0));
    }
  }
}
