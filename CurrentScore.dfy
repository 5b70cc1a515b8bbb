/** The legacy current scorer (src/recommendation/current_score.py):
    exp(-|speed - ideal| / 0.5) as a rounded percentage. */
module CurrentScore {
  import opened RealMath

  const DecayFactor: real := 0.5

  /** `calcular_score_corrente`. */
  function CurrentScore(m: Maths, speed: real, ideal: real): real
  {
    Percent(m, Clip(m.exp(-Abs(speed - ideal) / DecayFactor), 0.0, 1.0))
  }

  /** The current score is 100 at the ideal speed, lies in [0, 100],
      depends only on |speed - ideal| and never grows as it grows. */
  lemma CurrentScoreShape(m: Maths, ideal: real, x: real, y: real)
    requires Lawful(m)
    ensures CurrentScore(m, ideal, ideal) == 100.0
    ensures 0.0 <= CurrentScore(m, ideal + x, ideal) <= 100.0
    ensures CurrentScore(m, ideal + x, ideal) == CurrentScore(m, ideal - x, ideal)
    ensures Abs(x) <= Abs(y) ==> CurrentScore(m, ideal + y, ideal) <= CurrentScore(m, ideal + x, ideal)
  {
    assert (ideal + x) - ideal == x && (ideal - x) - ideal == -x && (ideal + y) - ideal == y;
    assert ideal - ideal == 0.0;
    assert Abs(x) == Abs(-x);
    assert -Abs(0.0) / DecayFactor == 0.0;
    PercentShape(m, Clip(m.exp(-Abs(x) / DecayFactor), 0.0, 1.0), 1.0);
    if Abs(x) <= Abs(y) {
      assert -Abs(y) / DecayFactor <= -Abs(x) / DecayFactor;
      PercentShape(m, Clip(m.exp(-Abs(y) / DecayFactor), 0.0, 1.0),
                   Clip(m.exp(-Abs(x) / DecayFactor), 0.0, 1.0));
    }
  }
}
