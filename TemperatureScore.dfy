/** The legacy temperature scorers (src/recommendation/temperature_score.py):
    exp(-rate * d^2) on the distance d to the ideal temperature, with a
    steeper rate for the water than for the air. */
module TemperatureScore {
  import opened RealMath

  const WaterDecayRate: real := 0.08
  const AirDecayRate: real := 0.04

  /** The shared curve: clip(exp(-rate * |t - ideal|^2), 0, 1) as a
      rounded percentage. */
  function Decay(m: Maths, temperature: real, ideal: real, rate: real): real
  {
    DecayAt(m, Abs(temperature - ideal), rate)
  }

  function DecayAt(m: Maths, distance: real, rate: real): real
  {
    Percent(m, Clip(m.exp(-rate * (distance * distance)), 0.0, 1.0))
  }

  /** `calcular_score_temperatura_agua`. */
  function WaterTemperatureScore(m: Maths, temperature: real, ideal: real): real
  {
    Decay(m, temperature, ideal, WaterDecayRate)
  }

  /** `calcular_score_temperatura_ar`. */
  function AirTemperatureScore(m: Maths, temperature: real, ideal: real): real
  {
    Decay(m, temperature, ideal, AirDecayRate)
  }

  lemma ExponentOrder(d1: real, d2: real, r1: real, r2: real)
    requires 0.0 <= d1 <= d2 && 0.0 < r1 <= r2
    ensures -r2 * (d2 * d2) <= -r1 * (d1 * d1) <= 0.0
  {
    SquareMonotone(d1, d2);
    MulMonotone(r1, d1 * d1, d2 * d2);
    var sq := d2 * d2;
    if sq > 0.0 {
      MulMonotone(sq, r1, r2);
      assert r1 * sq <= r2 * sq;
    }
    assert r1 * (d2 * d2) <= r2 * (d2 * d2);
    MulMonotone(r1, 0.0, d1 * d1);
  }

  /** For positive rates the curve is 100 at distance 0, lies in [0, 100],
      and never grows when the distance or the rate grows. */
  lemma DecayAtOrder(m: Maths, d1: real, d2: real, r1: real, r2: real)
    requires Lawful(m) && 0.0 <= d1 <= d2 && 0.0 < r1 <= r2
    ensures DecayAt(m, 0.0, r1) == 100.0
    ensures 0.0 <= DecayAt(m, d2, r2) <= DecayAt(m, d1, r1) <= 100.0
  {
    ExponentOrder(d1, d2, r1, r2);
    assert -r1 * (0.0 * 0.0) == 0.0;
    PercentShape(m, Clip(m.exp(-r2 * (d2 * d2)), 0.0, 1.0), Clip(m.exp(-r1 * (d1 * d1)), 0.0, 1.0));
    PercentShape(m, Clip(m.exp(-r1 * (d1 * d1)), 0.0, 1.0), 1.0);
  }

  /** Both temperature scores are 100 at the ideal, lie in [0, 100],
      depend only on |t - ideal| and fall as it grows; for the same
      temperatures the water score never exceeds the air score. */
  lemma TemperatureScores(m: Maths, temperature: real, ideal: real, y: real)
    requires Lawful(m)
    ensures WaterTemperatureScore(m, ideal, ideal) == 100.0
    ensures AirTemperatureScore(m, ideal, ideal) == 100.0
    ensures 0.0 <= WaterTemperatureScore(m, temperature, ideal) <= 100.0
    ensures 0.0 <= AirTemperatureScore(m, temperature, ideal) <= 100.0
    ensures WaterTemperatureScore(m, temperature, ideal)
            <= AirTemperatureScore(m, temperature, ideal)
    ensures WaterTemperatureScore(m, ideal + (temperature - ideal), ideal)
            == WaterTemperatureScore(m, ideal - (temperature - ideal), ideal)
    ensures AirTemperatureScore(m, ideal + (temperature - ideal), ideal)
            == AirTemperatureScore(m, ideal - (temperature - ideal), ideal)
    ensures Abs(temperature - ideal) <= Abs(y - ideal) ==>
              && WaterTemperatureScore(m, y, ideal) <= WaterTemperatureScore(m, temperature, ideal)
              && AirTemperatureScore(m, y, ideal) <= AirTemperatureScore(m, temperature, ideal)
  {
    var d := Abs(temperature - ideal);
    assert Abs(ideal - ideal) == 0.0;
    DecayAtOrder(m, 0.0, d, AirDecayRate, WaterDecayRate);
    DecayAtOrder(m, d, d, AirDecayRate, WaterDecayRate);
    DecayAtOrder(m, d, d, WaterDecayRate, WaterDecayRate);
    if d <= Abs(y - ideal) {
      DecayAtOrder(m, d, Abs(y - ideal), AirDecayRate, AirDecayRate);
      DecayAtOrder(m, d, Abs(y - ideal), WaterDecayRate, WaterDecayRate);
    }
  }
}
