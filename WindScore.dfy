/** The legacy wind scorer (src/recommendation/wind_score.py): an offshore
    and an onshore regime, each with its own penalty above the maximum
    speed, and a calm-wind override. */
module WindScore {
  import opened RealMath

  /** Offshore ("terral"): within 45 degrees of the preferred direction,
      the gap being min(d, 360 - d) of the raw difference d. */
  predicate Offshore(direction: real, preferred: real)
  {
    AngleGap(direction, preferred) <= 45.0
  }

  /** The distance past max at which the penalty reaches -100: half of max
      offshore, a fifth of max onshore (as `max * 1.5 - max` and
      `max * 1.2 - max`). */
  function PenaltyReach(offshore: bool, maxSpeed: real): real
  {
    if offshore then maxSpeed * 1.5 - maxSpeed else maxSpeed * 1.2 - maxSpeed
  }

  /** Offshore up to the ideal speed: from 75 up to 100. */
  function OffshoreRamp(speed: real, idealSpeed: real): real
    requires idealSpeed > 0.0
  {
    75.0 + speed / idealSpeed * 25.0
  }

  /** Offshore from the ideal to the maximum speed: from 100 down to 0. */
  function OffshoreDecline(speed: real, idealSpeed: real, maxSpeed: real): real
    requires maxSpeed - idealSpeed > 0.0
  {
    100.0 - 100.0 * ((speed - idealSpeed) / (maxSpeed - idealSpeed))
  }

  /** Onshore up to the maximum speed: from 75 down to 0. */
  function OnshoreDecline(speed: real, maxSpeed: real): real
    requires maxSpeed > 0.0
  {
    75.0 - speed / maxSpeed * 75.0
  }

  /** Above the maximum: from 0 down to -100 over `reach`. */
  function Penalty(speed: real, maxSpeed: real, reach: real): real
    requires reach > 0.0
  {
    -100.0 * ((speed - maxSpeed) / reach)
  }

  /** The score the masked writes leave for a non-zero speed, before
      clipping; a regime whose guard fails leaves the zero it started at. */
  function RegimeScore(offshore: bool, speed: real, idealSpeed: real, maxSpeed: real): real
  {
    if speed <= maxSpeed then
      if offshore then
        if speed <= idealSpeed then
          if idealSpeed > 0.0 then OffshoreRamp(speed, idealSpeed) else 0.0
        else if maxSpeed - idealSpeed > 0.0 then OffshoreDecline(speed, idealSpeed, maxSpeed)
        else 0.0
      else if maxSpeed > 0.0 then OnshoreDecline(speed, maxSpeed)
      else 0.0
    else if PenaltyReach(offshore, maxSpeed) > 0.0 then
      Penalty(speed, maxSpeed, PenaltyReach(offshore, maxSpeed))
    else 0.0
  }

  /** The unclipped score: a calm (speed exactly 0) always gets 75. */
  function RawWindScore(speed: real, direction: real, preferred: real,
                        idealSpeed: real, maxSpeed: real): real
  {
    if speed == 0.0 then 75.0
    else RegimeScore(Offshore(direction, preferred), speed, idealSpeed, maxSpeed)
  }

  function WindScoreOf(m: Maths, speed: real, direction: real, preferred: real,
                       idealSpeed: real, maxSpeed: real): real
  {
    m.round2(Clip(RawWindScore(speed, direction, preferred, idealSpeed, maxSpeed), -100.0, 100.0))
  }

  /** `calcular_score_vento` for one forecast value: a zero buffer, the
      regime writes in source order, the calm override, clip and round. */
  method WindScore(m: Maths, speed: real, direction: real, preferred: real,
                   idealSpeed: real, maxSpeed: real) returns (score: real)
    ensures score == WindScoreOf(m, speed, direction, preferred, idealSpeed, maxSpeed)
    ensures Lawful(m) ==> -100.0 <= score <= 100.0
  {
    var gap := Abs(direction - preferred);
    gap := Min(gap, 360.0 - gap);
    var offshore := gap <= 45.0;
    var normal := speed <= maxSpeed;
    var s := 0.0;
    if offshore {
      if speed <= idealSpeed && normal && idealSpeed > 0.0 {
        s := OffshoreRamp(speed, idealSpeed);
      }
      var denominator := maxSpeed - idealSpeed;
      if speed > idealSpeed && normal && denominator > 0.0 {
        s := OffshoreDecline(speed, idealSpeed, maxSpeed);
      }
    }
    if !offshore && normal && maxSpeed > 0.0 {
      s := OnshoreDecline(speed, maxSpeed);
    }
    if !normal {
      var reachOffshore := maxSpeed * 1.5 - maxSpeed;
      if offshore && reachOffshore > 0.0 {
        s := Penalty(speed, maxSpeed, reachOffshore);
      }
      var reachOnshore := maxSpeed * 1.2 - maxSpeed;
      if !offshore && reachOnshore > 0.0 {
        s := Penalty(speed, maxSpeed, reachOnshore);
      }
    }
    assert offshore == Offshore(direction, preferred);
    assert speed != 0.0 ==> s == RegimeScore(offshore, speed, idealSpeed, maxSpeed);
    if speed == 0.0 {
      s := 75.0;
    }
    s := Clip(s, -100.0, 100.0);
    score := m.round2(s);
    if Lawful(m) {
      assert IsHundredth(-100.0) && IsHundredth(100.0);
      RoundWithin(m, s, -100.0, 100.0);
    }
  }

  /** A calm scores exactly 75 whatever the direction. */
  lemma CalmWind(m: Maths, direction: real, preferred: real, idealSpeed: real, maxSpeed: real)
    requires Lawful(m)
    ensures WindScoreOf(m, 0.0, direction, preferred, idealSpeed, maxSpeed) == 75.0
  {
    assert IsHundredth(75.0);
  }

  /** Offshore up to the ideal speed the score climbs from 75 to 100 along
      75 + 25 s / ideal. */
  lemma OffshoreRise(speed: real, direction: real, preferred: real,
                     idealSpeed: real, maxSpeed: real)
    requires Offshore(direction, preferred)
    requires 0.0 <= speed <= idealSpeed && speed <= maxSpeed && 0.0 < idealSpeed
    ensures RawWindScore(speed, direction, preferred, idealSpeed, maxSpeed)
            == 75.0 + 25.0 * speed / idealSpeed
    ensures 75.0 <= RawWindScore(speed, direction, preferred, idealSpeed, maxSpeed) <= 100.0
  {
    if speed == 0.0 {
      assert 25.0 * speed / idealSpeed == 0.0;
    } else {
      assert speed / idealSpeed * 25.0 == 25.0 * speed / idealSpeed;
    }
    assert speed / idealSpeed * idealSpeed == speed;
    assert 0.0 <= speed / idealSpeed <= 1.0;
  }

  /** Offshore, the wind scores its best, 100, at the ideal speed. */
  lemma OffshorePeak(m: Maths, direction: real, preferred: real, idealSpeed: real, maxSpeed: real)
    requires Lawful(m) && Offshore(direction, preferred) && 0.0 < idealSpeed <= maxSpeed
    ensures WindScoreOf(m, idealSpeed, direction, preferred, idealSpeed, maxSpeed) == 100.0
  {
    assert idealSpeed / idealSpeed == 1.0;
    assert IsHundredth(100.0);
  }

  /** Offshore between the ideal and the maximum the score falls linearly
      from 100 to 0, reaching 0 at max. */
  lemma OffshoreFall(m: Maths, speed: real, direction: real, preferred: real,
                     idealSpeed: real, maxSpeed: real)
    requires Offshore(direction, preferred) && 0.0 <= idealSpeed < speed <= maxSpeed
    ensures RawWindScore(speed, direction, preferred, idealSpeed, maxSpeed)
            == 100.0 - 100.0 * (speed - idealSpeed) / (maxSpeed - idealSpeed)
    ensures 0.0 <= RawWindScore(speed, direction, preferred, idealSpeed, maxSpeed) < 100.0
    ensures Lawful(m) ==> WindScoreOf(m, maxSpeed, direction, preferred, idealSpeed, maxSpeed) == 0.0
  {
    var u := (speed - idealSpeed) / (maxSpeed - idealSpeed);
    assert u * (maxSpeed - idealSpeed) == speed - idealSpeed;
    assert 0.0 < u <= 1.0;
    assert 100.0 * (speed - idealSpeed) / (maxSpeed - idealSpeed) == 100.0 * u;
    assert (maxSpeed - idealSpeed) / (maxSpeed - idealSpeed) == 1.0;
    assert IsHundredth(0.0);
  }

  /** Onshore up to the maximum the score falls along 75 - 75 s / max,
      reaching 0 at max. */
  lemma OnshoreLine(m: Maths, speed: real, direction: real, preferred: real,
                    idealSpeed: real, maxSpeed: real)
    requires !Offshore(direction, preferred) && 0.0 < speed <= maxSpeed
    ensures RawWindScore(speed, direction, preferred, idealSpeed, maxSpeed)
            == 75.0 - 75.0 * speed / maxSpeed
    ensures 0.0 <= RawWindScore(speed, direction, preferred, idealSpeed, maxSpeed) < 75.0
    ensures Lawful(m) ==> WindScoreOf(m, maxSpeed, direction, preferred, idealSpeed, maxSpeed) == 0.0
  {
    assert speed / maxSpeed * maxSpeed == speed;
    assert 0.0 < speed / maxSpeed <= 1.0;
    assert speed / maxSpeed * 75.0 == 75.0 * speed / maxSpeed;
    assert maxSpeed / maxSpeed == 1.0;
    assert IsHundredth(0.0);
  }

  /** Above a positive maximum the penalty is linear and reaches -100 at
      1.5 max offshore and at 1.2 max onshore; beyond that it stays -100. */
  lemma GalePenalty(m: Maths, speed: real, direction: real, preferred: real,
                    idealSpeed: real, maxSpeed: real)
    requires Lawful(m) && 0.0 < maxSpeed < speed
    ensures -100.0 <= WindScoreOf(m, speed, direction, preferred, idealSpeed, maxSpeed) <= 0.0
    ensures Offshore(direction, preferred) && speed >= 1.5 * maxSpeed ==>
              WindScoreOf(m, speed, direction, preferred, idealSpeed, maxSpeed) == -100.0
    ensures !Offshore(direction, preferred) && speed >= 1.2 * maxSpeed ==>
              WindScoreOf(m, speed, direction, preferred, idealSpeed, maxSpeed) == -100.0
  {
    var offshore := Offshore(direction, preferred);
    var reach := PenaltyReach(offshore, maxSpeed);
    assert reach == (if offshore then 0.5 * maxSpeed else 0.2 * maxSpeed);
    var t := (speed - maxSpeed) / reach;
    assert t * reach == speed - maxSpeed;
    assert 0.0 < t;
    assert speed - maxSpeed >= reach ==> t >= 1.0;
    assert IsHundredth(-100.0) && IsHundredth(0.0);
    RoundWithin(m, Clip(-100.0 * t, -100.0, 100.0), -100.0, 0.0);
  }

  lemma OffshoreFallAboveOnshore(speed: real, idealSpeed: real, maxSpeed: real)
    requires 0.0 < idealSpeed < speed <= maxSpeed
    ensures RegimeScore(false, speed, idealSpeed, maxSpeed)
            <= RegimeScore(true, speed, idealSpeed, maxSpeed)
  {
    var w := maxSpeed - idealSpeed;
    var u := (speed - idealSpeed) / w;
    assert u * w == speed - idealSpeed;
    assert 0.0 < u <= 1.0;
    var v := speed / maxSpeed;
    assert v * maxSpeed == speed;
    // 75 - 75 v == 75 (1 - u) w / max, which is at most 75 (1 - u)
    assert maxSpeed - speed == (1.0 - u) * w;
    assert (1.0 - v) * maxSpeed == (1.0 - u) * w;
    assert w <= maxSpeed;
    MulMonotone(1.0 - u + 0.000001, w, maxSpeed);
    assert (1.0 - u) * w <= (1.0 - u) * maxSpeed;
    assert 1.0 - v <= 1.0 - u;
  }

  /** Away from the calm override, an offshore wind never scores below an
      onshore wind of the same speed (with 0 < ideal < max): both the
      ramps and the gentler penalty above max favour it. */
  lemma OffshoreNeverWorse(m: Maths, speed: real, offshoreDirection: real,
                           onshoreDirection: real, preferred: real,
                           idealSpeed: real, maxSpeed: real)
    requires Lawful(m) && 0.0 <= speed && 0.0 < idealSpeed < maxSpeed
    requires Offshore(offshoreDirection, preferred) && !Offshore(onshoreDirection, preferred)
    ensures WindScoreOf(m, speed, onshoreDirection, preferred, idealSpeed, maxSpeed)
            <= WindScoreOf(m, speed, offshoreDirection, preferred, idealSpeed, maxSpeed)
  {
    var on := RawWindScore(speed, onshoreDirection, preferred, idealSpeed, maxSpeed);
    var off := RawWindScore(speed, offshoreDirection, preferred, idealSpeed, maxSpeed);
    if speed == 0.0 {
    } else if speed <= idealSpeed {
      assert speed / idealSpeed >= 0.0 && speed / maxSpeed >= 0.0;
    } else if speed <= maxSpeed {
      OffshoreFallAboveOnshore(speed, idealSpeed, maxSpeed);
    } else {
      var a := speed - maxSpeed;
      assert off == -100.0 * (a / (0.5 * maxSpeed));
      assert on == -100.0 * (a / (0.2 * maxSpeed));
      assert a / (0.5 * maxSpeed) * (0.5 * maxSpeed) == a;
      assert a / (0.2 * maxSpeed) * (0.2 * maxSpeed) == a;
      var r := a / maxSpeed;
      assert r * maxSpeed == a && r > 0.0;
      assert a / (0.5 * maxSpeed) == 2.0 * r;
      assert a / (0.2 * maxSpeed) == 5.0 * r;
    }
    assert on <= off;
    assert Clip(on, -100.0, 100.0) <= Clip(off, -100.0, 100.0);
  }
}
