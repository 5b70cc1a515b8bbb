/** The newer scoring service (src/services/scoring_service.py): simpler
    piecewise rules than the legacy scorers, minimum circular distance over
    lists of ideal directions, and an unclamped weighted overall score. */
module ScoringService {
  import opened Common
  import opened RealMath
  import opened Records

  // ---------------------------------------------------------------------
  // Swell size and period

  /** `_calculate_swell_size_score`: -100 above max, 0 below 30 % of the
      ideal, a ramp to 100 at the ideal, then a fall to 0 at max.  Python
      raises ZeroDivisionError for a flat sea with an ideal height of 0. */
  function SwellSizeScore(height: real, ideal: real, maximum: real): Result<real>
  {
    if height > maximum then Ok(-100.0)
    else if height < ideal * 0.3 then Ok(0.0)
    else if height <= ideal then
      if ideal == 0.0 then Err(ZeroDivision) else Ok(100.0 * (height / ideal))
    else
      var range := maximum - ideal;
      if range <= 0.0 then Ok(0.0)
      else Ok(100.0 * (1.0 - (height - ideal) / range))
  }

  /** The size score fails only for a flat sea with an ideal height of 0
      (and a non-negative maximum, else the first rule answers). */
  lemma SwellSizeFails(height: real, ideal: real, maximum: real)
    ensures SwellSizeScore(height, ideal, maximum).Err? <==> height == 0.0 == ideal && 0.0 <= maximum
  {
    if ideal < 0.0 && ideal * 0.3 <= height {
      assert height > ideal;
    }
  }

  /** Above max the score is -100, and only there is it negative. */
  lemma SwellSizeAboveMaximum(height: real, ideal: real, maximum: real)
    ensures height > maximum ==> SwellSizeScore(height, ideal, maximum) == Ok(-100.0)
    ensures (SwellSizeScore(height, ideal, maximum).Ok?
             && SwellSizeScore(height, ideal, maximum).value < 0.0) ==> height > maximum
  {
    if height <= maximum && ideal * 0.3 <= height && height <= ideal && ideal != 0.0 {
      assert ideal > 0.0;
      var t := height / ideal;
      assert t * ideal == height;
      assert t >= 0.0;
    }
    if ideal < height <= maximum {
      var range := maximum - ideal;
      var u := (height - ideal) / range;
      assert u * range == height - ideal;
      assert u <= 1.0;
    }
  }

  /** Below 30 % of the ideal the score is 0; from there to the ideal it is
      the ramp 100 h / ideal, in [30, 100]. */
  lemma SwellSizeRamp(height: real, ideal: real, maximum: real)
    requires height <= maximum
    ensures height < ideal * 0.3 ==> SwellSizeScore(height, ideal, maximum) == Ok(0.0)
    ensures 0.0 < ideal && ideal * 0.3 <= height <= ideal ==>
              SwellSizeScore(height, ideal, maximum) == Ok(100.0 * height / ideal)
              && 30.0 <= 100.0 * height / ideal <= 100.0
  {
    if 0.0 < ideal && ideal * 0.3 <= height <= ideal {
      var t := height / ideal;
      assert t * ideal == height;
      assert 0.3 <= t <= 1.0;
      assert 100.0 * (height / ideal) == 100.0 * height / ideal;
    }
  }

  /** Between the ideal and max the score falls linearly, staying in
      [0, 100). */
  lemma SwellSizeFall(height: real, ideal: real, maximum: real)
    requires 0.0 <= ideal < height <= maximum
    ensures SwellSizeScore(height, ideal, maximum)
            == Ok(100.0 * (1.0 - (height - ideal) / (maximum - ideal)))
    ensures 0.0 <= SwellSizeScore(height, ideal, maximum).value < 100.0
  {
    var range := maximum - ideal;
    var u := (height - ideal) / range;
    assert u * range == height - ideal;
    assert 0.0 < u <= 1.0;
  }

  /** The size score reaches 100 at the ideal and falls to 0 at max. */
  lemma SwellSizeEnds(ideal: real, maximum: real)
    requires 0.0 < ideal < maximum
    ensures SwellSizeScore(ideal, ideal, maximum) == Ok(100.0)
    ensures SwellSizeScore(maximum, ideal, maximum) == Ok(0.0)
  {
    assert ideal / ideal == 1.0;
    assert (maximum - ideal) / (maximum - ideal) == 1.0;
  }

  /** The ideal period per surf level; any other level, or none, gets the
      intermediate 12 s. */
  function IdealPeriod(surfLevel: Option<string>): int
  {
    match surfLevel
    case Some("iniciante") => 8
    case Some("maroleiro") => 10
    case Some("intermediario") => 12
    case Some("pro") => 15
    case _ => 12
  }

  /** The table rises with skill (beginners like short-period swell, pros
      the most powerful), every level's ideal is positive, and an unknown
      level is treated as intermediate. */
  lemma IdealPeriodTable(other: string)
    requires other !in {"iniciante", "maroleiro", "intermediario", "pro"}
    ensures IdealPeriod(Some("iniciante")) < IdealPeriod(Some("maroleiro"))
            < IdealPeriod(Some("intermediario")) < IdealPeriod(Some("pro"))
    ensures forall level :: 8 <= IdealPeriod(level) <= 15
    ensures IdealPeriod(Some(other)) == IdealPeriod(None) == IdealPeriod(Some("intermediario"))
  {
  }

  /** `_calculate_swell_period_score` (not rounded). */
  function SwellPeriodScore(m: Maths, period: real, surfLevel: Option<string>): real
  {
    var ideal := IdealPeriod(surfLevel) as real;
    Gaussian(m, period - ideal, ideal) * 100.0
  }

  /** The period score is 100 at the level's ideal period, lies in (0, 100]
      and falls away from the ideal on either side. */
  lemma SwellPeriodShape(m: Maths, surfLevel: Option<string>, x: real, y: real)
    requires Lawful(m)
    ensures var ideal := IdealPeriod(surfLevel) as real;
      && SwellPeriodScore(m, ideal, surfLevel) == 100.0
      && 0.0 < SwellPeriodScore(m, ideal + x, surfLevel) <= 100.0
      && SwellPeriodScore(m, ideal + x, surfLevel) == SwellPeriodScore(m, ideal - x, surfLevel)
      && (Abs(x) <= Abs(y) ==>
            SwellPeriodScore(m, ideal + y, surfLevel) <= SwellPeriodScore(m, ideal + x, surfLevel))
  {
    var ideal := IdealPeriod(surfLevel) as real;
    assert 0.0 < ideal;
    assert (ideal + x) - ideal == x && (ideal - x) - ideal == -x && (ideal + y) - ideal == y;
    assert ideal - ideal == 0.0;
    assert SwellPeriodScore(m, ideal, surfLevel) == Gaussian(m, 0.0, ideal) * 100.0;
    assert SwellPeriodScore(m, ideal + x, surfLevel) == Gaussian(m, x, ideal) * 100.0;
    assert SwellPeriodScore(m, ideal - x, surfLevel) == Gaussian(m, -x, ideal) * 100.0;
    assert SwellPeriodScore(m, ideal + y, surfLevel) == Gaussian(m, y, ideal) * 100.0;
    assert x * x == (-x) * (-x);
    GaussianShape(m, 0.0, x, ideal);
    if Abs(x) <= Abs(y) {
      GaussianShape(m, x, y, ideal);
    }
  }

  // ---------------------------------------------------------------------
  // Minimum circular distance over a list of ideal directions

  /** What the loop leaves in `min_diff`: starting from 360, each ideal
      direction d lowers it to min(min_diff, |x - d|, 360 - |x - d|). */
  function MinGap(direction: real, ideals: seq<real>): real
  {
    if |ideals| == 0 then 360.0
    else
      var diff := Abs(direction - ideals[|ideals| - 1]);
      Min(Min(MinGap(direction, ideals[..|ideals| - 1]), diff), 360.0 - diff)
  }

  /** MinGap is the smallest circular gap to any of the ideal directions
      (and 360 for none). */
  lemma {:induction false} MinGapIsMinimum(direction: real, ideals: seq<real>)
    ensures |ideals| == 0 ==> MinGap(direction, ideals) == 360.0
    ensures forall i :: 0 <= i < |ideals| ==> MinGap(direction, ideals) <= AngleGap(direction, ideals[i])
    ensures |ideals| > 0 ==>
              exists i :: 0 <= i < |ideals| && MinGap(direction, ideals) == AngleGap(direction, ideals[i])
  {
    if |ideals| > 0 {
      var n := |ideals| - 1;
      var prefix := ideals[..n];
      MinGapIsMinimum(direction, prefix);
      forall i | 0 <= i < |ideals|
        ensures MinGap(direction, ideals) <= AngleGap(direction, ideals[i])
      {
        if i < n {
          assert ideals[i] == prefix[i];
        }
      }
      if MinGap(direction, ideals) != AngleGap(direction, ideals[n]) {
        assert n > 0;
        var j :| 0 <= j < n && MinGap(direction, prefix) == AngleGap(direction, prefix[j]);
        assert ideals[j] == prefix[j];
      }
    }
  }

  /** Every value is a bearing in [0, 360]. */
  predicate Bearings(s: seq<real>)
  {
    forall i :: 0 <= i < |s| ==> 0.0 <= s[i] <= 360.0
  }

  /** For bearings the smallest gap lies in [0, 180]. */
  lemma MinGapBounds(direction: real, ideals: seq<real>)
    requires 0.0 <= direction <= 360.0 && Bearings(ideals) && |ideals| > 0
    ensures 0.0 <= MinGap(direction, ideals) <= 180.0
  {
    MinGapIsMinimum(direction, ideals);
    var i :| 0 <= i < |ideals| && MinGap(direction, ideals) == AngleGap(direction, ideals[i]);
  }

  /** A Gaussian of width 45 degrees (45 ** 2 = 2025) on the smallest gap,
      or the neutral 50 with no ideal direction. */
  function DirectionScoreOver(m: Maths, direction: real, ideals: seq<real>): real
  {
    if |ideals| == 0 then 50.0
    else Gaussian(m, MinGap(direction, ideals), 2025.0) * 100.0
  }

  /** `_calculate_swell_direction_score`: the loop over the ideal list. */
  method SwellDirectionScore(m: Maths, direction: real, ideals: seq<real>) returns (score: real)
    ensures score == DirectionScoreOver(m, direction, ideals)
  {
    if |ideals| == 0 {
      return 50.0;
    }
    var minDiff := 360.0;
    var i := 0;
    while i < |ideals|
      invariant 0 <= i <= |ideals|
      invariant minDiff == MinGap(direction, ideals[..i])
    {
      var diff := Abs(direction - ideals[i]);
      assert ideals[..i + 1][..i] == ideals[..i];
      minDiff := Min(Min(minDiff, diff), 360.0 - diff);
      i := i + 1;
    }
    assert ideals[..i] == ideals;
    score := Gaussian(m, minDiff, 2025.0) * 100.0;
  }

  /** The direction score is 100 when the swell comes from one of the
      ideal directions, 50 with none, and otherwise in (0, 100]; adding an
      ideal direction never lowers it. */
  lemma DirectionScoreOverShape(m: Maths, direction: real, ideals: seq<real>, extra: real)
    requires Lawful(m) && 0.0 <= direction <= 360.0 && Bearings(ideals) && 0.0 <= extra <= 360.0
    ensures |ideals| == 0 ==> DirectionScoreOver(m, direction, ideals) == 50.0
    ensures direction in ideals ==> DirectionScoreOver(m, direction, ideals) == 100.0
    ensures |ideals| > 0 ==> 0.0 < DirectionScoreOver(m, direction, ideals) <= 100.0
    ensures |ideals| > 0 ==>
              DirectionScoreOver(m, direction, ideals) <= DirectionScoreOver(m, direction, ideals + [extra])
  {
    if |ideals| > 0 {
      MinGapIsMinimum(direction, ideals);
      MinGapBounds(direction, ideals);
      var g := MinGap(direction, ideals);
      GaussianShape(m, 0.0, g, 2025.0);
      if direction in ideals {
        var i :| 0 <= i < |ideals| && ideals[i] == direction;
        assert AngleGap(direction, ideals[i]) == 0.0;
      }
      var longer := ideals + [extra];
      assert longer[..|longer| - 1] == ideals;
      var g' := MinGap(direction, longer);
      MinGapBounds(direction, longer);
      assert 0.0 <= g' <= g;
      GaussianShape(m, g', g, 2025.0);
    }
  }

  // ---------------------------------------------------------------------
  // Wave, wind and tide

  /** `spot.get(key, [])` used only through its truthiness: None and a
      missing key both behave as an empty list. */
  function ListOrEmpty<T>(s: Slot<seq<T>>): seq<T>
  {
    if s.Present? then s.value else []
  }

  /** `_calculate_wave_score`: 0 when the size score is negative, else the
      0.70 / 0.15 / 0.15 blend of size, period and direction, clipped to
      [0, 100] and rounded. */
  function WaveScoreOf(m: Maths, f: Forecast, p: Preferences, spot: Spot, profile: Profile)
    : Result<real>
  {
    var height :- FloatOr(f.swellHeight, 0.0);
    var period :- FloatOr(f.swellPeriod, 0.0);
    var direction :- FloatOr(f.swellDirection, 0.0);
    var ideal :- FloatOr(p.idealSwellHeight, 1.5);
    var maximum :- FloatOr(p.maxSwellHeight, 2.5);
    var size :- SwellSizeScore(height, ideal, maximum);
    if size < 0.0 then Ok(0.0)
    else
      var level := GetOr(profile.surfLevel, "intermediario");
      var base := size * 0.70 + SwellPeriodScore(m, period, level) * 0.15
                  + DirectionScoreOver(m, direction, ListOrEmpty(spot.idealSwellDirection)) * 0.15;
      Ok(m.round2(Clip(base, 0.0, 100.0)))
  }

  /** The wave score lies in [0, 100], and is 0 whenever the swell is above
      the maximum height. */
  lemma WaveScoreRange(m: Maths, f: Forecast, p: Preferences, spot: Spot, profile: Profile)
    requires Lawful(m) && WaveScoreOf(m, f, p, spot, profile).Ok?
    ensures 0.0 <= WaveScoreOf(m, f, p, spot, profile).value <= 100.0
    ensures f.swellHeight.Present? && p.maxSwellHeight.Present?
            && f.swellHeight.value > p.maxSwellHeight.value ==>
              WaveScoreOf(m, f, p, spot, profile).value == 0.0
  {
    assert IsHundredth(0.0) && IsHundredth(100.0);
    var height := FloatOr(f.swellHeight, 0.0).value;
    var ideal := FloatOr(p.idealSwellHeight, 1.5).value;
    var maximum := FloatOr(p.maxSwellHeight, 2.5).value;
    var size := SwellSizeScore(height, ideal, maximum).value;
    if size >= 0.0 {
      var period := FloatOr(f.swellPeriod, 0.0).value;
      var direction := FloatOr(f.swellDirection, 0.0).value;
      var level := GetOr(profile.surfLevel, "intermediario");
      var base := size * 0.70 + SwellPeriodScore(m, period, level) * 0.15
                  + DirectionScoreOver(m, direction, ListOrEmpty(spot.idealSwellDirection)) * 0.15;
      RoundWithin(m, Clip(base, 0.0, 100.0), 0.0, 100.0);
    }
  }

  /** `[float(d) for d in spot.get(key, [])]`: iterating over None raises
      TypeError. */
  function DirectionList(s: Slot<seq<real>>): Result<seq<real>>
  {
    match s
    case Absent => Ok([])
    case Null => Err(TypeError)
    case Present(v) => Ok(v)
  }

  /** The wind rule once the inputs are read: 0 above max (checked first),
      75 with no ideal direction, else 100 (1 - s / max) within 45 degrees
      of an ideal direction and 75 (1 - s / max) otherwise. */
  function WindRule(speed: real, direction: real, maxWind: real, ideals: seq<real>): Result<real>
  {
    if speed > maxWind then Ok(0.0)
    else if |ideals| == 0 then Ok(75.0)
    else if maxWind == 0.0 then Err(ZeroDivision)
    else if MinGap(direction, ideals) <= 45.0 then Ok(100.0 * (1.0 - speed / maxWind))
    else Ok(75.0 * (1.0 - speed / maxWind))
  }

  /** `_calculate_wind_score` as a value. */
  function WindScoreOf(f: Forecast, p: Preferences, spot: Spot): Result<real>
  {
    var speed :- FloatOr(f.windSpeed, 0.0);
    var direction :- FloatOr(f.windDirection, 0.0);
    var maxWind :- FloatOr(p.maxWindSpeed, 8.0);
    var ideals :- DirectionList(spot.idealWindDirection);
    WindRule(speed, direction, maxWind, ideals)
  }

  /** `_calculate_wind_score`: the reads, the early returns and the loop
      over the ideal wind directions. */
  method CalculateWindScore(f: Forecast, p: Preferences, spot: Spot) returns (r: Result<real>)
    ensures r == WindScoreOf(f, p, spot)
  {
    var speed :- FloatOr(f.windSpeed, 0.0);
    var direction :- FloatOr(f.windDirection, 0.0);
    var maxWind :- FloatOr(p.maxWindSpeed, 8.0);
    var ideals :- DirectionList(spot.idealWindDirection);
    if speed > maxWind {
      return Ok(0.0);
    }
    if |ideals| == 0 {
      return Ok(75.0);
    }
    var minDiff := 360.0;
    var i := 0;
    while i < |ideals|
      invariant 0 <= i <= |ideals|
      invariant minDiff == MinGap(direction, ideals[..i])
    {
      var diff := Abs(direction - ideals[i]);
      assert ideals[..i + 1][..i] == ideals[..i];
      minDiff := Min(Min(minDiff, diff), 360.0 - diff);
      i := i + 1;
    }
    assert ideals[..i] == ideals;
    if maxWind == 0.0 {
      return Err(ZeroDivision);
    }
    if minDiff <= 45.0 {
      r := Ok(100.0 * (1.0 - speed / maxWind));
    } else {
      r := Ok(75.0 * (1.0 - speed / maxWind));
    }
  }

  /** For 0 <= speed <= max (max > 0) the wind score lies in [0, 100],
      an offshore wind (within 45 degrees of an ideal direction) scores at
      least as much as any other, and a calm offshore wind scores 100. */
  lemma WindRuleRange(speed: real, direction: real, maxWind: real, ideals: seq<real>)
    requires 0.0 <= speed <= maxWind && 0.0 < maxWind
    ensures WindRule(speed, direction, maxWind, ideals).Ok?
    ensures 0.0 <= WindRule(speed, direction, maxWind, ideals).value <= 100.0
    ensures |ideals| > 0 && MinGap(direction, ideals) > 45.0 ==>
              WindRule(speed, direction, maxWind, ideals).value <= 75.0
    ensures |ideals| > 0 && MinGap(direction, ideals) <= 45.0 && speed == 0.0 ==>
              WindRule(speed, direction, maxWind, ideals).value == 100.0
  {
    var t := speed / maxWind;
    assert t * maxWind == speed;
    assert 0.0 <= t <= 1.0;
  }

  /** Whatever the maximum, the direction and the ideal directions, a
      wind above the maximum scores 0 before anything else is looked at,
      and a wind within the maximum with no ideal direction scores 75. */
  lemma WindRuleOrder(speed: real, direction: real, maxWind: real, ideals: seq<real>)
    ensures speed > maxWind ==> WindRule(speed, direction, maxWind, ideals) == Ok(0.0)
    ensures speed <= maxWind && |ideals| == 0 ==> WindRule(speed, direction, maxWind, ideals) == Ok(75.0)
  {
  }

  /** The wind score fails exactly when a read key holds None (TypeError)
      or, past those reads, when a wind no stronger than a zero maximum
      meets a non-empty list of ideal directions (ZeroDivisionError). */
  lemma WindScoreFails(f: Forecast, p: Preferences, spot: Spot)
    ensures WindScoreOf(f, p, spot) == Err(TypeError) <==>
              f.windSpeed.Null? || f.windDirection.Null? || p.maxWindSpeed.Null?
              || spot.idealWindDirection.Null?
    ensures WindScoreOf(f, p, spot) == Err(ZeroDivision) <==>
              && !(f.windSpeed.Null? || f.windDirection.Null? || p.maxWindSpeed.Null?
                   || spot.idealWindDirection.Null?)
              && GetOr(p.maxWindSpeed, 8.0) == Some(0.0)
              && FloatOr(f.windSpeed, 0.0).value <= 0.0
              && |ListOrEmpty(spot.idealWindDirection)| > 0
  {
  }

  /** `_calculate_tide_score`: a bell of width 0.5 on the sea level, times
      0.8 when a list of ideal flows is given and the tide type is not in
      it, rounded (not clipped). */
  function TideScoreOf(m: Maths, f: Forecast, spot: Spot): Result<real>
  {
    var seaLevel :- FloatOr(f.seaLevel, 0.0);
    var tideType := GetOr(f.tideType, "");
    var idealLevel :- FloatOr(spot.idealSeaLevel, 0.5);
    var flows := ListOrEmpty(spot.idealTideFlow);
    var height := Gaussian(m, seaLevel - idealLevel, 0.5) * 100.0;
    var penalised := |flows| > 0 && (tideType.None? || tideType.value !in flows);
    Ok(m.round2(if penalised then height * 0.8 else height))
  }

  /** The flow penalty applies only with a non-empty ideal-flow list and a
      tide type outside it; the tide score lies in [0, 100] and is 100 at
      the ideal sea level with an accepted flow. */
  lemma TideScoreRules(m: Maths, f: Forecast, spot: Spot)
    requires Lawful(m) && TideScoreOf(m, f, spot).Ok?
    ensures 0.0 <= TideScoreOf(m, f, spot).value <= 100.0
    ensures var flows := ListOrEmpty(spot.idealTideFlow);
      var tideType := GetOr(f.tideType, "");
      (|flows| == 0 || (tideType.Some? && tideType.value in flows)) ==>
        TideScoreOf(m, f, spot).value
        == Percent(m, Gaussian(m, FloatOr(f.seaLevel, 0.0).value - FloatOr(spot.idealSeaLevel, 0.5).value, 0.5))
    ensures var flows := ListOrEmpty(spot.idealTideFlow);
      var tideType := GetOr(f.tideType, "");
      (|flows| > 0 && (tideType.None? || tideType.value !in flows)) ==>
        TideScoreOf(m, f, spot).value
        == Percent(m, 0.8 * Gaussian(m, FloatOr(f.seaLevel, 0.0).value - FloatOr(spot.idealSeaLevel, 0.5).value, 0.5))
  {
    var d := FloatOr(f.seaLevel, 0.0).value - FloatOr(spot.idealSeaLevel, 0.5).value;
    var g := Gaussian(m, d, 0.5);
    GaussianShape(m, d, d, 0.5);
    assert g * 100.0 * 0.8 == (0.8 * g) * 100.0;
    PercentShape(m, 0.8 * g, g);
    PercentShape(m, g, 1.0);
  }

  // ---------------------------------------------------------------------
  // Temperatures

  /** `_calculate_air_temperature_score`: exp(-0.04 d^2) * 100, rounded. */
  function AirTemperatureScoreOf(m: Maths, f: Forecast, p: Preferences): Result<real>
  {
    var air :- FloatOr(f.airTemperature, 25.0);
    var ideal :- FloatOr(p.idealAirTemperature, 25.0);
    var d := air - ideal;
    Ok(Percent(m, m.exp(-0.04 * (d * d))))
  }

  /** `_calculate_water_temperature_score`: exp(-0.08 d^2) * 100, rounded. */
  function WaterTemperatureScoreOf(m: Maths, f: Forecast, p: Preferences): Result<real>
  {
    var water :- FloatOr(f.waterTemperature, 22.0);
    var ideal :- FloatOr(p.idealWaterTemperature, 22.0);
    var d := water - ideal;
    Ok(Percent(m, m.exp(-0.08 * (d * d))))
  }

  lemma DecayBelowOne(m: Maths, rate: real, d: real)
    requires Lawful(m) && 0.0 < rate
    ensures 0.0 <= Percent(m, m.exp(-rate * (d * d))) <= 100.0
    ensures d == 0.0 ==> Percent(m, m.exp(-rate * (d * d))) == 100.0
  {
    SquareMonotone(0.0, d);
    MulMonotone(rate, 0.0, d * d);
    PercentShape(m, m.exp(-rate * (d * d)), 1.0);
  }

  /** The air score lies in [0, 100], and is 100 with nothing recorded
      (the defaults 25 and 25). */
  lemma AirTemperatureRange(m: Maths, f: Forecast, p: Preferences)
    requires Lawful(m) && AirTemperatureScoreOf(m, f, p).Ok?
    ensures 0.0 <= AirTemperatureScoreOf(m, f, p).value <= 100.0
    ensures f.airTemperature.Absent? && p.idealAirTemperature.Absent? ==>
              AirTemperatureScoreOf(m, f, p).value == 100.0
  {
    var d := FloatOr(f.airTemperature, 25.0).value - FloatOr(p.idealAirTemperature, 25.0).value;
    DecayBelowOne(m, 0.04, d);
  }

  /** The water score lies in [0, 100], and is 100 with nothing recorded
      (the defaults 22 and 22). */
  lemma WaterTemperatureRange(m: Maths, f: Forecast, p: Preferences)
    requires Lawful(m) && WaterTemperatureScoreOf(m, f, p).Ok?
    ensures 0.0 <= WaterTemperatureScoreOf(m, f, p).value <= 100.0
    ensures f.waterTemperature.Absent? && p.idealWaterTemperature.Absent? ==>
              WaterTemperatureScoreOf(m, f, p).value == 100.0
  {
    var d := FloatOr(f.waterTemperature, 22.0).value - FloatOr(p.idealWaterTemperature, 22.0).value;
    DecayBelowOne(m, 0.08, d);
  }

  // ---------------------------------------------------------------------
  // Overall

  datatype Scores = Scores(overall: real, detailed: map<string, real>)

  /** The overall blend: wave 0.50, wind 0.33, tide 0.15, air 0.01 and
      water 0.01, rounded but not clamped. */
  function Blend(m: Maths, wave: real, wind: real, tide: real, air: real, water: real): real
  {
    m.round2(wave * 0.50 + wind * 0.33 + tide * 0.15 + air * 0.01 + water * 0.01)
  }

  /** `calculate_overall_score`: the five factors in source order (the
      first failure is the one raised), blended. */
  function OverallScore(m: Maths, f: Forecast, p: Preferences, spot: Spot, profile: Profile)
    : Result<Scores>
  {
    var wave :- WaveScoreOf(m, f, p, spot, profile);
    var wind :- WindScoreOf(f, p, spot);
    var tide :- TideScoreOf(m, f, spot);
    var water :- WaterTemperatureScoreOf(m, f, p);
    var air :- AirTemperatureScoreOf(m, f, p);
    Ok(Scores(Blend(m, wave, wind, tide, air, water),
              map["wave_score" := wave, "wind_score" := wind, "tide_score" := tide,
                  "air_temperature_score" := air, "water_temperature_score" := water]))
  }

  /** The weights sum to 1, so five equal factor scores (with two decimals)
      blend to that score. */
  lemma BlendWeights(m: Maths, v: real)
    requires Lawful(m) && IsHundredth(v)
    ensures Blend(m, v, v, v, v, v) == v
  {
    assert v * 0.50 + v * 0.33 + v * 0.15 + v * 0.01 + v * 0.01 == v;
  }

  /** The overall score is not clamped, yet it lies in [0, 100] whenever the
      wind speed is within [0, max]: every factor then does. */
  lemma OverallScoreRange(m: Maths, f: Forecast, p: Preferences, spot: Spot, profile: Profile)
    requires Lawful(m) && OverallScore(m, f, p, spot, profile).Ok?
    requires 0.0 <= FloatOr(f.windSpeed, 0.0).value
    ensures 0.0 <= OverallScore(m, f, p, spot, profile).value.overall <= 100.0
    ensures OverallScore(m, f, p, spot, profile).value.detailed.Keys
            == {"wave_score", "wind_score", "tide_score", "air_temperature_score",
                "water_temperature_score"}
  {
    var wave := WaveScoreOf(m, f, p, spot, profile).value;
    var wind := WindScoreOf(f, p, spot).value;
    var tide := TideScoreOf(m, f, spot).value;
    var water := WaterTemperatureScoreOf(m, f, p).value;
    var air := AirTemperatureScoreOf(m, f, p).value;
    WaveScoreRange(m, f, p, spot, profile);
    TideScoreRules(m, f, spot);
    AirTemperatureRange(m, f, p);
    WaterTemperatureRange(m, f, p);
    var speed := FloatOr(f.windSpeed, 0.0).value;
    var maxWind := FloatOr(p.maxWindSpeed, 8.0).value;
    var ideals := DirectionList(spot.idealWindDirection).value;
    if speed <= maxWind && |ideals| > 0 {
      WindRuleRange(speed, FloatOr(f.windDirection, 0.0).value, maxWind, ideals);
    }
    assert 0.0 <= wind <= 100.0;
    var sum := wave * 0.50 + wind * 0.33 + tide * 0.15 + air * 0.01 + water * 0.01;
    assert 0.0 <= sum <= 100.0;
    assert IsHundredth(0.0) && IsHundredth(100.0);
    RoundWithin(m, sum, 0.0, 100.0);
  }

  /** Without the clamp, a negative wind speed (which the rules do not
      exclude) lifts the wind score above 100. */
  lemma WindAboveHundred(direction: real, ideals: seq<real>)
    requires |ideals| > 0 && MinGap(direction, ideals) <= 45.0
    ensures WindRule(-8.0, direction, 8.0, ideals) == Ok(200.0)
  {
  }
}
