/** The legacy overall score (src/recommendation/recommendation_logic.py):
    each factor is scored when its forecast inputs are present and left at
    0 otherwise, then the six factor scores are blended by fixed weights,
    clamped to [0, 100] and rounded. */
module Suitability {
  import opened Common
  import opened RealMath
  import opened Records
  import WaveScore
  import WindScore
  import TideScore
  import TemperatureScore
  import CurrentScore

  const WaveKey: string := "wave_score"
  const WindKey: string := "wind_score"
  const TideKey: string := "tide_score"
  const WaterKey: string := "water_temperature_score"
  const AirKey: string := "air_temperature_score"
  const CurrentKey: string := "current_score"

  /** The values `float(d.get(key, default))` reads before any factor is
      scored: the secondary swell and every preference with its default. */
  datatype Settings = Settings(
    secondaryHeight: real, secondaryDirection: real, secondaryPeriod: real,
    minWaveHeight: real, idealWaveHeight: real, maxWaveHeight: real,
    idealWaveDirection: real, idealWavePeriod: real,
    idealWindDirection: real, idealWindSpeed: real, maxWindSpeed: real,
    idealTideHeight: real, idealWaterTemperature: real, idealAirTemperature: real,
    idealCurrentSpeed: real)

  /** The six factor scores. */
  datatype Factors = Factors(wave: real, wind: real, tide: real, current: real,
                             water: real, air: real)

  /** What `calculate_suitability_score` returns. */
  datatype Suitability = Suitability(overall: real, detailed: map<string, real>)

  /** Every `float(d.get(key, default))` read of the function.  Each one
      raises TypeError when its key holds None, and the scoring between
      them has no effects, so the reads fail together, with TypeError,
      exactly when one key read holds None. */
  function ReadSettings(f: Forecast, p: Preferences): Result<Settings>
  {
    if SomeReadIsNull(f, p) then Err(TypeError)
    else
      var slots := Reads(f, p);
      assert !slots[0].Null? && !slots[1].Null? && !slots[2].Null? && !slots[3].Null?;
      assert !slots[4].Null? && !slots[5].Null? && !slots[6].Null? && !slots[7].Null?;
      assert !slots[8].Null? && !slots[9].Null? && !slots[10].Null? && !slots[11].Null?;
      assert !slots[12].Null? && !slots[13].Null? && !slots[14].Null?;
      Ok(Settings(
        Read(f.secondarySwellHeight, 0.0), Read(f.secondarySwellDirection, 0.0),
        Read(f.secondarySwellPeriod, 0.0),
        Read(p.minWaveHeight, 0.5), Read(p.idealWaveHeight, 1.5), Read(p.maxWaveHeight, 2.5),
        Read(p.idealWaveDirection, 180.0), Read(p.idealWavePeriod, 10.0),
        Read(p.idealWindDirection, 0.0), Read(p.idealWindSpeed, 5.0), Read(p.maxWindSpeed, 20.0),
        Read(p.idealTideHeight, 0.0), Read(p.idealWaterTemperature, 22.0),
        Read(p.idealAirTemperature, 25.0), Read(p.idealCurrentSpeed, 0.0)))
  }

  /** One read that does not fail: the value, or the default when the key
      is missing. */
  function Read(s: Slot<real>, default: real): (v: real)
    requires !s.Null?
    ensures FloatOr(s, default) == Ok(v)
  {
    if s.Present? then s.value else default
  }

  /** The keys read, in the order the function reads them. */
  function Reads(f: Forecast, p: Preferences): seq<Slot<real>>
  {
    [f.secondarySwellHeight, f.secondarySwellDirection, f.secondarySwellPeriod,
     p.minWaveHeight, p.idealWaveHeight, p.maxWaveHeight,
     p.idealWaveDirection, p.idealWavePeriod,
     p.idealWindDirection, p.idealWindSpeed, p.maxWindSpeed,
     p.idealTideHeight, p.idealWaterTemperature,
     p.idealAirTemperature, p.idealCurrentSpeed]
  }

  /** A read fails exactly when one of the keys read holds None. */
  predicate SomeReadIsNull(f: Forecast, p: Preferences)
  {
    exists i :: 0 <= i < |Reads(f, p)| && Reads(f, p)[i].Null?
  }

  function WaveFactor(m: Maths, f: Forecast, s: Settings): real
  {
    if f.waveHeight.Present? && f.waveDirection.Present? && f.wavePeriod.Present? then
      WaveScore.WaveScore(m, f.waveHeight.value, f.waveDirection.value, f.wavePeriod.value,
                          s.minWaveHeight, s.idealWaveHeight, s.maxWaveHeight,
                          s.idealWaveDirection, s.idealWavePeriod,
                          s.secondaryHeight, s.secondaryDirection, s.secondaryPeriod)
    else 0.0
  }

  function WindFactor(m: Maths, f: Forecast, s: Settings): real
  {
    if f.windSpeed.Present? && f.windDirection.Present? then
      WindScore.WindScoreOf(m, f.windSpeed.value, f.windDirection.value,
                            s.idealWindDirection, s.idealWindSpeed, s.maxWindSpeed)
    else 0.0
  }

  function TideFactor(m: Maths, f: Forecast, p: Preferences, s: Settings,
                      tidePhase: Option<string>): real
  {
    if f.seaLevel.Present? && tidePhase.Some? && p.idealTideType.Present? then
      TideScore.TideScore(m, f.seaLevel.value, s.idealTideHeight, tidePhase.value,
                          p.idealTideType.value)
    else 0.0
  }

  function FactorsOf(m: Maths, f: Forecast, p: Preferences, s: Settings,
                     tidePhase: Option<string>): Factors
  {
    Factors(
      WaveFactor(m, f, s),
      WindFactor(m, f, s),
      TideFactor(m, f, p, s, tidePhase),
      if f.currentSpeed.Present? then
        CurrentScore.CurrentScore(m, f.currentSpeed.value, s.idealCurrentSpeed)
      else 0.0,
      if f.waterTemperature.Present? then
        TemperatureScore.WaterTemperatureScore(m, f.waterTemperature.value, s.idealWaterTemperature)
      else 0.0,
      if f.airTemperature.Present? then
        TemperatureScore.AirTemperatureScore(m, f.airTemperature.value, s.idealAirTemperature)
      else 0.0)
  }

  /** The weights: wave 0.50, wind 0.25, tide 0.15, current 0.05,
      water 0.03, air 0.02. */
  function WeightedSum(x: Factors): real
  {
    x.wave * 0.50 + x.wind * 0.25 + x.tide * 0.15 + x.current * 0.05
      + x.water * 0.03 + x.air * 0.02
  }

  /** The six keys of `detailed`. */
  const DetailKeys: set<string> := {WaveKey, WindKey, TideKey, WaterKey, AirKey, CurrentKey}

  /** The `detailed` dictionary. */
  function Detailed(x: Factors): map<string, real>
  {
    map[WaveKey := x.wave, WindKey := x.wind, TideKey := x.tide,
        WaterKey := x.water, AirKey := x.air, CurrentKey := x.current]
  }

  /** The dictionary has the six keys, each holding its factor.  (Kept out
      of `Detailed`'s own contract: facts about these string keys are
      costly to carry into every context that scores an hour.) */
  lemma DetailedLookup(x: Factors)
    ensures Detailed(x).Keys == DetailKeys
    ensures Detailed(x)[WaveKey] == x.wave && Detailed(x)[WindKey] == x.wind
    ensures Detailed(x)[TideKey] == x.tide && Detailed(x)[WaterKey] == x.water
    ensures Detailed(x)[AirKey] == x.air && Detailed(x)[CurrentKey] == x.current
  {
  }

  /** The whole result of `calculate_suitability_score`. */
  function SuitabilityOf(m: Maths, f: Forecast, p: Preferences, tidePhase: Option<string>)
    : (r: Result<Suitability>)
  {
    var s :- ReadSettings(f, p);
    var x := FactorsOf(m, f, p, s, tidePhase);
    Ok(Suitability(m.round2(Clip(WeightedSum(x), 0.0, 100.0)), Detailed(x)))
  }

  /** The six factor computations of `calculate_suitability_score`: each
      factor variable starts at 0 and is overwritten when its inputs are
      present. */
  method ScoreFactors(m: Maths, f: Forecast, p: Preferences, s: Settings,
                      tidePhase: Option<string>)
    returns (x: Factors)
    ensures x == FactorsOf(m, f, p, s, tidePhase)
  {
    var wave := 0.0;
    if f.waveHeight.Present? && f.waveDirection.Present? && f.wavePeriod.Present? {
      wave := WaveScore.WaveScore(m, f.waveHeight.value, f.waveDirection.value,
                                  f.wavePeriod.value, s.minWaveHeight, s.idealWaveHeight,
                                  s.maxWaveHeight, s.idealWaveDirection, s.idealWavePeriod,
                                  s.secondaryHeight, s.secondaryDirection, s.secondaryPeriod);
    }
    var wind := 0.0;
    if f.windSpeed.Present? && f.windDirection.Present? {
      wind := WindScore.WindScore(m, f.windSpeed.value, f.windDirection.value,
                                  s.idealWindDirection, s.idealWindSpeed, s.maxWindSpeed);
    }
    var tide := 0.0;
    if f.seaLevel.Present? && tidePhase.Some? && p.idealTideType.Present? {
      tide := TideScore.TideScore(m, f.seaLevel.value, s.idealTideHeight, tidePhase.value,
                                  p.idealTideType.value);
    }
    var water := 0.0;
    if f.waterTemperature.Present? {
      water := TemperatureScore.WaterTemperatureScore(m, f.waterTemperature.value,
                                                      s.idealWaterTemperature);
    }
    var air := 0.0;
    if f.airTemperature.Present? {
      air := TemperatureScore.AirTemperatureScore(m, f.airTemperature.value,
                                                  s.idealAirTemperature);
    }
    var current := 0.0;
    if f.currentSpeed.Present? {
      current := CurrentScore.CurrentScore(m, f.currentSpeed.value, s.idealCurrentSpeed);
    }
    x := Factors(wave, wind, tide, current, water, air);
  }

  /** `calculate_suitability_score`, step by step: the settings are read,
      the factors computed, `detailed` filled one key at a time and the
      weighted sum clamped and rounded. */
  method CalculateSuitability(m: Maths, f: Forecast, p: Preferences, tidePhase: Option<string>)
    returns (r: Result<Suitability>)
    ensures r == SuitabilityOf(m, f, p, tidePhase)
  {
    var s :- ReadSettings(f, p);
    var x := ScoreFactors(m, f, p, s, tidePhase);
    var detailed: map<string, real> := map[];
    detailed := detailed[WaveKey := x.wave];
    detailed := detailed[WindKey := x.wind];
    detailed := detailed[TideKey := x.tide];
    detailed := detailed[WaterKey := x.water];
    detailed := detailed[AirKey := x.air];
    detailed := detailed[CurrentKey := x.current];

    var overall := x.wave * 0.50 + x.wind * 0.25 + x.tide * 0.15 + x.current * 0.05
                   + x.water * 0.03 + x.air * 0.02;
    overall := Clip(overall, 0.0, 100.0);
    overall := m.round2(overall);
    r := Ok(Suitability(overall, detailed));
  }

  // ---------------------------------------------------------------------
  // Properties

  /** The call fails (with TypeError) exactly when a key it converts with
      float() holds None. */
  lemma SuitabilityFails(m: Maths, f: Forecast, p: Preferences, tidePhase: Option<string>)
    ensures SuitabilityOf(m, f, p, tidePhase).Err? <==> SomeReadIsNull(f, p)
    ensures SuitabilityOf(m, f, p, tidePhase).Err? ==>
              SuitabilityOf(m, f, p, tidePhase).fault == TypeError
  {
  }

  /** A successful result has exactly the six detail keys, an overall
      score in [0, 100], and the overall score is the rounded, clamped
      weighted sum of the six details. */
  lemma SuitabilityShape(m: Maths, f: Forecast, p: Preferences, tidePhase: Option<string>)
    requires Lawful(m) && SuitabilityOf(m, f, p, tidePhase).Ok?
    ensures var r := SuitabilityOf(m, f, p, tidePhase).value;
      && r.detailed.Keys == DetailKeys
      && 0.0 <= r.overall <= 100.0
      && r.overall == m.round2(Clip(r.detailed[WaveKey] * 0.50 + r.detailed[WindKey] * 0.25
                                    + r.detailed[TideKey] * 0.15
                                    + r.detailed[CurrentKey] * 0.05
                                    + r.detailed[WaterKey] * 0.03
                                    + r.detailed[AirKey] * 0.02, 0.0, 100.0))
  {
    SuitabilityParts(m, f, p, tidePhase);
    var x := FactorsOf(m, f, p, ReadSettings(f, p).value, tidePhase);
    DetailedLookup(x);
    BlendShape(m, x);
  }

  /** The rounded, clamped blend stays in [0, 100]. */
  lemma BlendShape(m: Maths, x: Factors)
    requires Lawful(m)
    ensures 0.0 <= m.round2(Clip(WeightedSum(x), 0.0, 100.0)) <= 100.0
  {
    assert IsHundredth(0.0) && IsHundredth(100.0);
    RoundWithin(m, Clip(WeightedSum(x), 0.0, 100.0), 0.0, 100.0);
  }

  /** The weights sum to 1: six equal factor scores blend to that score. */
  lemma WeightsSumToOne(v: real)
    ensures WeightedSum(Factors(v, v, v, v, v, v)) == v
  {
  }

  /** No veto at this level: a negative wave score (the wave veto) is
      blended like any other, so the other factors still count. */
  lemma NegativeWaveStillBlended(x: Factors, y: Factors)
    requires x.wave < 0.0 && x.wave == y.wave && x.wind < y.wind
    requires x.tide <= y.tide && x.current <= y.current && x.water <= y.water && x.air <= y.air
    ensures WeightedSum(x) < WeightedSum(y)
  {
  }

  /** Missing forecast inputs leave their factor at 0: the wave factor
      unless height, direction and period are all present, the wind factor
      unless speed and direction are, the tide factor unless sea level,
      tide phase and ideal tide type are. */
  lemma MissingInputsScoreZero(m: Maths, f: Forecast, p: Preferences, tidePhase: Option<string>)
    requires SuitabilityOf(m, f, p, tidePhase).Ok?
    ensures var d := SuitabilityOf(m, f, p, tidePhase).value.detailed;
      && d.Keys == DetailKeys
      && (!f.waveHeight.Present? || !f.waveDirection.Present? || !f.wavePeriod.Present?
          ==> d[WaveKey] == 0.0)
      && (!f.windSpeed.Present? || !f.windDirection.Present? ==> d[WindKey] == 0.0)
      && (!f.seaLevel.Present? || tidePhase.None? || !p.idealTideType.Present?
          ==> d[TideKey] == 0.0)
      && (!f.waterTemperature.Present? ==> d[WaterKey] == 0.0)
      && (!f.airTemperature.Present? ==> d[AirKey] == 0.0)
      && (!f.currentSpeed.Present? ==> d[CurrentKey] == 0.0)
  {
    SuitabilityParts(m, f, p, tidePhase);
    var x := FactorsOf(m, f, p, ReadSettings(f, p).value, tidePhase);
    FactorsAbsent(m, f, p, ReadSettings(f, p).value, tidePhase);
    DetailedLookup(x);
  }

  /** A successful result is built from the settings read. */
  lemma SuitabilityParts(m: Maths, f: Forecast, p: Preferences, tidePhase: Option<string>)
    requires SuitabilityOf(m, f, p, tidePhase).Ok?
    ensures ReadSettings(f, p).Ok?
    ensures var x := FactorsOf(m, f, p, ReadSettings(f, p).value, tidePhase);
      SuitabilityOf(m, f, p, tidePhase).value
        == Suitability(m.round2(Clip(WeightedSum(x), 0.0, 100.0)), Detailed(x))
  {
    var s := ReadSettings(f, p);
    assert !s.IsFailure();
    var x := FactorsOf(m, f, p, s.value, tidePhase);
    assert SuitabilityOf(m, f, p, tidePhase) == Ok(Suitability(m.round2(Clip(WeightedSum(x), 0.0, 100.0)), Detailed(x)));
  }

  /** A factor whose inputs are missing is 0. */
  lemma FactorsAbsent(m: Maths, f: Forecast, p: Preferences, s: Settings, tidePhase: Option<string>)
    ensures var x := FactorsOf(m, f, p, s, tidePhase);
      && (!f.waveHeight.Present? || !f.waveDirection.Present? || !f.wavePeriod.Present?
          ==> x.wave == 0.0)
      && (!f.windSpeed.Present? || !f.windDirection.Present? ==> x.wind == 0.0)
      && (!f.seaLevel.Present? || tidePhase.None? || !p.idealTideType.Present? ==> x.tide == 0.0)
      && (!f.waterTemperature.Present? ==> x.water == 0.0)
      && (!f.airTemperature.Present? ==> x.air == 0.0)
      && (!f.currentSpeed.Present? ==> x.current == 0.0)
  {
  }

  /** Missing wave preferences default to min 0.5, ideal 1.5, max 2.5,
      direction 180 and period 10, and missing secondary swell values to 0. */
  lemma WaveDefaults(m: Maths, f: Forecast, p: Preferences, tidePhase: Option<string>)
    requires SuitabilityOf(m, f, p, tidePhase).Ok?
    requires f.waveHeight.Present? && f.waveDirection.Present? && f.wavePeriod.Present?
    requires p.minWaveHeight.Absent? && p.idealWaveHeight.Absent? && p.maxWaveHeight.Absent?
    requires p.idealWaveDirection.Absent? && p.idealWavePeriod.Absent?
    requires f.secondarySwellHeight.Absent? && f.secondarySwellDirection.Absent?
    requires f.secondarySwellPeriod.Absent?
    ensures SuitabilityOf(m, f, p, tidePhase).value.detailed[WaveKey]
            == WaveScore.WaveScore(m, f.waveHeight.value, f.waveDirection.value,
                                   f.wavePeriod.value, 0.5, 1.5, 2.5, 180.0, 10.0,
                                   0.0, 0.0, 0.0)
  {
  }
}
