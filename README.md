# Surf-suitability scoring and ranking, modelled in Dafny

thecheckAPI scores how surfable a spot is at a given hour and recommends
spots day by day. This project models that core and proves properties of
it. The core has two scoring implementations side by side, and the model
keeps them apart:

- **The legacy per-factor scorers** (`src/recommendation/`) and their blend
  `calculate_suitability_score`, served by `generate_recommendations_logic`
  in `src/api/routes/recommendation_routes.py`. Each factor has its own module:
  - `WaveScore`: the four-piece size curve, the direction and period bells,
    the secondary-swell impact and modifier, and the composite with its veto.
  - `WindScore`: offshore and onshore regimes, over-maximum penalties,
    the calm override, and the clip.
  - `TideScore`, `TemperatureScore` and `CurrentScore`.
  - `Suitability`: the six-factor blend with its defaults.
  - `RecommendationRoutes`: the user, model and level preference chain,
    time-string trimming, the inclusive UTC window, per-spot and per-day
    result shaping, and the numpy-to-Python conversion.
- **The newer scoring service** (`src/services/scoring_service.py`),
  modelled in `ScoringService`. It has piecewise-linear swell-size and wind
  rules, a per-level ideal-period table, and the minimum circular gap over a
  list of ideal directions. Its 0.50/0.33/0.15/0.01/0.01 blend is not clamped.
- **Daily recommendations** (`src/api/routes/recommendations.py`), split in two:
  - `DayOffsets`: weekday selections become day offsets.
  - `DailyRecommendations` and `Ranking`: the default-preference fallback, the
    filter on offset, window and score above 30, the best session per spot
    and date, and the stable descending sort.
- **Compass helpers** (`Compass`, from `src/utils/utils.py`) and the **SQL
  statement builders** (`Queries`, from `src/db/queries.py`).

Supporting modules:
- `Common`: Option and Result, the Python exceptions, and `Slot` (a
  dictionary key that is missing, holds None, or holds a value).
- `Records`: the forecast, preference, spot and profile rows.
- `RealMath`: real arithmetic with uninterpreted transcendentals.
- `Calendar`: UTC timestamps as microseconds.
- `Text`: `str.split`, `join` and `int` on strings.

Where the source changes state step by step, the model does too. The wind
and wave-size scorers fill a buffer by successive masked writes. The route
handlers and statement builders append in loops. Each such piece is a
method with loop invariants, proved equal to a specification function, and
the properties are lemmas about that function.

**Numerics.** Arithmetic is on `real`. `exp`, `sin`, `cos`, `x ** 1.5` and
`round(x, 2)` are uninterpreted: a `RealMath.Maths` value carries one choice
of them. `RealMath.Lawful` lists the only facts the proofs use:
- `exp` is positive, monotone, and `exp(0) = 1`;
- `sin` and `cos` lie in [-1, 1], take their textbook values at 0 and pi/2,
  and are non-negative on [0, pi/2];
- `x ** 1.5` maps [0, 1] into [0, 1] and fixes 0 and 1;
- rounding is monotone and fixes every number with at most two decimals.

`RealMath.LawfulExists` shows these facts are consistent. Python's float
`%`, `int()` truncation and `np.clip` are written out exactly.

**Inputs.** The database rows, the current date and the user id are
parameters: timestamps are microseconds since 1970-01-01 UTC and "today" is
a day number.

**Behaviours worth noting.** Each item is what the code does:
- The wave composite returns the size score itself when that score is
  negative (`src/recommendation/wave_score.py:219-220`), and the six-factor blend
  (`src/recommendation/recommendation_logic.py:181-190`) weighs a negative
  wave score like any other factor (`Suitability.NegativeWaveStillBlended`).
- The scoring service clips neither the wind score
  (`src/services/scoring_service.py:89-91`) nor the overall score
  (`src/services/scoring_service.py:142-151`), so a score can leave
  [0, 100] (`ScoringService.WindAboveHundred`).
- The best session per spot replaces an earlier one only on a strictly
  higher score (`src/api/routes/recommendations.py:103`), and the ranking
  is Python's stable `sorted(..., reverse=True)`
  (`src/api/routes/recommendations.py:116`); equal scores keep the order of
  the entries (`Ranking.TallyKeepsEarliest`, `Ranking.RankDescStable`).
- An hourly entry is kept only when its overall score is strictly above 30
  (`src/api/routes/recommendations.py:88`).
- The tide score reads the phase from the forecast's `tide_type` key
  (`src/services/scoring_service.py:100`).
- A key that holds None, where the code calls `float(...)` on it without a
  None check, raises a type error (`src/recommendation/recommendation_logic.py:42-50`,
  `src/services/scoring_service.py:70-94`; `Suitability.SuitabilityFails`,
  `ScoringService.WindScoreFails`). A spot with no preferences at any tier
  gets an error entry (`src/api/routes/recommendation_routes.py:76-80`;
  `RecommendationRoutes.SpotEntriesShape`).
- The daily route builds each entry's name with `spot_details['name']`
  (`src/api/routes/recommendations.py:91`), while the rows of
  `get_spot_by_id` carry a `spot_name` column and no `name` key
  (`src/db/queries.py:158-166`). An entry for such a row raises a key error
  (`DailyRecommendations.NamelessSpotRaises`), so those rows never reach the
  answer (`DailyRecommendations.NamelessRowsNeverRecommend`).

## Model

| member | source | states |
|---|---|---|
| RealMath.Clip | src/recommendation/wave_score.py:255 | `np.clip` lands in [lo, hi], leaves values inside unchanged and sends values outside to the nearer bound |
| RealMath.PyMod | src/recommendation/wave_score.py:83 | Python's float `%` by a positive divisor lands in [0, d) |
| RealMath.Trunc | src/utils/utils.py:97 | `int()` of a float truncates toward zero: the largest integer not above a non-negative x, the smallest not below a negative one |
| RealMath.AngleGapSymmetric | src/recommendation/wind_score.py:18-19 | the smaller-angle gap does not depend on the order of the two bearings and lies in [0, 180] for bearings in [0, 360) |
| RealMath.GaussianShape | src/services/scoring_service.py:29 | `exp(-d ** 2 / w)` with w > 0 is 1 at d = 0, in (0, 1], and never larger for a larger distance |
| RealMath.PercentShape | src/services/scoring_service.py:105-111 | rounding a fraction in [0, 1] times 100 is monotone and lands in [0, 100], 0 and 1 mapping to 0 and 100 |
| RealMath.RoundWithin | src/recommendation/recommendation_logic.py:194 | rounding to two decimals keeps a value between two bounds that have at most two decimals |
| TideScore.TideWidth | src/recommendation/tide_score.py:32-35 | the bell's width is the ideal height when that is positive and the fixed 0.1 otherwise, so it is never 0 |
| TideScore.TideScore | src/recommendation/tide_score.py:3-55 | `calcular_score_mare` for one value: a bell exp(-d^2 / w) on d = height - ideal, of width w the ideal height (0.1 when the ideal is not positive), times 0.8 when a specific flow (not "qualquer") is wanted and the forecast's differs, clipped to [0, 1] and given as a percentage rounded to two decimals; its properties are the lemmas below |
| TideScore.TideScoreRange | src/recommendation/tide_score.py:49-53 | the tide score lies in [0, 100] |
| TideScore.TideScorePeak | src/recommendation/tide_score.py:35-47 | at the ideal height the score is 100 when any flow is accepted or the wanted flow is forecast, and 80 when another flow is forecast |
| TideScore.TideMismatchPenalty | src/recommendation/tide_score.py:41-47 | a flow other than the wanted one multiplies the height bell by 0.8 and never scores above the wanted flow at the same height |
| TideScore.TideAnyFlowIgnoresType | src/recommendation/tide_score.py:41 | with the ideal type 'qualquer' the forecast flow type has no effect |
| TideScore.TideHeightShape | src/recommendation/tide_score.py:32-35 | the score depends on the height only through (height - ideal)^2: symmetric about the ideal and non-increasing away from it |
| TemperatureScore.DecayAtOrder | src/recommendation/temperature_score.py:29-38 | the shared decay curve is 100 at distance 0, lies in [0, 100] and never grows when the distance or the rate grows |
| TemperatureScore.WaterTemperatureScore | src/recommendation/temperature_score.py:3-40 | `calcular_score_temperatura_agua` for one value: exp(-0.08 (t - ideal)^2), clipped to [0, 1], as a percentage rounded to two decimals; its properties are in `TemperatureScores` |
| TemperatureScore.AirTemperatureScore | src/recommendation/temperature_score.py:42-79 | `calcular_score_temperatura_ar` for one value: exp(-0.04 (t - ideal)^2), clipped to [0, 1], as a percentage rounded to two decimals; its properties are in `TemperatureScores` |
| TemperatureScore.TemperatureScores | src/recommendation/temperature_score.py:26-77 | water and air scores are 100 at the ideal, lie in [0, 100], are symmetric about the ideal, fall as the distance grows, and water (rate 0.08) never scores above air (rate 0.04) |
| CurrentScore.CurrentScore | src/recommendation/current_score.py:3-47 | `calcular_score_corrente` for one value: exp(-|speed - ideal| / 0.5), clipped to [0, 1], as a percentage rounded to two decimals; its properties are in `CurrentScoreShape` |
| CurrentScore.CurrentScoreShape | src/recommendation/current_score.py:30-45 | the current score is 100 at the ideal speed, lies in [0, 100], depends only on the distance to the ideal and never grows as it grows |
| WindScore.WindScore | src/recommendation/wind_score.py:15-71 | the masked writes of the source, in order, leave the regime score of `WindScoreOf` (offshore iff the circular gap is at most 45 degrees, calm override 75, clip to [-100, 100], round); the result lies in [-100, 100] |
| WindScore.CalmWind | src/recommendation/wind_score.py:68 | a speed of exactly 0 scores 75 whatever the direction |
| WindScore.OffshoreRise | src/recommendation/wind_score.py:29-33 | offshore, for 0 <= speed <= ideal (ideal > 0), the score is 75 + 25 speed / ideal and lies in [75, 100] |
| WindScore.OffshorePeak | src/recommendation/wind_score.py:31-33 | offshore, the ideal speed scores 100 |
| WindScore.OffshoreFall | src/recommendation/wind_score.py:35-40 | offshore, between the ideal and the maximum the score is 100 - 100 (speed - ideal) / (max - ideal), in [0, 100), and exactly 0 at max |
| WindScore.OnshoreLine | src/recommendation/wind_score.py:42-48 | onshore, up to a positive maximum the score is 75 - 75 speed / max, in [0, 75), and exactly 0 at max |
| WindScore.GalePenalty | src/recommendation/wind_score.py:50-65 | above a positive maximum the score lies in [-100, 0] and is -100 from 1.5 max offshore and from 1.2 max onshore |
| WindScore.OffshoreFallAboveOnshore | src/recommendation/wind_score.py:35-48 | between ideal and max the offshore line is never below the onshore line |
| WindScore.OffshoreNeverWorse | src/recommendation/wind_score.py:27-65 | with 0 < ideal < max, an offshore wind never scores below an onshore wind of the same speed |
| WaveScore.SizeScore | src/recommendation/wave_score.py:3-65 | the four masked writes of the source, applied in order, leave the fraction of `SizeScoreOf` (later sections overwrite earlier ones), scaled by 100 and rounded; for a non-negative height the result lies in [-100, 100] |
| WaveScore.ShortfallRange | src/recommendation/wave_score.py:20-24 | below a positive minimum the squared shortfall lies in [-1, 0) and is exactly -1 for a flat sea |
| WaveScore.RiseRange | src/recommendation/wave_score.py:30-33 | between minimum and ideal the sine rise raised to 1.5 lies in [0, 1], is 0 at the minimum and 1 at the ideal |
| WaveScore.FallRange | src/recommendation/wave_score.py:38-41 | between ideal and maximum the cosine fall lies in [0, 1], is 1 at the ideal and 0 at the maximum |
| WaveScore.OvershootRange | src/recommendation/wave_score.py:45-58 | above the maximum the line of slope -2 / (max - ideal) clamped at -1 lies in [-1, 0) |
| WaveScore.SizeRampEnds | src/recommendation/wave_score.py:30-33 | with minimum < ideal the size score is 0 at the minimum and 100 at the ideal |
| WaveScore.SizeFallEnds | src/recommendation/wave_score.py:38-41 | between ideal and maximum the size score lies in [0, 100] and is 0 at the maximum |
| WaveScore.SizeBelowMinimum | src/recommendation/wave_score.py:20-24 | for 0 < minimum <= ideal <= maximum, a non-negative height below the minimum scores in [-100, 0], and a flat sea scores -100 |
| WaveScore.SizeAboveMaximum | src/recommendation/wave_score.py:45-58 | above a maximum larger than the ideal the score is the rounded max(-100, -200 (size - max) / (max - ideal)), in [-100, 0] |
| WaveScore.SizeAboveFlatTop | src/recommendation/wave_score.py:60-62 | when ideal and maximum coincide (and are non-negative) every larger wave scores -100 |
| WaveScore.SizeScoreRange | src/recommendation/wave_score.py:14-65 | for any non-negative height and any preferences the fraction lies in [-1, 1] and the score in [-100, 100] |
| WaveScore.DirectionGap | src/recommendation/wave_score.py:83-84 | the Python-modulo angular gap is the smaller angle, in [0, 180] |
| WaveScore.DirectionGapSymmetry | src/recommendation/wave_score.py:83-84 | the gap is the same on either side of the ideal and unchanged by a full turn |
| WaveScore.DirectionScoreShape | src/recommendation/wave_score.py:83-92 | the direction score is 100 at the ideal, symmetric about it, periodic in 360 degrees and within [0, 100] |
| WaveScore.DirectionScoreDecay | src/recommendation/wave_score.py:87 | a direction further from the ideal never scores higher |
| WaveScore.PeriodScoreShape | src/recommendation/wave_score.py:107-114 | the period score is 100 at the ideal, symmetric about it, within [0, 100] and never higher further away, whenever ideal + 1e-6 is positive |
| WaveScore.SecondaryDirectionTerm | src/recommendation/wave_score.py:136-144 | the direction term is -1 beyond a 90-degree gap and within [-1, 1] always |
| WaveScore.SecondarySizeTerm | src/recommendation/wave_score.py:151-160 | the size term is negative exactly when the secondary swell exceeds 1.2 times the main one, and in (0, 1] otherwise |
| WaveScore.SecondaryImpact | src/recommendation/wave_score.py:116-184 | the impact lies in [-1, 1] and is 0 when the main height or period is 0 |
| WaveScore.SecondaryModifier | src/recommendation/wave_score.py:244-250 | the modifier lies in [-0.2, 0.1] and is a bonus exactly when the impact is positive |
| WaveScore.WaveScore | src/recommendation/wave_score.py:186-255 | `calcular_score_onda`: a negative size score is returned as it is; otherwise the 0.5 / 0.3 / 0.2 blend of size, period and direction scores, scaled by the secondary-swell modifier when a secondary swell has positive height and period, clipped to [-100, 100] and rounded to two decimals; its properties are the lemmas below |
| WaveScore.WaveVeto | src/recommendation/wave_score.py:215-220 | a negative size score is the whole wave score, whatever the direction, period and secondary swell |
| WaveScore.SecondaryOnlyWhenPresent | src/recommendation/wave_score.py:237-238 | a secondary swell with non-positive height or period does not change the score |
| WaveScore.WaveScoreRange | src/recommendation/wave_score.py:186-255 | for a non-negative height the wave score lies in [-100, 100] |
| WaveScore.ClippedPercent | src/recommendation/wave_score.py:255 | clipping to [-100, 100] then rounding stays in [-100, 100] |
| Suitability.Read | src/recommendation/recommendation_logic.py:42-50 | a value read with `float(get(key, default))` is the default when the key is missing and the stored number when present; it is only taken when the stored value is not null |
| Suitability.ScoreFactors | src/recommendation/recommendation_logic.py:52-162 | the six factor scores, each left at 0 unless its inputs are present, are those of `FactorsOf` |
| Suitability.CalculateSuitability | src/recommendation/recommendation_logic.py:13-196 | the method computes `SuitabilityOf`: a type error when a read value is null, otherwise the clipped, rounded weighted blend and the six detailed scores |
| Suitability.DetailedLookup | src/recommendation/recommendation_logic.py:63-162 | the detailed dictionary has exactly the six keys wave_score, wind_score, tide_score, water_temperature_score, air_temperature_score and current_score, each holding its factor |
| Suitability.SuitabilityFails | src/recommendation/recommendation_logic.py:42-50 | the computation fails, with a type error, exactly when one of the values converted with `float(...)` without a None check is null |
| Suitability.SuitabilityShape | src/recommendation/recommendation_logic.py:172-196 | a successful result has the six detail keys and an overall score in [0, 100] that is the rounded, clipped 50/25/15/5/3/2 blend of those details |
| Suitability.BlendShape | src/recommendation/recommendation_logic.py:193-194 | clipping to [0, 100] then rounding stays in [0, 100] |
| Suitability.WeightsSumToOne | src/recommendation/recommendation_logic.py:170-179 | the six weights sum to 1: equal factors blend to that same value |
| Suitability.NegativeWaveStillBlended | src/recommendation/recommendation_logic.py:181-190 | a negative wave score does not veto the blend: better other factors still raise the weighted sum |
| Suitability.MissingInputsScoreZero | src/recommendation/recommendation_logic.py:52-162 | in a successful result each factor whose forecast inputs (or tide phase or wanted tide type) are missing scores 0 |
| Suitability.SuitabilityParts | src/recommendation/recommendation_logic.py:13-196 | a successful result is the rounded, clipped weighted sum of the factors computed from the read settings, with the detailed map of those factors |
| Suitability.FactorsAbsent | src/recommendation/recommendation_logic.py:52-162 | for any settings, a factor whose inputs are missing is 0 |
| Suitability.WaveDefaults | src/recommendation/recommendation_logic.py:42-61 | with no wave preferences and no secondary swell the wave factor is the wave score with minimum 0.5, ideal 1.5, maximum 2.5, direction 180, period 10 and no secondary swell |
| ScoringService.SwellSizeScore | src/services/scoring_service.py:7-18 | `_calculate_swell_size_score`: -100 above the maximum, 0 below 30 % of the ideal, 100 h / ideal up to the ideal (a division by zero for a flat sea with ideal 0), then 100 (1 - (h - ideal) / (max - ideal)), or 0 when max <= ideal |
| ScoringService.SwellSizeFails | src/services/scoring_service.py:7-18 | the size rule raises a division by zero exactly when height and ideal are both 0 and the maximum is not negative |
| ScoringService.SwellSizeAboveMaximum | src/services/scoring_service.py:8-9 | a swell above the maximum scores -100, and that is the only way to score below 0 |
| ScoringService.SwellSizeRamp | src/services/scoring_service.py:10-14 | up to the maximum, a swell under 30% of the ideal scores 0 and one between 30% of the ideal and the ideal scores 100 height / ideal, in [30, 100] |
| ScoringService.SwellSizeFall | src/services/scoring_service.py:15-18 | between ideal and maximum the score falls linearly, 100 (1 - (height - ideal) / (max - ideal)), in [0, 100) |
| ScoringService.SwellSizeEnds | src/services/scoring_service.py:13-18 | the ideal scores 100 and the maximum 0 |
| ScoringService.IdealPeriodTable | src/services/scoring_service.py:22-28 | the ideal periods rise with the level (8 < 10 < 12 < 15), stay in [8, 15], and an unknown or missing level gets the intermediate 12 |
| ScoringService.SwellPeriodScore | src/services/scoring_service.py:20-30 | `_calculate_swell_period_score`: exp(-(period - ideal)^2 / ideal) times 100, with the level's ideal period (iniciante 8, maroleiro 10, intermediario 12, pro 15, anything else 12), not rounded |
| ScoringService.SwellPeriodShape | src/services/scoring_service.py:29 | the period score is 100 at the level's ideal period, in (0, 100], symmetric about it and never higher further away |
| ScoringService.MinGapIsMinimum | src/services/scoring_service.py:38-41 | the loop's running minimum starts at 360 and ends at the smallest circular gap to any ideal direction, which it attains |
| ScoringService.MinGapBounds | src/services/scoring_service.py:38-41 | for bearings in [0, 360] and a non-empty list the minimum gap lies in [0, 180] |
| ScoringService.SwellDirectionScore | src/services/scoring_service.py:32-44 | the loop computes `DirectionScoreOver`: 50 without ideals, otherwise the Gaussian of the minimum gap |
| ScoringService.DirectionScoreOverShape | src/services/scoring_service.py:32-44 | with no ideal direction the score is 50, a direction in the list scores 100, a non-empty list gives a score in (0, 100], and adding an ideal direction never lowers the score |
| ScoringService.WaveScoreOf | src/services/scoring_service.py:46-66 | `_calculate_wave_score`: reads height, period and direction (default 0), ideal and maximum height (1.5, 2.5), raising a type error on a None; 0 when the size score is negative; otherwise 0.70 size + 0.15 period + 0.15 direction, clipped to [0, 100] and rounded |
| ScoringService.WaveScoreRange | src/services/scoring_service.py:46-66 | a computed wave score lies in [0, 100] and is 0 when the swell is above the maximum |
| ScoringService.CalculateWindScore | src/services/scoring_service.py:70-94 | the method, loop included, computes `WindScoreOf`, with its type-error and division-by-zero outcomes |
| ScoringService.WindRule | src/services/scoring_service.py:79-94 | the wind rule once its inputs are read: 0 above the maximum, 75 with no ideal direction, and otherwise 100 (1 - speed / max) within 45 degrees of an ideal direction and 75 (1 - speed / max) beyond, a division by zero for a maximum of 0 |
| ScoringService.WindRuleRange | src/services/scoring_service.py:79-94 | for a speed in [0, max] the rule succeeds in [0, 100], at most 75 for onshore winds and 100 for a calm offshore wind |
| ScoringService.WindRuleOrder | src/services/scoring_service.py:79-82 | for every maximum, direction and list of ideal directions, a speed above the maximum scores 0, and a speed within it with no ideal direction scores 75 |
| ScoringService.WindScoreFails | src/services/scoring_service.py:70-94 | the wind score fails with a type error exactly when a converted value or the ideal list is null, and divides by zero exactly when the maximum is 0, the speed not positive and ideals are given |
| ScoringService.WindAboveHundred | src/services/scoring_service.py:89-91 | the wind score is not clipped: a negative speed offshore scores 200 |
| ScoringService.TideScoreOf | src/services/scoring_service.py:98-111 | `_calculate_tide_score`: reads the sea level (default 0), the tide type (default ""), the ideal sea level (default 0.5) and the ideal flows (default []); exp(-d^2 / 0.5) times 100 on d = level - ideal, times 0.8 when flows are given and the type is not among them, rounded and not clipped |
| ScoringService.TideScoreRules | src/services/scoring_service.py:98-111 | the tide score lies in [0, 100]; it is the rounded height bell when no flows are wanted or the tide type is among them, and 0.8 times it otherwise |
| ScoringService.DecayBelowOne | src/services/scoring_service.py:118-126 | a temperature decay with positive rate gives a percentage in [0, 100], exactly 100 at the ideal |
| ScoringService.AirTemperatureRange | src/services/scoring_service.py:114-120 | the air score lies in [0, 100] and is 100 when both temperatures default to 25 |
| ScoringService.WaterTemperatureRange | src/services/scoring_service.py:122-127 | the water score lies in [0, 100] and is 100 when both temperatures default to 22 |
| ScoringService.OverallScore | src/services/scoring_service.py:131-159 | `calculate_overall_score`: wave, wind, tide, air and water scores in that order (the first failure is raised), blended 0.50 / 0.33 / 0.15 / 0.01 / 0.01 and rounded, with the five factor scores under their keys |
| ScoringService.BlendWeights | src/services/scoring_service.py:141-151 | the weights 0.50/0.33/0.15/0.01/0.01 sum to 1: equal (two-decimal) scores blend to the same value |
| ScoringService.OverallScoreRange | src/services/scoring_service.py:131-159 | for a non-negative wind speed the overall score lies in [0, 100] and the details carry exactly the five keys |
| DayOffsets.WeekdaysToOffsets | src/api/routes/recommendations.py:15-28 | the loop over the next seven days computes `OffsetsOf`, the offsets whose Sunday-numbered weekday was asked for, or [0] |
| DayOffsets.MatchingShape | src/api/routes/recommendations.py:22-26 | the collected offsets are strictly increasing and are exactly the i < n whose weekday (first + i) mod 7 was asked for |
| DayOffsets.SundayNumbering | src/api/routes/recommendations.py:19-20 | shifting Monday-based `weekday()` by one makes 0 Sunday: the i-th next day has the Sunday-based weekday of today + i |
| DayOffsets.ScanKeepsRequested | src/api/routes/recommendations.py:22-26 | the scan is increasing, keeps only offsets 0..6 whose weekday was asked for, and keeps all of them |
| DayOffsets.OffsetsShape | src/api/routes/recommendations.py:15-28 | the result is never empty, strictly increasing, within 0..6, and [0] both for no weekdays and when no asked weekday occurs |
| DayOffsets.OffsetsExact | src/api/routes/recommendations.py:22-28 | when some asked weekday occurs, the offsets are exactly the days of the coming week on an asked weekday |
| DayOffsets.ValidWeekdaysAllReached | src/api/routes/recommendations.py:23-26 | every asked weekday in 0..6 is reached by some offset |
| DayOffsets.OffsetsExample | src/api/routes/recommendations.py:15-28 | on Wednesday 2025-01-01 (day 20089 since the epoch) asking for Sundays (0) gives [4] and asking for Wednesdays (3) gives [0] |
| DailyRecommendations.ResolvePreferences | src/api/routes/recommendations.py:72-75 | the user's own preferences when they are active; otherwise the level defaults updated with the user id, the spot id, preference id 0 and `is_active` False |
| DailyRecommendations.PreferenceFallback | src/api/routes/recommendations.py:72-75 | own active preferences are used unchanged; otherwise the level defaults are used, marked inactive, with preference id 0 and the user and spot ids, the scoring values untouched |
| DailyRecommendations.GetRecommendations | src/api/routes/recommendations.py:30-123 | the handler computes `RecommendationsOf`: [] without day offsets, 404 without a profile, a crash when scoring fails or a kept entry's spot row has no `name` key (KeyError), otherwise the ranked report |
| DailyRecommendations.CollectOptions | src/api/routes/recommendations.py:65-95 | the loop over the spots fails exactly when `AllOptions` does, with its fault, and otherwise leaves `daily_options` grouped by date as those options |
| DailyRecommendations.AddHourly | src/api/routes/recommendations.py:80-95 | the loop over one spot's forecasts fails exactly when `HourlyOptions` does, with its fault (a scoring error, or KeyError for a kept entry of a row without a `name` key), and otherwise appends exactly those entries, still grouped by date |
| DailyRecommendations.AddForecast | src/api/routes/recommendations.py:81-95 | one forecast's step raises what scoring raises, raises KeyError when the forecast is kept above 30 and the spot row has no `name` key, and otherwise extends the grouped options by that forecast's entry if it is in a requested day and the window and scores above 30 |
| DailyRecommendations.RankDays | src/api/routes/recommendations.py:97-123 | from the grouped options the loop over the sorted dates builds `Report`, one ranked day per date |
| DailyRecommendations.HourlyFailureSticks | src/api/routes/recommendations.py:86 | once scoring a forecast fails, the whole spot fails with that fault |
| DailyRecommendations.OptionsFailureSticks | src/api/routes/recommendations.py:67-95 | once one spot fails, the whole collection fails with that fault |
| DailyRecommendations.GroupedAppend | src/api/routes/recommendations.py:89 | appending an entry under its date (a new list for a new date) keeps the dictionary grouped |
| DailyRecommendations.OnDateEmpty | src/api/routes/recommendations.py:98 | a date with no entry has an empty list |
| DailyRecommendations.DatesOfShape | src/api/routes/recommendations.py:65-98 | the dates of `daily_options` are distinct and each has at least one entry |
| DailyRecommendations.HourlyOptionsExact | src/api/routes/recommendations.py:80-95 | when a spot's forecasts all score and name it, its entries are exactly the forecasts in a requested day and the window whose overall score is above 30, each named from the row's `name` key and paired with its score; a row without that key then has no such forecast and no entry |
| DailyRecommendations.NamelessSpotRaises | src/api/routes/recommendations.py:88-91 | a spot row without a `name` key makes the spot's loop raise as soon as one forecast is in a requested day and the window and scores above 30 |
| DailyRecommendations.OptionsKept | src/api/routes/recommendations.py:67-95 | every collected entry belongs to a requested spot with details, carries the name under that row's `name` key, one of the spot's forecasts and that forecast's hour, passes the day and window filter and scores above 30 |
| DailyRecommendations.NamelessOptionsEmpty | src/api/routes/recommendations.py:67-95 | when no spot row has a `name` key, a collection that does not raise holds no entry |
| DailyRecommendations.OnDateShape | src/api/routes/recommendations.py:89 | a date's list holds exactly the entries whose hour falls on that date |
| DailyRecommendations.DaysExact | src/api/routes/recommendations.py:98-121 | one day is produced per date, in order, each ranking the best session per spot of that date |
| DailyRecommendations.SummariesNotEmpty | src/api/routes/recommendations.py:113-114 | a non-empty date always has a best session, so no day is skipped |
| DailyRecommendations.DayShape | src/api/routes/recommendations.py:100-116 | a day's ranking is non-empty, by non-increasing score, one entry per spot, a permutation of the best sessions, and drawn from that date's entries |
| DailyRecommendations.ReportShape | src/api/routes/recommendations.py:97-123 | the report's dates are strictly ascending and are exactly the dates with entries, each day ranking that date's best sessions |
| DailyRecommendations.RecommendationsCases | src/api/routes/recommendations.py:35-63 | no offsets answer [] before any lookup, weekday selections always have offsets, and a missing profile answers 404 |
| DailyRecommendations.DaySound | src/api/routes/recommendations.py:85-116 | every session in a produced day is for a requested spot, on that date, inside the requested days and window, above 30, and sorted by score with one per spot |
| DailyRecommendations.ReportSound | src/api/routes/recommendations.py:97-123 | the report's dates ascend and every day is sound |
| DailyRecommendations.RecommendationsSound | src/api/routes/recommendations.py:30-123 | a successful answer lists ascending dates whose every day is sound for the request's offsets, window and spots |
| DailyRecommendations.NamelessRowsNeverRecommend | src/api/routes/recommendations.py:88-91 | when no spot row has a `name` key, as with the rows of `get_spot_by_id`, a successful answer is the empty list |
| DailyRecommendations.RecommendationsAsWritten | src/api/routes/recommendations.py:40-49 | the handler against a `queries` module binding a given set of names: [] without day offsets, otherwise AttributeError for the first of `get_profile_by_id`, `get_spot_by_id`, `get_preferences_by_user_and_spot`, `get_forecasts_for_spot` the module lacks, otherwise `RecommendationsOf` |
| DailyRecommendations.ResolveBound | src/api/routes/recommendations.py:46-49 | looking the names up fails exactly when one of them is not bound, and otherwise yields them all |
| DailyRecommendations.AsWrittenLookupsRaise | src/api/routes/recommendations.py:46 | against the names `src/db/queries.py` binds, a request raises AttributeError exactly when it has day offsets |
| DailyRecommendations.LookupsBoundAgree | src/api/routes/recommendations.py:46-63 | with the four query functions bound, the handler answers exactly `RecommendationsOf` |
| Ranking.Tally | src/api/routes/recommendations.py:100-111 | the best-session table is well formed: its spot order lists each recorded spot once |
| Ranking.Summaries | src/api/routes/recommendations.py:116 | the summaries are the best sessions in the table's insertion order |
| Ranking.BestSessions | src/api/routes/recommendations.py:100-111 | the loop over one date's entries computes the summaries of `Tally` |
| Ranking.TallyCoversSpots | src/api/routes/recommendations.py:101-104 | the table has an entry for a spot exactly when one of the date's entries is for it |
| Ranking.TallyKeepsMaximum | src/api/routes/recommendations.py:103 | the best session of a spot scores at least as much as every entry for it |
| Ranking.TallyKeepsEarliest | src/api/routes/recommendations.py:103 | ties are won by the earliest entry: each best session is the first entry of its spot with the maximal score |
| Ranking.EarliestStep | src/api/routes/recommendations.py:103-111 | the earliest-maximum property survives one more entry |
| Ranking.SummariesDistinct | src/api/routes/recommendations.py:100-111 | no spot appears twice among the summaries |
| Ranking.InsertSorted | src/api/routes/recommendations.py:116 | inserting into a descending list keeps it descending and adds nothing else |
| Ranking.InsertPermutes | src/api/routes/recommendations.py:116 | insertion adds exactly the one element |
| Ranking.InsertStable | src/api/routes/recommendations.py:116 | insertion after all equal scores keeps equal-score elements in arrival order |
| Ranking.RankDescShape | src/api/routes/recommendations.py:116 | the descending sort is sorted, a permutation, and stable |
| Ranking.RankDescSorted | src/api/routes/recommendations.py:116 | the sorted list has non-increasing scores |
| Ranking.RankDescPermutes | src/api/routes/recommendations.py:116 | the sorted list is a permutation of its input |
| Ranking.RankDescStable | src/api/routes/recommendations.py:116 | for each score, the elements with that score keep their input order, as Python's stable `sorted(reverse=True)` does |
| Ranking.RankDescDistinctSpots | src/api/routes/recommendations.py:116 | sorting keeps one entry per spot |
| Ranking.SortDatesShape | src/api/routes/recommendations.py:98 | the distinct dates come out strictly ascending and are exactly the input dates |
| Compass.SectorIndex | src/utils/utils.py:97 | the truncating, Python-modulo index always lies in 0..15 |
| Compass.CardinalDirection | src/utils/utils.py:81-98 | the label is "N/A" exactly for a missing bearing and otherwise one of the sixteen points |
| Compass.Upper | src/utils/utils.py:110 | upper-casing keeps the length and maps each ASCII lower-case letter to its capital |
| Compass.CardinalToDegrees | src/utils/utils.py:100-110 | a missing name gives None; a name gives a bearing exactly when its upper-cased form is one of the sixteen points |
| Compass.LabelsAreKeys | src/utils/utils.py:93-109 | the sixteen labels and the keys of the bearing table are the same names |
| Compass.LabelBearing | src/utils/utils.py:104-109 | the i-th point's bearing is 22.5 i |
| Compass.CentreInSector | src/utils/utils.py:96-97 | the bearing 22.5 i falls in the i-th sector |
| Compass.LabelRoundTrip | src/utils/utils.py:81-110 | a point's name converts to its bearing and back to the same name |
| Compass.UpperIdempotent | src/utils/utils.py:110 | upper-casing twice equals upper-casing once |
| Compass.CaseInsensitive | src/utils/utils.py:110 | the conversion ignores case, and a name that is not a point gives None |
| Compass.NorthSector | src/utils/utils.py:96-97 | bearings within 11.25 of north, and small negative bearings through truncation, are "N" |
| Compass.SectorTurn | src/utils/utils.py:97 | a full turn does not change a non-negative bearing's sector |
| Compass.FullTurn | src/utils/utils.py:97-98 | a full turn does not change a non-negative bearing's label |
| Compass.SectorGap | src/utils/utils.py:96-97 | a bearing in [0, 360) is within 11.25 degrees of its sector's centre |
| Compass.NearestPoint | src/utils/utils.py:81-110 | converting a bearing to its label and back gives a point within 11.25 degrees of it |
| RecommendationRoutes.TrimSecondsShape | src/api/routes/recommendation_routes.py:45-48 | a time with exactly two colons loses its seconds (the remaining parts are its first two, and the text shrinks to a prefix); any other text is left as it is |
| RecommendationRoutes.ParseClock | src/api/routes/recommendation_routes.py:50-51 | `map(int, s.split(":"))` unpacked into hour and minute: a value error unless the text has exactly two parts that both parse as integers |
| RecommendationRoutes.TwoDigits | src/api/routes/recommendation_routes.py:50-51 | `int` of two ASCII digits is their decimal value |
| RecommendationRoutes.ClockText | src/api/routes/recommendation_routes.py:45-51 | "HH:MM:SS" and "HH:MM" both trim to "HH:MM", which parses to that hour and minute |
| RecommendationRoutes.OutOfRangeHour | src/api/routes/recommendation_routes.py:50-85 | "25:00" passes the parsing step, and building the window from it raises a value error |
| RecommendationRoutes.WindowEndCoversMinute | src/api/routes/recommendation_routes.py:85-86 | the window ends at the last microsecond of the end minute, both bounds fall on the requested date, and every instant of the named minute lies inside |
| RecommendationRoutes.InWindowExact | src/api/routes/recommendation_routes.py:98-101 | the filtered forecasts are exactly those whose timestamp lies between the bounds, inclusive |
| RecommendationRoutes.InWindowOrder | src/api/routes/recommendation_routes.py:98-101 | the filter keeps the forecasts in their original order |
| RecommendationRoutes.PreferenceOrder | src/api/routes/recommendation_routes.py:73-81 | user preferences win, then model preferences, then the level's; none is found only when all three are missing |
| RecommendationRoutes.DayEntryOf | src/api/routes/recommendation_routes.py:83-141 | a day's entry carries its own offset, and an hour or minute out of range fails with a value error |
| RecommendationRoutes.DayEntriesOf | src/api/routes/recommendation_routes.py:83-141 | the days of a spot follow the requested offsets, one per offset, in order |
| RecommendationRoutes.EarlyAnswers | src/api/routes/recommendation_routes.py:36-53 | an unknown user answers 404, a user without surf level 400, an unparsable time 400, and these are the only error statuses |
| RecommendationRoutes.HourEntriesShape | src/api/routes/recommendation_routes.py:106-139 | one hourly entry per filtered forecast, in order, each with that forecast, its timestamp and its tide type as tide phase |
| RecommendationRoutes.DayWithoutForecasts | src/api/routes/recommendation_routes.py:89-97 | a day without forecasts gives an entry with no recommendations and the missing-forecasts error |
| RecommendationRoutes.DayOutsideWindow | src/api/routes/recommendation_routes.py:98-105 | a day whose forecasts all fall outside the window gives an entry with no recommendations and the empty-window error |
| RecommendationRoutes.DayInWindow | src/api/routes/recommendation_routes.py:83-141 | a day entry without error has valid clocks and one recommendation per forecast in the window, each of that day's forecasts and inside the window |
| RecommendationRoutes.HoursInWindow | src/api/routes/recommendation_routes.py:98-139 | the hourly entries of the filtered forecasts number as many as them and lie inside the window |
| RecommendationRoutes.SpotEntriesShape | src/api/routes/recommendation_routes.py:55-142 | one entry per requested spot, in order: unknown exactly for a spot not found, without preferences exactly when none of the three sources has any, otherwise with the preferences used and one day per offset |
| RecommendationRoutes.GenerateRecommendations | src/api/routes/recommendation_routes.py:36-143 | the handler computes `RecommendationsOf`, the early errors, a crash when a score fails, or the spot entries with status 200 |
| RecommendationRoutes.OneSpot | src/api/routes/recommendation_routes.py:56-142 | one spot's step computes `SpotEntryOf` |
| RecommendationRoutes.SpotDays | src/api/routes/recommendation_routes.py:83-141 | the loop over the offsets computes `DayEntriesOf` |
| RecommendationRoutes.OneDay | src/api/routes/recommendation_routes.py:84-141 | one offset's step computes `DayEntryOf` |
| RecommendationRoutes.HourlyRecommendations | src/api/routes/recommendation_routes.py:106-139 | the loop over the filtered forecasts computes `HourEntriesOf` |
| RecommendationRoutes.HourFailureSticks | src/api/routes/recommendation_routes.py:109 | once one hour's score fails the day fails with that fault |
| RecommendationRoutes.DayFailureSticks | src/api/routes/recommendation_routes.py:83-141 | once one day fails the spot fails with that fault |
| RecommendationRoutes.SpotFailureSticks | src/api/routes/recommendation_routes.py:56-142 | once one spot fails the whole answer fails with that fault |
| RecommendationRoutes.ConvertShape | src/api/routes/recommendation_routes.py:18-27 | conversion keeps dict keys and list lengths, turns arrays into lists of their elements, leaves no numpy value behind, and leaves numpy-free values unchanged |
| RecommendationRoutes.ConvertIdempotent | src/api/routes/recommendation_routes.py:18-27 | converting twice equals converting once |
| Queries.Placeholder | src/db/queries.py:281 | the placeholder text `$p` reads back as the number p |
| Queries.Keys | src/db/queries.py:456 | the keys of the update dict in insertion order |
| Queries.Lookup | src/db/queries.py:414 | a key is found exactly when it is among the keys, with a value the dict holds for it |
| Queries.Assignments | src/db/queries.py:280-281 | the i-th assignment is the i-th key set to placeholder i + 1 |
| Queries.Values | src/db/queries.py:280-282 | the i-th bound value is the i-th update's value |
| Queries.CollectAssignments | src/db/queries.py:278-282 | the loop builds exactly `Assignments` and `Values` |
| Queries.AssignmentsBind | src/db/queries.py:280-282 | placeholder i + 1 binds the i-th update's value, whatever follows the values |
| Queries.UpdateUserProfile | src/db/queries.py:273-285 | the builder computes `ProfileUpdate` |
| Queries.ProfileUpdateBinds | src/db/queries.py:273-285 | no statement exactly for empty updates; otherwise one value per update plus the user id, each update's placeholder binding its value and the last one the user id |
| Queries.UpdateUserRecommendationPreset | src/db/queries.py:402-426 | the builder computes `PresetUpdate` |
| Queries.PresetUpdateBinds | src/db/queries.py:402-426 | no statement exactly for empty updates; a truthy is_default first clears the other defaults; the update binds each value, then the preset id at n + 1 and the user id at n + 2 |
| Queries.UpsertPlaceholders | src/db/queries.py:457 | the value placeholders are $3, $4, ... one per preference |
| Queries.ExcludedSetters | src/db/queries.py:458 | each preference column is set from `EXCLUDED` on conflict |
| Queries.SpotPreferencesUpsert | src/db/queries.py:451-466 | the upsert `set_user_spot_preferences` runs: the given columns after user and spot, placeholders $1, $2 and then one per column, and on a (user, spot) conflict each given column set from EXCLUDED; values user id, spot id, then the dict's values in order |
| Queries.UpsertBinds | src/db/queries.py:451-466 | $1 binds the user id, $2 the spot id, and each column's placeholder its value |
| Queries.SpotPreferencesQuery | src/db/queries.py:301-320 | only "model" and "user" build a query, anything else is a value error, and the query binds the user id and spot id |
| Queries.ActiveFilterOnlyForUser | src/db/queries.py:315-319 | the is_active filter is added exactly for user preferences |
| Queries.PresetInsert | src/db/queries.py:341-361 | the statements `create_user_recommendation_preset` runs: for a default preset first the update clearing the user's other defaults, then the insert of user, name, spot ids, start, end, weekdays (a missing list as []) and the default flag |
| Queries.PresetInsertShape | src/db/queries.py:341-361 | a default preset first clears the user's defaults; the insert binds seven values, a missing weekdays list as [] and the default flag last |
| Calendar.DayAndTime | src/api/routes/recommendations.py:81-83 | a UTC timestamp splits into its date and time of day, the time in [0, one day) |
| Calendar.KnownDates | src/api/routes/recommendations.py:19-20 | 2025-01-01 is a Wednesday (2 from Monday, 3 from Sunday) and 2025-01-05 a Sunday |
| Text.Split | src/api/routes/recommendation_routes.py:45 | `str.split` always returns at least one part |
| Text.SplitJoin | src/api/routes/recommendation_routes.py:45-48 | joining the parts of a split gives the text back, and no part contains the separator |
| Text.JoinSplit | src/api/routes/recommendation_routes.py:46-48 | splitting a join of separator-free parts gives those parts back |
| Text.NoSeparator | src/api/routes/recommendation_routes.py:45 | a text without the separator splits into itself |
| Text.SplitAfter | src/api/routes/recommendation_routes.py:45 | a separator-free head followed by the separator splits off as the first part |
| Text.NatToString | src/db/queries.py:281 | printing a number gives a non-empty string of digits |
| Text.ParsePrinted | src/api/routes/recommendation_routes.py:50-51 | `int` reads a printed number back, with or without a minus sign |
| Text.PrintedValue | src/db/queries.py:281 | the printed digits have the number's value |
| Text.ParseRefuses | src/api/routes/recommendation_routes.py:50-52 | `int` refuses "", "-" and "7a" with a value error and accepts "07" and "+5" |

## Left out

- numpy arrays: the scorers are modelled on scalars, so vectorised calls and broadcasting are not covered.
- IEEE-754: floating point (nan, infinities, rounding error) is replaced by real arithmetic, and the exact values of `exp`, `sin`, `cos`, `** 1.5` and `round` are not fixed. No exact decimal output is claimed.
- WaveScore.PeriodScoreShape: the bounds hold only when `ideal + 1e-6` is positive. For other ideals numpy gives values outside [0, 100], or nan at a zero denominator, and the model does not describe them.
- Database access: connections, asyncpg calls and statement execution are not modelled. Fetched rows are inputs, and a builder returns the statements it would execute. The `rowcount` result of `update_user_recommendation_preset` is not modelled.
- Queries: the SQL text keeps the source's clauses and placeholders but not its exact whitespace and line breaks.
- DailyRecommendations.RecommendationsAsWritten: only the lookups of `src/api/routes/recommendations.py:46-49` are checked against the module. `get_default_preferences_by_level`, called at line 74, is not defined in `src/db/queries.py` either; the model takes the level defaults as an input function that always returns a row, so the lookup error at line 74 and a missing defaults row are not modelled. The lookup at line 46 already fails first.
- DailyRecommendations.GetRecommendations: models the handler with its query functions bound (`DailyRecommendations.LookupsBoundAgree`); against `src/db/queries.py` as it stands every request with day offsets raises AttributeError instead (`DailyRecommendations.AsWrittenLookupsRaise`, see Findings).
- DailyRecommendations.RecommendationsSound: describes the answers of the handler with its query functions bound, for the same reason.
- Spot rows: a `name` key holding None is not modelled; `name` is either a string or missing. With None, pydantic would reject the summary built at `src/api/routes/recommendations.py:104-111`.
- The clock: `datetime.now` and `utcnow` become the `today` parameter, and a date that overflows `datetime` is not modelled.
- Concurrency: the `asyncio.gather` fan-out is replaced by reading all rows up front.
- Request validation by pydantic and the endpoint's `int()` conversion of `spot_ids` and `day_offset` are not modelled. Parsed time windows are inputs to `get_recommendations`.
- `int()` on strings accepts an optional sign and ASCII digits only. Whitespace, underscores and non-ASCII digits are not modelled.
- `str.upper()` is modelled on ASCII letters only.
- Queries.Lookup: a Python dict has distinct keys, while `Updates` is a sequence of pairs that may repeat a key. `Lookup` then returns the first entry's value, where a dict built from those pairs would keep the last. The builders bind every pair in order either way.
- Compass.NorthSector: bearings from -33.75 to 0 map to "N" because `int()` truncates toward zero. Other negative bearings and bearings of 360 or more are not characterised beyond `Compass.FullTurn`.
- Time of day: an hour or minute out of range ("25:00") passes parsing and then fails with a value error when the window is built. `RecommendationRoutes.OutOfRangeHour` shows this. The model does not check the range earlier than the source does.
- Suitability: the model checks all values read with `float(...)` at once, before scoring, where the source reads them one after another. The outcome is the same: the first null read raises a type error and nothing is returned.
- The response bodies keep only the fields the properties speak about: spot, hour, scores, forecast and error kind. Error message texts and the copied `forecast_conditions` and `spot_characteristics` fields are left out.
- Authentication, CRUD routes, configuration, JSON file I/O and time-zone conversion are outside this core.

## Findings

| source | as written | input that shows it | evidently intended | confidence | as-written member | corrected member |
|---|---|---|---|---|---|---|
| src/api/routes/recommendations.py:46-49 | the handler calls `queries.get_profile_by_id`, `queries.get_preferences_by_user_and_spot` and `queries.get_forecasts_for_spot`, which `src/db/queries.py` does not define, so it raises AttributeError | any request whose day selection gives offsets, such as type "weekdays" with any values | the lookups return the profile, the spot preferences and the forecasts, and the handler ranks the sessions | not executed | DailyRecommendations.AsWrittenLookupsRaise | DailyRecommendations.LookupsBoundAgree |
