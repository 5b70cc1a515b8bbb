/** The body of `get_recommendations` (src/api/routes/recommendations.py):
    the requested day offsets, the hourly entries kept per date, and the
    daily ranking.  The database reads, the clock and the authenticated
    user id are inputs. */
module DailyRecommendations {
  import opened Common
  import opened RealMath
  import opened Records
  import opened Calendar
  import opened Ranking
  import DayOffsets
  import ScoringService
  import Queries

  /** Entries must score strictly above this to be kept. */
  const KeepAbove: real := 30.0

  /** `day_selection`: `type` and `values`. */
  datatype DaySelection = DaySelection(kind: string, values: seq<int>)

  /** `time_window`, both ends in microseconds since midnight UTC. */
  datatype TimeWindow = TimeWindow(start: int, end: int)

  datatype Request = Request(spotIds: seq<int>, days: DaySelection, window: TimeWindow)

  /** The rows read from the database for one request: the profile (None
      when missing), the spots and active-or-not preferences by spot id,
      the forecast rows by spot id, and the level defaults each surf level
      is given (`get_default_preferences_by_level`). */
  datatype Fetched = Fetched(
    profile: Option<Profile>,
    spots: map<int, Spot>,
    prefs: map<int, Preferences>,
    forecasts: map<int, seq<Forecast>>,
    defaultsFor: Option<string> -> Preferences)

  /** What decides whether an hourly forecast is considered: today's day
      number, the requested offsets and the time window. */
  datatype Filter = Filter(today: int, offsets: seq<int>, window: TimeWindow)

  datatype DailyRecommendation = DailyRecommendation(date: int, ranked: seq<Session>)

  /** The day offsets: weekdays are turned into offsets, anything else is
      taken as offsets already. */
  function DayOffsetsOf(days: DaySelection, today: int): seq<int>
  {
    if days.kind == "weekdays" then DayOffsets.OffsetsOf(days.values, today) else days.values
  }

  // ---------------------------------------------------------------------
  // Preferences

  /** `user_prefs.get('is_active')` is truthy. */
  predicate Active(p: Preferences)
  {
    p.isActive == Present(true)
  }

  /** The preferences a spot is scored with: the user's own when they are
      active, otherwise the level defaults tagged with the user, the spot,
      preference id 0 and `is_active` False. */
  function ResolvePreferences(own: Option<Preferences>, defaults: Preferences, userId: string, spotId: int)
    : Preferences
  {
    if own.Some? && Active(own.value) then own.value
    else defaults.(userId := Present(userId), spotId := Present(spotId),
                   preferenceId := Present(0), isActive := Present(false))
  }

  /** The surf level whose defaults are fetched; a missing key means
      "intermediario". */
  function SurfLevel(profile: Profile): Option<string>
  {
    GetOr(profile.surfLevel, "intermediario")
  }

  function OwnPreferences(fetched: Fetched, spotId: int): Option<Preferences>
  {
    if spotId in fetched.prefs then Some(fetched.prefs[spotId]) else None
  }

  /** `forecasts_map.get(spot_id, [])`. */
  function SpotForecasts(fetched: Fetched, spotId: int): seq<Forecast>
  {
    if spotId in fetched.forecasts then fetched.forecasts[spotId] else []
  }

  function PreferencesFor(fetched: Fetched, profile: Profile, userId: string, spotId: int): Preferences
  {
    ResolvePreferences(OwnPreferences(fetched, spotId), fetched.defaultsFor(SurfLevel(profile)), userId, spotId)
  }

  /** Active preferences are used as they are; otherwise the result is
      inactive, has preference id 0, names the user and the spot, and
      takes every scoring field from the level defaults. */
  lemma PreferenceFallback(own: Option<Preferences>, defaults: Preferences, userId: string, spotId: int)
    ensures var p := ResolvePreferences(own, defaults, userId, spotId);
      && (own.Some? && Active(own.value) ==> p == own.value)
      && (Active(p) <==> own.Some? && Active(own.value))
      && (!(own.Some? && Active(own.value)) ==>
            && p.preferenceId == Present(0) && p.isActive == Present(false)
            && p.userId == Present(userId) && p.spotId == Present(spotId)
            && p.minWaveHeight == defaults.minWaveHeight
            && p.idealWaveHeight == defaults.idealWaveHeight
            && p.maxWaveHeight == defaults.maxWaveHeight
            && p.idealWindSpeed == defaults.idealWindSpeed
            && p.maxWindSpeed == defaults.maxWindSpeed
            && p.idealWaterTemperature == defaults.idealWaterTemperature
            && p.idealAirTemperature == defaults.idealAirTemperature
            && p.idealSwellHeight == defaults.idealSwellHeight
            && p.maxSwellHeight == defaults.maxSwellHeight)
  {
  }

  // ---------------------------------------------------------------------
  // The hourly entries

  /** The forecast's day offset is requested and its time of day lies in
      the inclusive window. */
  predicate Kept(flt: Filter, f: Forecast)
  {
    && DayOf(f.timestamp) - flt.today in flt.offsets
    && flt.window.start <= TimeOfDay(f.timestamp) <= flt.window.end
  }

  /** The entry appended for a kept forecast; its name is read with
      `spot_details['name']`, a KeyError on a row without that key. */
  function Entry(spotId: int, spot: Spot, f: Forecast, sc: ScoringService.Scores): Result<Session>
  {
    if spot.name.None? then Err(KeyError)
    else Ok(Session(spotId, spot.name.value, f.timestamp, sc.overall, sc.detailed, f))
  }

  /** The entries one spot contributes from its forecasts `fs`, in order;
      the first scoring failure is the one raised. */
  function HourlyOptions(m: Maths, flt: Filter, spotId: int, spot: Spot, p: Preferences, profile: Profile,
                         fs: seq<Forecast>): Result<seq<Session>>
  {
    if |fs| == 0 then Ok([])
    else
      var earlier :- HourlyOptions(m, flt, spotId, spot, p, profile, fs[..|fs| - 1]);
      var f := fs[|fs| - 1];
      if !Kept(flt, f) then Ok(earlier)
      else
        var sc :- ScoringService.OverallScore(m, f, p, spot, profile);
        if sc.overall <= KeepAbove then Ok(earlier)
        else
          var e :- Entry(spotId, spot, f, sc);
          Ok(earlier + [e])
  }

  /** The entries of the spots `ids`, spot after spot; a spot without
      details or without forecasts contributes nothing. */
  function AllOptions(m: Maths, flt: Filter, fetched: Fetched, profile: Profile, userId: string,
                      ids: seq<int>): Result<seq<Session>>
  {
    if |ids| == 0 then Ok([])
    else
      var earlier :- AllOptions(m, flt, fetched, profile, userId, ids[..|ids| - 1]);
      var id := ids[|ids| - 1];
      var fs := SpotForecasts(fetched, id);
      if id !in fetched.spots || |fs| == 0 then Ok(earlier)
      else
        var mine :- HourlyOptions(m, flt, id, fetched.spots[id], PreferencesFor(fetched, profile, userId, id),
                                  profile, fs);
        Ok(earlier + mine)
  }

  /** The entries of one date (`daily_options[date]`), in order. */
  function OnDate(options: seq<Session>, d: int): seq<Session>
  {
    if |options| == 0 then []
    else OnDate(options[..|options| - 1], d)
         + (if DayOf(options[|options| - 1].hour) == d then [options[|options| - 1]] else [])
  }

  /** The dates of the entries, each once, in order of first appearance
      (the keys of `daily_options`). */
  function DatesOf(options: seq<Session>): seq<int>
  {
    if |options| == 0 then []
    else
      var ds := DatesOf(options[..|options| - 1]);
      var d := DayOf(options[|options| - 1].hour);
      if d in ds then ds else ds + [d]
  }

  /** `daily_options` and its key order hold the entries seen so far. */
  ghost predicate Grouped(options: seq<Session>, dates: seq<int>, daily: map<int, seq<Session>>)
  {
    && dates == DatesOf(options)
    && (forall d :: d in daily <==> d in dates)
    && (forall d :: d in daily ==> daily[d] == OnDate(options, d))
  }

  /** One response entry per date in `ds` whose best-per-spot summary is
      not empty. */
  function Days(ds: seq<int>, options: seq<Session>): seq<DailyRecommendation>
  {
    if |ds| == 0 then []
    else
      var earlier := Days(ds[..|ds| - 1], options);
      var d := ds[|ds| - 1];
      var best := Summaries(Tally(OnDate(options, d)));
      if |best| == 0 then earlier else earlier + [DailyRecommendation(d, RankDesc(best))]
  }

  function Report(options: seq<Session>): seq<DailyRecommendation>
  {
    Days(SortDates(DatesOf(options)), options)
  }

  /** `get_recommendations` for a request, today's day number, the user id
      and the fetched rows. */
  function RecommendationsOf(m: Maths, request: Request, today: int, userId: string, fetched: Fetched)
    : Response<seq<DailyRecommendation>>
  {
    var offsets := DayOffsetsOf(request.days, today);
    if |offsets| == 0 then Success([])
    else if fetched.profile.None? then HttpError(404)
    else
      var flt := Filter(today, offsets, request.window);
      match AllOptions(m, flt, fetched, fetched.profile.value, userId, request.spotIds)
      case Err(e) => Crash(e)
      case Ok(options) => Success(Report(options))
  }

  // ---------------------------------------------------------------------
  // The lookups as written

  /** The query functions the handler looks up on the `queries` module,
      in the order it evaluates them. */
  const Lookups: seq<string> :=
    ["get_profile_by_id", "get_spot_by_id", "get_preferences_by_user_and_spot", "get_forecasts_for_spot"]

  /** Looking `names` up, in order, on a module binding `bound`: the first
      missing name raises AttributeError. */
  function Resolve(bound: set<string>, names: seq<string>): Result<seq<string>>
  {
    if |names| == 0 then Ok([])
    else if names[0] !in bound then Err(AttributeError)
    else
      var rest :- Resolve(bound, names[1..]);
      Ok([names[0]] + rest)
  }

  /** Resolving fails exactly when a name is not bound, and otherwise
      yields the names themselves. */
  lemma {:induction false} ResolveBound(bound: set<string>, names: seq<string>)
    ensures Resolve(bound, names).Ok? <==> forall name :: name in names ==> name in bound
    ensures Resolve(bound, names).Ok? ==> Resolve(bound, names).value == names
  {
    if |names| > 0 {
      ResolveBound(bound, names[1..]);
      assert names == [names[0]] + names[1..];
    }
  }

  /** `get_recommendations` as written, against a `queries` module binding
      `bound`: with day offsets it first looks the query functions up. */
  function RecommendationsAsWritten(bound: set<string>, m: Maths, request: Request, today: int, userId: string,
                                    fetched: Fetched): Response<seq<DailyRecommendation>>
  {
    if |DayOffsetsOf(request.days, today)| == 0 then Success([])
    else
      match Resolve(bound, Lookups)
      case Err(e) => Crash(e)
      case Ok(_) => RecommendationsOf(m, request, today, userId, fetched)
  }

  /** Against `src/db/queries.py`, which defines no `get_profile_by_id`,
      every request with day offsets raises AttributeError. */
  lemma AsWrittenLookupsRaise(m: Maths, request: Request, today: int, userId: string, fetched: Fetched)
    ensures |DayOffsetsOf(request.days, today)| > 0 <==>
              RecommendationsAsWritten(Queries.ModuleNames, m, request, today, userId, fetched) == Crash(AttributeError)
  {
    assert Lookups[0] !in Queries.ModuleNames;
  }

  /** With the lookups bound, the handler is `RecommendationsOf`, the
      answer every other part of this model describes. */
  lemma LookupsBoundAgree(bound: set<string>, m: Maths, request: Request, today: int, userId: string,
                          fetched: Fetched)
    requires forall name :: name in Lookups ==> name in bound
    ensures RecommendationsAsWritten(bound, m, request, today, userId, fetched)
            == RecommendationsOf(m, request, today, userId, fetched)
  {
    ResolveBound(bound, Lookups);
  }

  // ---------------------------------------------------------------------
  // The route

  method GetRecommendations(m: Maths, request: Request, today: int, userId: string, fetched: Fetched)
    returns (r: Response<seq<DailyRecommendation>>)
    ensures r == RecommendationsOf(m, request, today, userId, fetched)
  {
    var offsets: seq<int>;
    if request.days.kind == "weekdays" {
      offsets := DayOffsets.WeekdaysToOffsets(request.days.values, today);
    } else {
      offsets := request.days.values;
    }
    if |offsets| == 0 {
      return Success([]);
    }
    if fetched.profile.None? {
      return HttpError(404);
    }
    var flt := Filter(today, offsets, request.window);
    var failure, daily, dates := CollectOptions(m, flt, fetched, fetched.profile.value, userId, request.spotIds);
    if failure.Some? {
      return Crash(failure.value);
    }
    ghost var options := AllOptions(m, flt, fetched, fetched.profile.value, userId, request.spotIds).value;
    var finalResponse := RankDays(daily, dates, options);
    return Success(finalResponse);
  }

  /** The loop over the requested spots, filling `daily_options`. */
  method CollectOptions(m: Maths, flt: Filter, fetched: Fetched, profile: Profile, userId: string, ids: seq<int>)
    returns (failure: Option<Fault>, daily: map<int, seq<Session>>, dates: seq<int>)
    ensures AllOptions(m, flt, fetched, profile, userId, ids).Err? <==> failure.Some?
    ensures failure.Some? ==> AllOptions(m, flt, fetched, profile, userId, ids) == Err(failure.value)
    ensures AllOptions(m, flt, fetched, profile, userId, ids).Ok? ==>
              Grouped(AllOptions(m, flt, fetched, profile, userId, ids).value, dates, daily)
  {
    daily := map[];
    dates := [];
    ghost var options: seq<Session> := [];
    for k := 0 to |ids|
      invariant AllOptions(m, flt, fetched, profile, userId, ids[..k]) == Ok(options)
      invariant Grouped(options, dates, daily)
    {
      assert ids[..k + 1][..k] == ids[..k];
      var spotId := ids[k];
      var spotForecasts := SpotForecasts(fetched, spotId);
      var userPrefs := PreferencesFor(fetched, profile, userId, spotId);
      if spotId !in fetched.spots || |spotForecasts| == 0 {
        continue;
      }
      ghost var mine: seq<Session>;
      failure, daily, dates, mine :=
        AddHourly(m, flt, spotId, fetched.spots[spotId], userPrefs, profile, spotForecasts, options, daily, dates);
      if failure.Some? {
        OptionsFailureSticks(m, flt, fetched, profile, userId, ids, k + 1);
        return;
      }
      options := options + mine;
    }
    assert ids[..|ids|] == ids;
    failure := None;
  }

  /** The loop over one spot's forecasts, appending its kept entries to
      `daily_options`. */
  method AddHourly(m: Maths, flt: Filter, spotId: int, spot: Spot, prefs: Preferences, profile: Profile,
                   fs: seq<Forecast>, ghost options: seq<Session>, daily0: map<int, seq<Session>>, dates0: seq<int>)
    returns (failure: Option<Fault>, daily: map<int, seq<Session>>, dates: seq<int>, ghost mine: seq<Session>)
    requires Grouped(options, dates0, daily0)
    ensures HourlyOptions(m, flt, spotId, spot, prefs, profile, fs).Err? <==> failure.Some?
    ensures failure.Some? ==> HourlyOptions(m, flt, spotId, spot, prefs, profile, fs) == Err(failure.value)
    ensures failure.None? ==>
              && HourlyOptions(m, flt, spotId, spot, prefs, profile, fs) == Ok(mine)
              && Grouped(options + mine, dates, daily)
  {
    daily, dates, mine := daily0, dates0, [];
    failure := None;
    assert options + mine == options;
    for j := 0 to |fs|
      invariant HourlyOptions(m, flt, spotId, spot, prefs, profile, fs[..j]) == Ok(mine)
      invariant Grouped(options + mine, dates, daily)
      invariant failure.None?
    {
      failure, daily, dates, mine := AddForecast(m, flt, spotId, spot, prefs, profile, fs, j,
                                                 options, daily, dates, mine);
      if failure.Some? {
        HourlyFailureSticks(m, flt, spotId, spot, prefs, profile, fs, j + 1);
        assert HourlyOptions(m, flt, spotId, spot, prefs, profile, fs) == Err(failure.value);
        return;
      }
    }
    assert fs[..|fs|] == fs;
  }

  /** One turn of that loop: forecast `fs[j]` is skipped when filtered
      out, raises when it cannot be scored, and otherwise is appended,
      under its date, when it scores above 30 (raising KeyError when the
      spot row has no `name` key). */
  method AddForecast(m: Maths, flt: Filter, spotId: int, spot: Spot, prefs: Preferences, profile: Profile,
                     fs: seq<Forecast>, j: nat, ghost options: seq<Session>,
                     daily0: map<int, seq<Session>>, dates0: seq<int>, ghost mine0: seq<Session>)
    returns (failure: Option<Fault>, daily: map<int, seq<Session>>, dates: seq<int>, ghost mine: seq<Session>)
    requires j < |fs| && HourlyOptions(m, flt, spotId, spot, prefs, profile, fs[..j]) == Ok(mine0)
    requires Grouped(options + mine0, dates0, daily0)
    ensures failure.Some? ==>
              HourlyOptions(m, flt, spotId, spot, prefs, profile, fs[..j + 1]) == Err(failure.value)
    ensures failure.None? ==>
              && HourlyOptions(m, flt, spotId, spot, prefs, profile, fs[..j + 1]) == Ok(mine)
              && Grouped(options + mine, dates, daily)
  {
    daily, dates, mine := daily0, dates0, mine0;
    failure := None;
    assert fs[..j + 1][..j] == fs[..j];
    var forecast := fs[j];
    if Kept(flt, forecast) {
      var scoreData := ScoringService.OverallScore(m, forecast, prefs, spot, profile);
      if scoreData.Err? {
        return Some(scoreData.fault), daily, dates, mine;
      }
      if scoreData.value.overall > KeepAbove {
        if spot.name.None? {
          return Some(KeyError), daily, dates, mine;
        }
        var rec := Session(spotId, spot.name.value, forecast.timestamp, scoreData.value.overall,
                           scoreData.value.detailed, forecast);
        var date := DayOf(forecast.timestamp);
        GroupedAppend(options + mine, dates, daily, rec);
        if date !in daily {
          dates := dates + [date];
          daily := daily[date := [rec]];
        } else {
          daily := daily[date := daily[date] + [rec]];
        }
        assert options + mine + [rec] == options + (mine + [rec]);
        mine := mine + [rec];
      }
    }
  }

  /** The loop over the dates in ascending order, ranking each date's best
      session per spot. */
  method RankDays(daily: map<int, seq<Session>>, dates: seq<int>, ghost options: seq<Session>)
    returns (days: seq<DailyRecommendation>)
    requires Grouped(options, dates, daily)
    ensures days == Report(options)
  {
    DatesOfShape(options);
    var sortedDates := SortDates(dates);
    SortDatesShape(dates);
    days := [];
    for k := 0 to |sortedDates|
      invariant days == Days(sortedDates[..k], options)
    {
      assert sortedDates[..k + 1][..k] == sortedDates[..k];
      var date := sortedDates[k];
      var hourlyRecs := daily[date];
      var best := BestSessions(hourlyRecs);
      if |best| == 0 {
        continue;
      }
      var ranked := RankDesc(best);
      days := days + [DailyRecommendation(date, ranked)];
    }
    assert sortedDates[..|sortedDates|] == sortedDates;
  }

  // ---------------------------------------------------------------------
  // Lemmas the route's proof uses

  lemma {:induction false} HourlyFailureSticks(m: Maths, flt: Filter, spotId: int, spot: Spot, p: Preferences,
                                               profile: Profile, fs: seq<Forecast>, j: nat)
    requires j <= |fs| && HourlyOptions(m, flt, spotId, spot, p, profile, fs[..j]).Err?
    ensures HourlyOptions(m, flt, spotId, spot, p, profile, fs)
            == HourlyOptions(m, flt, spotId, spot, p, profile, fs[..j])
    decreases |fs| - j
  {
    if j < |fs| {
      assert fs[..j + 1][..j] == fs[..j];
      HourlyFailureSticks(m, flt, spotId, spot, p, profile, fs, j + 1);
    } else {
      assert fs[..j] == fs;
    }
  }

  lemma {:induction false} OptionsFailureSticks(m: Maths, flt: Filter, fetched: Fetched, profile: Profile,
                                                userId: string, ids: seq<int>, k: nat)
    requires k <= |ids| && AllOptions(m, flt, fetched, profile, userId, ids[..k]).Err?
    ensures AllOptions(m, flt, fetched, profile, userId, ids)
            == AllOptions(m, flt, fetched, profile, userId, ids[..k])
    decreases |ids| - k
  {
    if k < |ids| {
      assert ids[..k + 1][..k] == ids[..k];
      OptionsFailureSticks(m, flt, fetched, profile, userId, ids, k + 1);
    } else {
      assert ids[..k] == ids;
    }
  }

  /** Appending an entry to its date's list (creating the key if needed)
      keeps `daily_options` in step with the entries. */
  lemma GroupedAppend(options: seq<Session>, dates: seq<int>, daily: map<int, seq<Session>>, rec: Session)
    requires Grouped(options, dates, daily)
    ensures var d := DayOf(rec.hour);
      Grouped(options + [rec],
              if d in daily then dates else dates + [d],
              if d in daily then daily[d := daily[d] + [rec]] else daily[d := [rec]])
  {
    var o := options + [rec];
    assert o[..|o| - 1] == options;
    var d := DayOf(rec.hour);
    forall e
      ensures OnDate(o, e) == OnDate(options, e) + (if d == e then [rec] else [])
    {
    }
    if d !in daily {
      assert d !in dates;
      assert OnDate(options, d) == [] by {
        OnDateEmpty(options, d);
      }
    }
  }

  /** A date that is not among the entries' dates has no entries. */
  lemma {:induction false} OnDateEmpty(options: seq<Session>, d: int)
    requires d !in DatesOf(options)
    ensures OnDate(options, d) == []
  {
    if |options| > 0 {
      OnDateEmpty(options[..|options| - 1], d);
    }
  }

  /** The dates are listed once each, and a listed date has entries. */
  lemma {:induction false} DatesOfShape(options: seq<Session>)
    ensures Distinct(DatesOf(options))
    ensures forall d :: d in DatesOf(options) ==> |OnDate(options, d)| > 0
  {
    if |options| > 0 {
      DatesOfShape(options[..|options| - 1]);
    }
  }

  // ---------------------------------------------------------------------
  // What the route promises

  /** A forecast of the spot that is kept and whose overall score is
      above the threshold. */
  predicate Qualifies(m: Maths, flt: Filter, spot: Spot, p: Preferences, profile: Profile, f: Forecast)
  {
    && Kept(flt, f)
    && ScoringService.OverallScore(m, f, p, spot, profile).Ok?
    && ScoringService.OverallScore(m, f, p, spot, profile).value.overall > KeepAbove
  }

  /** When one spot's forecasts all score and name it, its entries are
      exactly those built from its qualifying forecasts; a spot row
      without a `name` key then has no qualifying forecast. */
  lemma {:induction false} HourlyOptionsExact(m: Maths, flt: Filter, spotId: int, spot: Spot, p: Preferences,
                                              profile: Profile, fs: seq<Forecast>)
    requires HourlyOptions(m, flt, spotId, spot, p, profile, fs).Ok?
    ensures forall e :: e in HourlyOptions(m, flt, spotId, spot, p, profile, fs).value <==>
              exists f :: f in fs && Qualifies(m, flt, spot, p, profile, f)
                          && Entry(spotId, spot, f, ScoringService.OverallScore(m, f, p, spot, profile).value) == Ok(e)
    ensures spot.name.None? ==> forall f :: f in fs ==> !Qualifies(m, flt, spot, p, profile, f)
    ensures spot.name.None? ==> HourlyOptions(m, flt, spotId, spot, p, profile, fs).value == []
  {
    if |fs| > 0 {
      var prefix := fs[..|fs| - 1];
      HourlyOptionsExact(m, flt, spotId, spot, p, profile, prefix);
      assert fs == prefix + [fs[|fs| - 1]];
    }
  }

  /** A spot row without a `name` key raises as soon as one of its
      forecasts qualifies: the entries up to that forecast are not an
      answer. */
  lemma {:induction false} NamelessSpotRaises(m: Maths, flt: Filter, spotId: int, spot: Spot, p: Preferences,
                                              profile: Profile, fs: seq<Forecast>, j: nat)
    requires spot.name.None? && j < |fs| && Qualifies(m, flt, spot, p, profile, fs[j])
    ensures HourlyOptions(m, flt, spotId, spot, p, profile, fs).Err?
  {
    var upTo := fs[..j + 1];
    assert upTo[..j] == fs[..j] && upTo[j] == fs[j];
    assert HourlyOptions(m, flt, spotId, spot, p, profile, upTo).Err?;
    HourlyFailureSticks(m, flt, spotId, spot, p, profile, fs, j + 1);
  }

  /** An hourly entry is kept only if its spot was requested and has
      details, it comes from that spot's forecasts, its day offset is
      requested, its time lies in the window and its score is above 30. */
  lemma {:induction false} OptionsKept(m: Maths, flt: Filter, fetched: Fetched, profile: Profile, userId: string,
                                       ids: seq<int>)
    requires AllOptions(m, flt, fetched, profile, userId, ids).Ok?
    ensures forall e :: e in AllOptions(m, flt, fetched, profile, userId, ids).value ==>
              && e.spotId in ids && e.spotId in fetched.spots
              && fetched.spots[e.spotId].name == Some(e.spotName)
              && e.forecast in SpotForecasts(fetched, e.spotId)
              && e.hour == e.forecast.timestamp
              && Kept(flt, e.forecast) && e.score > KeepAbove
  {
    if |ids| > 0 {
      var prefix := ids[..|ids| - 1];
      OptionsKept(m, flt, fetched, profile, userId, prefix);
      var id := ids[|ids| - 1];
      var fs := SpotForecasts(fetched, id);
      if id in fetched.spots && |fs| > 0 {
        var p := PreferencesFor(fetched, profile, userId, id);
        HourlyOptionsExact(m, flt, id, fetched.spots[id], p, profile, fs);
      }
      forall e | e in AllOptions(m, flt, fetched, profile, userId, ids).value
        ensures e.spotId in ids
      {
        if e in AllOptions(m, flt, fetched, profile, userId, prefix).value {
          assert e.spotId in prefix;
        }
      }
    }
  }

  /** A date's entries are the entries on that date, in order. */
  lemma {:induction false} OnDateShape(options: seq<Session>, d: int)
    ensures forall e :: e in OnDate(options, d) <==> e in options && DayOf(e.hour) == d
  {
    if |options| > 0 {
      OnDateShape(options[..|options| - 1], d);
      assert options == options[..|options| - 1] + [options[|options| - 1]];
    }
  }

  /** The day entries for dates that all have entries: one per date, in
      the same order, each holding the ranked summaries of that date. */
  lemma {:induction false} DaysExact(ds: seq<int>, options: seq<Session>)
    requires forall d :: d in ds ==> |OnDate(options, d)| > 0
    ensures |Days(ds, options)| == |ds|
    ensures forall i :: 0 <= i < |ds| ==>
              Days(ds, options)[i] == DailyRecommendation(ds[i], RankDesc(Summaries(Tally(OnDate(options, ds[i])))))
  {
    if |ds| > 0 {
      var prefix := ds[..|ds| - 1];
      assert forall d :: d in prefix ==> d in ds;
      DaysExact(prefix, options);
      var d := ds[|ds| - 1];
      var recs := OnDate(options, d);
      SummariesNotEmpty(recs);
      var day := DailyRecommendation(d, RankDesc(Summaries(Tally(recs))));
      assert Days(ds, options) == Days(prefix, options) + [day];
      forall i | 0 <= i < |ds|
        ensures Days(ds, options)[i] == DailyRecommendation(ds[i], RankDesc(Summaries(Tally(OnDate(options, ds[i])))))
      {
        if i < |prefix| {
          assert ds[i] == prefix[i];
        }
      }
    }
  }

  /** A date with entries has at least one summary. */
  lemma SummariesNotEmpty(recs: seq<Session>)
    requires |recs| > 0
    ensures |Summaries(Tally(recs))| > 0
  {
    TallyCoversSpots(recs);
    assert recs[0].spotId in Tally(recs).best;
  }

  /** One date's ranking: not empty, non-increasing, one session per
      spot, a permutation of the date's best session per spot, all of them
      entries on that date. */
  lemma DayShape(options: seq<Session>, d: int)
    requires |OnDate(options, d)| > 0
    ensures var ranked := RankDesc(Summaries(Tally(OnDate(options, d))));
      && |ranked| > 0
      && NonIncreasing(ranked)
      && DistinctSpots(ranked)
      && multiset(ranked) == multiset(Summaries(Tally(OnDate(options, d))))
      && (forall s :: s in ranked ==> s in options && DayOf(s.hour) == d)
  {
    var recs := OnDate(options, d);
    var best := Summaries(Tally(recs));
    var ranked := RankDesc(best);
    SummariesNotEmpty(recs);
    RankDescShape(best);
    SummariesDistinct(recs);
    RankDescDistinctSpots(best);
    TallyKeepsEarliest(recs);
    OnDateShape(options, d);
    assert |ranked| == |multiset(ranked)| == |multiset(best)| == |best|;
    forall s | s in ranked
      ensures s in options && DayOf(s.hour) == d
    {
      assert s in multiset(best);
      var k :| 0 <= k < |best| && best[k] == s;
      var spot := Tally(recs).order[k];
      var j :| EarliestBest(recs, spot, j) && recs[j] == Tally(recs).best[spot];
      assert recs[j] in recs;
    }
  }

  /** The report has one day per date that has entries, dates strictly
      ascending, and each day ranks that date as `DayShape` states. */
  lemma ReportShape(options: seq<Session>)
    ensures var days := Report(options);
      && (forall i, j :: 0 <= i < j < |days| ==> days[i].date < days[j].date)
      && (forall d :: d in DatesOf(options) <==> exists i :: 0 <= i < |days| && days[i].date == d)
      && (forall i :: 0 <= i < |days| ==>
            && |OnDate(options, days[i].date)| > 0
            && days[i].ranked == RankDesc(Summaries(Tally(OnDate(options, days[i].date)))))
  {
    var ds := DatesOf(options);
    DatesOfShape(options);
    SortDatesShape(ds);
    var sorted := SortDates(ds);
    DaysExact(sorted, options);
    var days := Report(options);
    assert forall i :: 0 <= i < |days| ==> days[i].date == sorted[i];
    forall d | d in ds
      ensures exists i :: 0 <= i < |days| && days[i].date == d
    {
      var i :| 0 <= i < |sorted| && sorted[i] == d;
      assert days[i].date == d;
    }
    forall i | 0 <= i < |days|
      ensures days[i].date in ds
    {
      assert sorted[i] in sorted;
    }
  }

  /** Without offsets the answer is empty, before the profile is even
      looked at; weekday selections always yield offsets; with offsets a
      missing profile is a 404. */
  lemma RecommendationsCases(m: Maths, request: Request, today: int, userId: string, fetched: Fetched)
    ensures |DayOffsetsOf(request.days, today)| == 0 ==>
              RecommendationsOf(m, request, today, userId, fetched) == Success([])
    ensures request.days.kind == "weekdays" ==> |DayOffsetsOf(request.days, today)| > 0
    ensures |DayOffsetsOf(request.days, today)| > 0 && fetched.profile.None? ==>
              RecommendationsOf(m, request, today, userId, fetched) == HttpError(404)
  {
    DayOffsets.OffsetsShape(request.days.values, today);
  }

  /** A day of the answer: its date is a requested offset from today, and
      its ranking is not empty, non-increasing in score and names each
      spot once; every session in it was requested, lies on that date and
      in the time window, and scores above 30. */
  predicate SoundDay(flt: Filter, ids: seq<int>, day: DailyRecommendation)
  {
    && day.date - flt.today in flt.offsets
    && |day.ranked| > 0 && NonIncreasing(day.ranked) && DistinctSpots(day.ranked)
    && (forall s :: s in day.ranked ==>
          && s.spotId in ids
          && DayOf(s.hour) == day.date
          && flt.window.start <= TimeOfDay(s.hour) <= flt.window.end
          && s.score > KeepAbove)
  }

  lemma DaySound(m: Maths, flt: Filter, fetched: Fetched, profile: Profile, userId: string, ids: seq<int>,
                 options: seq<Session>, d: int)
    requires AllOptions(m, flt, fetched, profile, userId, ids) == Ok(options)
    requires |OnDate(options, d)| > 0
    ensures SoundDay(flt, ids, DailyRecommendation(d, RankDesc(Summaries(Tally(OnDate(options, d))))))
  {
    OptionsKept(m, flt, fetched, profile, userId, ids);
    DayShape(options, d);
    var ranked := RankDesc(Summaries(Tally(OnDate(options, d))));
    assert ranked[0] in ranked;
  }

  /** The report of the entries collected under a filter: strictly
      ascending dates, every day sound. */
  lemma ReportSound(m: Maths, flt: Filter, fetched: Fetched, profile: Profile, userId: string, ids: seq<int>,
                    options: seq<Session>)
    requires AllOptions(m, flt, fetched, profile, userId, ids) == Ok(options)
    ensures forall i, j :: 0 <= i < j < |Report(options)| ==> Report(options)[i].date < Report(options)[j].date
    ensures forall i :: 0 <= i < |Report(options)| ==> SoundDay(flt, ids, Report(options)[i])
  {
    ReportShape(options);
    var days := Report(options);
    forall i | 0 <= i < |days|
      ensures SoundDay(flt, ids, days[i])
    {
      DaySound(m, flt, fetched, profile, userId, ids, options, days[i].date);
    }
  }

  /** When no spot row has a `name` key, collecting succeeds only with no
      entries at all. */
  lemma {:induction false} NamelessOptionsEmpty(m: Maths, flt: Filter, fetched: Fetched, profile: Profile,
                                                userId: string, ids: seq<int>)
    requires forall id :: id in fetched.spots ==> fetched.spots[id].name.None?
    requires AllOptions(m, flt, fetched, profile, userId, ids).Ok?
    ensures AllOptions(m, flt, fetched, profile, userId, ids).value == []
  {
    if |ids| > 0 {
      NamelessOptionsEmpty(m, flt, fetched, profile, userId, ids[..|ids| - 1]);
      var id := ids[|ids| - 1];
      var fs := SpotForecasts(fetched, id);
      if id in fetched.spots && |fs| > 0 {
        HourlyOptionsExact(m, flt, id, fetched.spots[id], PreferencesFor(fetched, profile, userId, id), profile, fs);
      }
    }
  }

  /** Spot rows without a `name` key, as `get_spot_by_id` returns them,
      never reach the answer: the route then answers an empty list or
      fails. */
  lemma NamelessRowsNeverRecommend(m: Maths, request: Request, today: int, userId: string, fetched: Fetched)
    requires forall id :: id in fetched.spots ==> fetched.spots[id].name.None?
    ensures RecommendationsOf(m, request, today, userId, fetched).Success? ==>
              RecommendationsOf(m, request, today, userId, fetched).value == []
  {
    var offsets := DayOffsetsOf(request.days, today);
    if |offsets| > 0 && fetched.profile.Some? {
      var flt := Filter(today, offsets, request.window);
      var all := AllOptions(m, flt, fetched, fetched.profile.value, userId, request.spotIds);
      if all.Ok? {
        NamelessOptionsEmpty(m, flt, fetched, fetched.profile.value, userId, request.spotIds);
      }
    }
  }

  /** The route's answer: strictly ascending dates, and every day sound
      for the request's offsets, spots and time window. */
  lemma RecommendationsSound(m: Maths, request: Request, today: int, userId: string, fetched: Fetched)
    requires RecommendationsOf(m, request, today, userId, fetched).Success?
    ensures var days := RecommendationsOf(m, request, today, userId, fetched).value;
      && (forall i, j :: 0 <= i < j < |days| ==> days[i].date < days[j].date)
      && (forall i :: 0 <= i < |days| ==>
            SoundDay(Filter(today, DayOffsetsOf(request.days, today), request.window), request.spotIds, days[i]))
  {
    var offsets := DayOffsetsOf(request.days, today);
    if |offsets| > 0 {
      var flt := Filter(today, offsets, request.window);
      var options := AllOptions(m, flt, fetched, fetched.profile.value, userId, request.spotIds).value;
      ReportSound(m, flt, fetched, fetched.profile.value, userId, request.spotIds, options);
    }
  }
}
