/** `generate_recommendations_logic` and `convert_numpy_to_python_types`
    (src/api/routes/recommendation_routes.py): for each requested spot and
    day offset, the forecasts inside the requested time window scored with
    the legacy suitability score.  The database reads and today's date are
    inputs. */
module RecommendationRoutes {
  import opened Common
  import opened RealMath
  import opened Records
  import opened Calendar
  import opened Text
  import Suitability

  /** A wall-clock time `HH:MM` as parsed from the request. */
  datatype Clock = Clock(hour: int, minute: int)

  /** The rows read from the database for one request: the user (None
      when missing), the spots by id, the user's active `user` and its
      `model` preference rows by spot, the level-spot rows of the user's
      surf level by spot, and the forecast rows of a spot on a date (day
      number). */
  datatype Sources = Sources(
    user: Option<Profile>,
    spots: map<int, Spot>,
    userPrefs: map<int, Preferences>,
    modelPrefs: map<int, Preferences>,
    levelPrefs: map<int, Preferences>,
    forecasts: (int, int) -> seq<Forecast>)

  /** One scored hour: `timestamp_utc`, the suitability score, the detailed
      scores, the forecast row and its `tide_type` as the tide phase. */
  datatype HourEntry = HourEntry(
    timestamp: int,
    suitability: real,
    detailed: map<string, real>,
    forecast: Forecast,
    tidePhase: Option<string>)

  /** Why a day has no recommendations. */
  datatype DayError = NoForecasts | NoneInWindow

  datatype DayEntry = DayEntry(dayOffset: int, recommendations: seq<HourEntry>, error: Option<DayError>)

  /** One spot of the answer: an unknown spot (named "Spot ID <id>" in the
      source), a spot without any preferences, or the spot's days. */
  datatype SpotEntry =
    | UnknownSpot(spotId: int)
    | NoPreferences(spotName: string, spotId: int)
    | Recommended(spotName: string, spotId: int, preferences: Preferences, days: seq<DayEntry>)

  // ---------------------------------------------------------------------
  // Request times

  /** `HH:MM:SS` loses its seconds; any other text is left as it is. */
  function TrimSeconds(s: string): string
  {
    var parts := Split(s, ':');
    if |parts| == 3 then Join(parts[..2], ':') else s
  }

  /** `map(int, s.split(":"))` unpacked into hour and minute. */
  function ParseClock(s: string): Result<Clock>
  {
    var parts := Split(s, ':');
    if |parts| != 2 then Err(ValueError)
    else
      var hour :- ParseInt(parts[0]);
      var minute :- ParseInt(parts[1]);
      Ok(Clock(hour, minute))
  }

  /** The start and end of the requested window, seconds dropped first. */
  function ParseWindow(startText: string, endText: string): Result<(Clock, Clock)>
  {
    var start :- ParseClock(TrimSeconds(startText));
    var end :- ParseClock(TrimSeconds(endText));
    Ok((start, end))
  }

  /** Three parts keep their first two; two parts are left as they are. */
  lemma TrimSecondsShape(s: string)
    ensures |Split(s, ':')| == 3 ==> Split(TrimSeconds(s), ':') == Split(s, ':')[..2]
    ensures |Split(s, ':')| == 3 ==> TrimSeconds(s) <= s
    ensures |Split(s, ':')| != 3 ==> TrimSeconds(s) == s
  {
    var parts := Split(s, ':');
    SplitJoin(s, ':');
    if |parts| == 3 {
      JoinSplit(parts[..2], ':');
      assert Join(parts[..2], ':') == parts[0] + [':'] + parts[1];
      assert Join(parts[1..][1..], ':') == parts[2];
      assert Join(parts[1..], ':') == parts[1] + [':'] + parts[2];
      assert Join(parts, ':') == parts[0] + [':'] + (parts[1] + [':'] + parts[2]);
    }
  }

  /** A clock `datetime.time` accepts. */
  predicate ValidClock(c: Clock)
  {
    0 <= c.hour <= 23 && 0 <= c.minute <= 59
  }

  /** `start_utc`: the date at the start clock. */
  function WindowStart(date: int, c: Clock): int
  {
    date * MicrosPerDay + c.hour * MicrosPerHour + c.minute * MicrosPerMinute
  }

  /** `end_utc`: the date at the end clock, second 59, microsecond 999999. */
  function WindowEnd(date: int, c: Clock): int
  {
    WindowStart(date, c) + 59 * MicrosPerSecond + 999999
  }

  /** The window end is the last microsecond of the end minute, on the
      same date: every instant of that minute is inside. */
  lemma WindowEndCoversMinute(date: int, c: Clock)
    requires ValidClock(c)
    ensures WindowEnd(date, c) + 1 == WindowStart(date, c) + MicrosPerMinute
    ensures DayOf(WindowEnd(date, c)) == date && DayOf(WindowStart(date, c)) == date
    ensures forall ts :: DayOf(ts) == date && TimeOfDay(ts) / MicrosPerMinute == c.hour * 60 + c.minute ==>
              WindowStart(date, c) <= ts <= WindowEnd(date, c)
  {
    var t := c.hour * MicrosPerHour + c.minute * MicrosPerMinute;
    assert 0 <= t + MicrosPerMinute - 1 < MicrosPerDay;
    assert WindowEnd(date, c) == date * MicrosPerDay + (t + MicrosPerMinute - 1);
    forall ts | DayOf(ts) == date && TimeOfDay(ts) / MicrosPerMinute == c.hour * 60 + c.minute
      ensures WindowStart(date, c) <= ts <= WindowEnd(date, c)
    {
      DayAndTime(ts);
      var r := TimeOfDay(ts);
      assert t == (c.hour * 60 + c.minute) * MicrosPerMinute;
      assert t <= r < t + MicrosPerMinute;
    }
  }

  /** The forecasts with `start <= timestamp <= end`, in order. */
  function InWindow(fs: seq<Forecast>, start: int, end: int): seq<Forecast>
  {
    if |fs| == 0 then []
    else InWindow(fs[..|fs| - 1], start, end)
         + (if start <= fs[|fs| - 1].timestamp <= end then [fs[|fs| - 1]] else [])
  }

  /** The window keeps exactly the forecasts inside it. */
  lemma {:induction false} InWindowExact(fs: seq<Forecast>, start: int, end: int)
    ensures forall f :: f in InWindow(fs, start, end) <==> f in fs && start <= f.timestamp <= end
  {
    if |fs| > 0 {
      InWindowExact(fs[..|fs| - 1], start, end);
      assert fs == fs[..|fs| - 1] + [fs[|fs| - 1]];
    }
  }

  /** The window keeps the forecasts' order: filtering a concatenation
      concatenates the filtered parts. */
  lemma {:induction false} InWindowOrder(fs: seq<Forecast>, more: seq<Forecast>, start: int, end: int)
    ensures InWindow(fs + more, start, end) == InWindow(fs, start, end) + InWindow(more, start, end)
  {
    if |more| == 0 {
      assert fs + more == fs;
    } else {
      InWindowOrder(fs, more[..|more| - 1], start, end);
      assert (fs + more)[..|fs + more| - 1] == fs + more[..|more| - 1];
    }
  }

  // ---------------------------------------------------------------------
  // Preferences

  /** The first of the user's active preferences, the model preferences
      and the level-spot preferences that exists. */
  function ChoosePreferences(user: Option<Preferences>, model: Option<Preferences>, level: Option<Preferences>)
    : Option<Preferences>
  {
    if user.Some? then user else if model.Some? then model else level
  }

  function Lookup(rows: map<int, Preferences>, spotId: int): Option<Preferences>
  {
    if spotId in rows then Some(rows[spotId]) else None
  }

  function PreferencesOf(src: Sources, spotId: int): Option<Preferences>
  {
    ChoosePreferences(Lookup(src.userPrefs, spotId), Lookup(src.modelPrefs, spotId), Lookup(src.levelPrefs, spotId))
  }

  /** User rows win over model rows, which win over level rows; nothing
      is chosen only when all three are missing. */
  lemma PreferenceOrder(user: Option<Preferences>, model: Option<Preferences>, level: Option<Preferences>)
    ensures user.Some? ==> ChoosePreferences(user, model, level) == user
    ensures user.None? && model.Some? ==> ChoosePreferences(user, model, level) == model
    ensures user.None? && model.None? ==> ChoosePreferences(user, model, level) == level
    ensures ChoosePreferences(user, model, level).None? <==> user.None? && model.None? && level.None?
  {
  }

  // ---------------------------------------------------------------------
  // The answer

  /** The scored hours of one day, in order; the first failing score is
      the one raised. */
  function HourEntriesOf(m: Maths, fs: seq<Forecast>, prefs: Preferences): Result<seq<HourEntry>>
  {
    if |fs| == 0 then Ok([])
    else
      var earlier :- HourEntriesOf(m, fs[..|fs| - 1], prefs);
      var f := fs[|fs| - 1];
      var s :- Suitability.SuitabilityOf(m, f, prefs, Get(f.tideType));
      Ok(earlier + [HourEntry(f.timestamp, s.overall, s.detailed, f, Get(f.tideType))])
  }

  /** One day offset of a spot: `datetime.time` refuses an invalid clock;
      a day without forecasts, or without forecasts in the window, gets an
      error and no recommendations. */
  function DayEntryOf(m: Maths, src: Sources, spotId: int, prefs: Preferences, today: int,
                      start: Clock, end: Clock, offset: int): (r: Result<DayEntry>)
    ensures r.Ok? ==> r.value.dayOffset == offset
    ensures !ValidClock(start) || !ValidClock(end) ==> r == Err(ValueError)
  {
    if !ValidClock(start) || !ValidClock(end) then Err(ValueError)
    else
      var date := today + offset;
      var fs := src.forecasts(spotId, date);
      if |fs| == 0 then Ok(DayEntry(offset, [], Some(NoForecasts)))
      else
        var inWindow := InWindow(fs, WindowStart(date, start), WindowEnd(date, end));
        if |inWindow| == 0 then Ok(DayEntry(offset, [], Some(NoneInWindow)))
        else
          var hours :- HourEntriesOf(m, inWindow, prefs);
          Ok(DayEntry(offset, hours, None))
  }

  /** One day per offset, in the same order. */
  predicate FollowOffsets(days: seq<DayEntry>, offsets: seq<int>)
  {
    |days| == |offsets| && forall j :: 0 <= j < |offsets| ==> days[j].dayOffset == offsets[j]
  }

  lemma FollowOneMore(earlier: seq<DayEntry>, day: DayEntry, offsets: seq<int>)
    requires |offsets| > 0 && FollowOffsets(earlier, offsets[..|offsets| - 1])
    requires day.dayOffset == offsets[|offsets| - 1]
    ensures FollowOffsets(earlier + [day], offsets)
  {
  }

  /** The days of a spot follow the requested offsets one for one. */
  function DayEntriesOf(m: Maths, src: Sources, spotId: int, prefs: Preferences, today: int,
                        start: Clock, end: Clock, offsets: seq<int>): (r: Result<seq<DayEntry>>)
    ensures r.Ok? ==> FollowOffsets(r.value, offsets)
  {
    if |offsets| == 0 then Ok([])
    else
      var earlier :- DayEntriesOf(m, src, spotId, prefs, today, start, end, offsets[..|offsets| - 1]);
      var day :- DayEntryOf(m, src, spotId, prefs, today, start, end, offsets[|offsets| - 1]);
      FollowOneMore(earlier, day, offsets);
      Ok(earlier + [day])
  }

  function SpotEntryOf(m: Maths, src: Sources, today: int, start: Clock, end: Clock, offsets: seq<int>,
                       spotId: int): Result<SpotEntry>
  {
    if spotId !in src.spots then Ok(UnknownSpot(spotId))
    else
      var spot := src.spots[spotId];
      match PreferencesOf(src, spotId)
      case None => Ok(NoPreferences(spot.spotName, spotId))
      case Some(prefs) =>
        var days :- DayEntriesOf(m, src, spotId, prefs, today, start, end, offsets);
        Ok(Recommended(spot.spotName, spotId, prefs, days))
  }

  function SpotEntriesOf(m: Maths, src: Sources, today: int, start: Clock, end: Clock, offsets: seq<int>,
                         ids: seq<int>): Result<seq<SpotEntry>>
  {
    if |ids| == 0 then Ok([])
    else
      var earlier :- SpotEntriesOf(m, src, today, start, end, offsets, ids[..|ids| - 1]);
      var entry :- SpotEntryOf(m, src, today, start, end, offsets, ids[|ids| - 1]);
      Ok(earlier + [entry])
  }

  /** A user with a surf level: `if not surf_level` also refuses "". */
  predicate HasSurfLevel(user: Profile)
  {
    user.surfLevel.Present? && user.surfLevel.value != ""
  }

  /** `generate_recommendations_logic`: 404 without the user, 400 without
      a surf level or with unreadable times; otherwise one entry per
      requested spot, unless an exception escapes. */
  function RecommendationsOf(m: Maths, src: Sources, today: int, spotIds: seq<int>, offsets: seq<int>,
                             startText: string, endText: string): Response<seq<SpotEntry>>
  {
    if src.user.None? then HttpError(404)
    else if !HasSurfLevel(src.user.value) then HttpError(400)
    else
      match ParseWindow(startText, endText)
      case Err(_) => HttpError(400)
      case Ok(window) =>
        match SpotEntriesOf(m, src, today, window.0, window.1, offsets, spotIds)
        case Err(e) => Crash(e)
        case Ok(entries) => Success(entries)
  }

  /** The early answers: no user is 404; no surf level, or times that do
      not parse, are 400. */
  lemma EarlyAnswers(m: Maths, src: Sources, today: int, spotIds: seq<int>, offsets: seq<int>,
                     startText: string, endText: string)
    ensures src.user.None? ==> RecommendationsOf(m, src, today, spotIds, offsets, startText, endText) == HttpError(404)
    ensures src.user.Some? && !HasSurfLevel(src.user.value) ==>
              RecommendationsOf(m, src, today, spotIds, offsets, startText, endText) == HttpError(400)
    ensures src.user.Some? && HasSurfLevel(src.user.value) && ParseWindow(startText, endText).Err? ==>
              RecommendationsOf(m, src, today, spotIds, offsets, startText, endText) == HttpError(400)
    ensures RecommendationsOf(m, src, today, spotIds, offsets, startText, endText).HttpError? ==>
              RecommendationsOf(m, src, today, spotIds, offsets, startText, endText).status in {400, 404}
  {
  }

  /** Scored hours that follow the forecasts one by one. */
  predicate HoursMatch(hours: seq<HourEntry>, fs: seq<Forecast>)
  {
    |hours| == |fs| &&
    forall i :: 0 <= i < |fs| ==>
      hours[i].forecast == fs[i] && hours[i].timestamp == fs[i].timestamp
      && hours[i].tidePhase == Get(fs[i].tideType)
  }

  lemma HoursOneMore(earlier: seq<HourEntry>, hour: HourEntry, fs: seq<Forecast>)
    requires |fs| > 0 && HoursMatch(earlier, fs[..|fs| - 1])
    requires hour.forecast == fs[|fs| - 1] && hour.timestamp == fs[|fs| - 1].timestamp
    requires hour.tidePhase == Get(fs[|fs| - 1].tideType)
    ensures HoursMatch(earlier + [hour], fs)
  {
  }

  /** Every forecast in the window becomes one scored hour, in order. */
  lemma {:induction false} HourEntriesShape(m: Maths, fs: seq<Forecast>, prefs: Preferences)
    requires HourEntriesOf(m, fs, prefs).Ok?
    ensures HoursMatch(HourEntriesOf(m, fs, prefs).value, fs)
  {
    if |fs| > 0 {
      var init := fs[..|fs| - 1];
      HourEntriesShape(m, init, prefs);
      var earlier := HourEntriesOf(m, init, prefs).value;
      var f := fs[|fs| - 1];
      var s := Suitability.SuitabilityOf(m, f, prefs, Get(f.tideType)).value;
      var hour := HourEntry(f.timestamp, s.overall, s.detailed, f, Get(f.tideType));
      assert HourEntriesOf(m, fs, prefs).value == earlier + [hour];
      HoursOneMore(earlier, hour, fs);
    }
  }

  /** A day without forecasts carries an error and no recommendations. */
  lemma DayWithoutForecasts(m: Maths, src: Sources, spotId: int, prefs: Preferences, today: int,
                            start: Clock, end: Clock, offset: int)
    requires ValidClock(start) && ValidClock(end)
    requires |src.forecasts(spotId, today + offset)| == 0
    ensures DayEntryOf(m, src, spotId, prefs, today, start, end, offset)
              == Ok(DayEntry(offset, [], Some(NoForecasts)))
  {
  }

  /** A day whose forecasts all lie outside the window carries the other
      error and no recommendations. */
  lemma DayOutsideWindow(m: Maths, src: Sources, spotId: int, prefs: Preferences, today: int,
                         start: Clock, end: Clock, offset: int)
    requires ValidClock(start) && ValidClock(end)
    requires var date := today + offset;
      var fs := src.forecasts(spotId, date);
      |fs| > 0 && |InWindow(fs, WindowStart(date, start), WindowEnd(date, end))| == 0
    ensures DayEntryOf(m, src, spotId, prefs, today, start, end, offset)
              == Ok(DayEntry(offset, [], Some(NoneInWindow)))
  {
  }

  /** A day without an error has one recommendation per forecast of the
      window, each inside it, and there is at least one. */
  lemma DayInWindow(m: Maths, src: Sources, spotId: int, prefs: Preferences, today: int,
                    start: Clock, end: Clock, offset: int)
    requires DayEntryOf(m, src, spotId, prefs, today, start, end, offset).Ok?
    requires DayEntryOf(m, src, spotId, prefs, today, start, end, offset).value.error.None?
    ensures ValidClock(start) && ValidClock(end)
    ensures var day := DayEntryOf(m, src, spotId, prefs, today, start, end, offset).value;
      var date := today + offset;
      var fs := src.forecasts(spotId, date);
      && |day.recommendations| == |InWindow(fs, WindowStart(date, start), WindowEnd(date, end))| > 0
      && forall h :: h in day.recommendations ==>
           h.forecast in fs && WindowStart(date, start) <= h.timestamp <= WindowEnd(date, end)
  {
    var date := today + offset;
    var fs := src.forecasts(spotId, date);
    var lo, hi := WindowStart(date, start), WindowEnd(date, end);
    var day := DayEntryOf(m, src, spotId, prefs, today, start, end, offset).value;
    assert ValidClock(start) && ValidClock(end);
    assert |fs| > 0;
    assert |InWindow(fs, lo, hi)| > 0;
    var hours := HourEntriesOf(m, InWindow(fs, lo, hi), prefs);
    assert hours.Ok?;
    assert day == DayEntry(offset, hours.value, None);
    HoursInWindow(m, fs, lo, hi, prefs);
  }

  /** The scored hours of a window are its forecasts, one each. */
  lemma HoursInWindow(m: Maths, fs: seq<Forecast>, lo: int, hi: int, prefs: Preferences)
    requires HourEntriesOf(m, InWindow(fs, lo, hi), prefs).Ok?
    ensures var hours := HourEntriesOf(m, InWindow(fs, lo, hi), prefs).value;
      && |hours| == |InWindow(fs, lo, hi)|
      && forall h :: h in hours ==> h.forecast in fs && lo <= h.timestamp <= hi
  {
    var inWindow := InWindow(fs, lo, hi);
    InWindowExact(fs, lo, hi);
    HourEntriesShape(m, inWindow, prefs);
    var hours := HourEntriesOf(m, inWindow, prefs).value;
    forall h | h in hours
      ensures h.forecast in fs && lo <= h.timestamp <= hi
    {
      var i :| 0 <= i < |hours| && hours[i] == h;
      assert inWindow[i] in inWindow;
    }
  }

  /** One entry per requested spot, in order, carrying its id: unknown
      spots are reported and skipped, spots without preferences are
      reported without days, and the others carry the chosen preferences
      and one day per offset. */
  lemma {:induction false} SpotEntriesShape(m: Maths, src: Sources, today: int, start: Clock, end: Clock,
                                            offsets: seq<int>, ids: seq<int>)
    requires SpotEntriesOf(m, src, today, start, end, offsets, ids).Ok?
    ensures var entries := SpotEntriesOf(m, src, today, start, end, offsets, ids).value;
      && |entries| == |ids|
      && forall i :: 0 <= i < |ids| ==>
           && entries[i].spotId == ids[i]
           && (entries[i].UnknownSpot? <==> ids[i] !in src.spots)
           && (entries[i].NoPreferences? <==> ids[i] in src.spots && PreferencesOf(src, ids[i]).None?)
           && (entries[i].Recommended? ==>
                 && Some(entries[i].preferences) == PreferencesOf(src, ids[i])
                 && |entries[i].days| == |offsets|)
  {
    if |ids| > 0 {
      var n := |ids| - 1;
      SpotEntriesShape(m, src, today, start, end, offsets, ids[..n]);
      var id := ids[n];
    }
  }

  /** Two ASCII digits parse as a two-digit decimal number. */
  lemma TwoDigits(s: string)
    requires |s| == 2 && IsDigit(s[0]) && IsDigit(s[1])
    ensures ParseInt(s) == Ok((s[0] as int - '0' as int) * 10 + (s[1] as int - '0' as int))
  {
    assert AllDigits(s);
    assert AllDigits(s[..1]) && s[..1][..0] == [];
    assert DigitsValue(s[..1]) == s[0] as int - '0' as int;
    assert DigitsValue(s) == DigitsValue(s[..1]) * 10 + (s[1] as int - '0' as int);
  }

  /** `HH:MM` with two-digit fields parses to its clock, and trimming
      `HH:MM:SS` gives `HH:MM`. */
  lemma ClockText(hh: string, mm: string, ss: string)
    requires |hh| == 2 && IsDigit(hh[0]) && IsDigit(hh[1])
    requires |mm| == 2 && IsDigit(mm[0]) && IsDigit(mm[1])
    requires ':' !in ss
    ensures TrimSeconds(hh + ":" + mm + ":" + ss) == hh + ":" + mm
    ensures TrimSeconds(hh + ":" + mm) == hh + ":" + mm
    ensures ParseClock(hh + ":" + mm) == Ok(Clock(
              (hh[0] as int - '0' as int) * 10 + (hh[1] as int - '0' as int),
              (mm[0] as int - '0' as int) * 10 + (mm[1] as int - '0' as int)))
  {
    assert ':' !in hh && ':' !in mm;
    var three := [hh, mm, ss];
    JoinSplit(three, ':');
    assert Join(three[1..][1..], ':') == ss;
    assert Join(three, ':') == hh + ":" + mm + ":" + ss;
    assert three[..2] == [hh, mm];
    assert Join([hh, mm][1..], ':') == mm;
    assert Join([hh, mm], ':') == hh + ":" + mm;
    JoinSplit([hh, mm], ':');
    TwoDigits(hh);
    TwoDigits(mm);
  }

  /** "25:00" parses, so the request passes the format check, but the
      first day processed raises the ValueError of `datetime.time`. */
  lemma OutOfRangeHour(m: Maths, src: Sources, spotId: int, prefs: Preferences, today: int, offset: int)
    ensures ParseWindow("25:00", "23:00") == Ok((Clock(25, 0), Clock(23, 0)))
    ensures DayEntryOf(m, src, spotId, prefs, today, Clock(25, 0), Clock(23, 0), offset) == Err(ValueError)
  {
    ClockText("25", "00", "");
    ClockText("23", "00", "");
    assert "25" + ":" + "00" == "25:00";
    assert "23" + ":" + "00" == "23:00";
  }

  // ---------------------------------------------------------------------
  // The loops

  method GenerateRecommendations(m: Maths, src: Sources, today: int, spotIds: seq<int>, offsets: seq<int>,
                                 startText: string, endText: string)
    returns (r: Response<seq<SpotEntry>>)
    ensures r == RecommendationsOf(m, src, today, spotIds, offsets, startText, endText)
  {
    if src.user.None? {
      return HttpError(404);
    }
    if !HasSurfLevel(src.user.value) {
      return HttpError(400);
    }
    var window := ParseWindow(startText, endText);
    if window.Err? {
      return HttpError(400);
    }
    var start, end := window.value.0, window.value.1;
    var entries: seq<SpotEntry> := [];
    for k := 0 to |spotIds|
      invariant SpotEntriesOf(m, src, today, start, end, offsets, spotIds[..k]) == Ok(entries)
    {
      assert spotIds[..k + 1][..k] == spotIds[..k];
      var entry := OneSpot(m, src, today, start, end, offsets, spotIds[k]);
      if entry.Err? {
        SpotFailureSticks(m, src, today, start, end, offsets, spotIds, k + 1);
        return Crash(entry.fault);
      }
      entries := entries + [entry.value];
    }
    assert spotIds[..|spotIds|] == spotIds;
    return Success(entries);
  }

  /** The body of the spot loop for one spot id. */
  method OneSpot(m: Maths, src: Sources, today: int, start: Clock, end: Clock, offsets: seq<int>,
                 spotId: int)
    returns (r: Result<SpotEntry>)
    ensures r == SpotEntryOf(m, src, today, start, end, offsets, spotId)
  {
    if spotId !in src.spots {
      return Ok(UnknownSpot(spotId));
    }
    var spot := src.spots[spotId];
    var prefs := Lookup(src.userPrefs, spotId);
    if prefs.None? {
      prefs := Lookup(src.modelPrefs, spotId);
    }
    if prefs.None? {
      prefs := Lookup(src.levelPrefs, spotId);
      if prefs.None? {
        return Ok(NoPreferences(spot.spotName, spotId));
      }
    }
    var days := SpotDays(m, src, spotId, prefs.value, today, start, end, offsets);
    if days.Err? {
      return Err(days.fault);
    }
    return Ok(Recommended(spot.spotName, spotId, prefs.value, days.value));
  }

  /** The loop over the day offsets of one spot. */
  method SpotDays(m: Maths, src: Sources, spotId: int, prefs: Preferences, today: int,
                  start: Clock, end: Clock, offsets: seq<int>)
    returns (r: Result<seq<DayEntry>>)
    ensures r == DayEntriesOf(m, src, spotId, prefs, today, start, end, offsets)
  {
    var days: seq<DayEntry> := [];
    for k := 0 to |offsets|
      invariant DayEntriesOf(m, src, spotId, prefs, today, start, end, offsets[..k]) == Ok(days)
    {
      assert offsets[..k + 1][..k] == offsets[..k];
      var day := OneDay(m, src, spotId, prefs, today, start, end, offsets[k]);
      if day.Err? {
        DayFailureSticks(m, src, spotId, prefs, today, start, end, offsets, k + 1);
        return Err(day.fault);
      }
      days := days + [day.value];
    }
    assert offsets[..|offsets|] == offsets;
    return Ok(days);
  }

  /** The body of the day loop for one offset. */
  method OneDay(m: Maths, src: Sources, spotId: int, prefs: Preferences, today: int,
                start: Clock, end: Clock, offset: int)
    returns (r: Result<DayEntry>)
    ensures r == DayEntryOf(m, src, spotId, prefs, today, start, end, offset)
  {
    if !ValidClock(start) || !ValidClock(end) {
      return Err(ValueError);
    }
    var date := today + offset;
    var forecasts := src.forecasts(spotId, date);
    if |forecasts| == 0 {
      return Ok(DayEntry(offset, [], Some(NoForecasts)));
    }
    var filtered := InWindow(forecasts, WindowStart(date, start), WindowEnd(date, end));
    if |filtered| == 0 {
      return Ok(DayEntry(offset, [], Some(NoneInWindow)));
    }
    var hours := HourlyRecommendations(m, filtered, prefs);
    if hours.Err? {
      return Err(hours.fault);
    }
    return Ok(DayEntry(offset, hours.value, None));
  }

  /** The loop scoring the forecasts inside the window. */
  method HourlyRecommendations(m: Maths, fs: seq<Forecast>, prefs: Preferences) returns (r: Result<seq<HourEntry>>)
    ensures r == HourEntriesOf(m, fs, prefs)
  {
    var hours: seq<HourEntry> := [];
    for k := 0 to |fs|
      invariant HourEntriesOf(m, fs[..k], prefs) == Ok(hours)
    {
      assert fs[..k + 1][..k] == fs[..k];
      var entry := fs[k];
      var tidePhase := Get(entry.tideType);
      var score := Suitability.CalculateSuitability(m, entry, prefs, tidePhase);
      if score.Err? {
        HourFailureSticks(m, fs, prefs, k + 1);
        return Err(score.fault);
      }
      hours := hours + [HourEntry(entry.timestamp, score.value.overall, score.value.detailed, entry, tidePhase)];
    }
    assert fs[..|fs|] == fs;
    return Ok(hours);
  }

  lemma {:induction false} HourFailureSticks(m: Maths, fs: seq<Forecast>, prefs: Preferences, k: nat)
    requires k <= |fs| && HourEntriesOf(m, fs[..k], prefs).Err?
    ensures HourEntriesOf(m, fs, prefs) == HourEntriesOf(m, fs[..k], prefs)
    decreases |fs| - k
  {
    if k < |fs| {
      assert fs[..k + 1][..k] == fs[..k];
      HourFailureSticks(m, fs, prefs, k + 1);
    } else {
      assert fs[..k] == fs;
    }
  }

  lemma {:induction false} DayFailureSticks(m: Maths, src: Sources, spotId: int, prefs: Preferences, today: int,
                                            start: Clock, end: Clock, offsets: seq<int>, k: nat)
    requires k <= |offsets| && DayEntriesOf(m, src, spotId, prefs, today, start, end, offsets[..k]).Err?
    ensures DayEntriesOf(m, src, spotId, prefs, today, start, end, offsets)
            == DayEntriesOf(m, src, spotId, prefs, today, start, end, offsets[..k])
    decreases |offsets| - k
  {
    if k < |offsets| {
      assert offsets[..k + 1][..k] == offsets[..k];
      DayFailureSticks(m, src, spotId, prefs, today, start, end, offsets, k + 1);
    } else {
      assert offsets[..k] == offsets;
    }
  }

  lemma {:induction false} SpotFailureSticks(m: Maths, src: Sources, today: int, start: Clock, end: Clock,
                                             offsets: seq<int>, ids: seq<int>, k: nat)
    requires k <= |ids| && SpotEntriesOf(m, src, today, start, end, offsets, ids[..k]).Err?
    ensures SpotEntriesOf(m, src, today, start, end, offsets, ids)
            == SpotEntriesOf(m, src, today, start, end, offsets, ids[..k])
    decreases |ids| - k
  {
    if k < |ids| {
      assert ids[..k + 1][..k] == ids[..k];
      SpotFailureSticks(m, src, today, start, end, offsets, ids, k + 1);
    } else {
      assert ids[..k] == ids;
    }
  }

  // ---------------------------------------------------------------------
  // `convert_numpy_to_python_types`

  /** A Python scalar. */
  datatype Atom = Int(i: int) | Float(r: real) | Bool(b: bool) | Str(s: string) | NoneValue

  /** The values the conversion walks: plain scalars, numpy scalars
      (`np.integer`, `np.floating`, `np.bool_`), one-dimensional numpy
      arrays, lists and dicts (keys with their values, in order). */
  datatype PyValue =
    | Plain(atom: Atom)
    | NumpyScalar(scalar: Atom)
    | NumpyArray(elems: seq<Atom>)
    | List(items: seq<PyValue>)
    | Dict(entries: seq<(string, PyValue)>)

  /** Arrays become lists of scalars (`tolist`), dicts and lists are
      converted element by element, numpy scalars become plain (`item`),
      anything else is returned as it is. */
  function Convert(v: PyValue): PyValue
  {
    match v
    case NumpyArray(elems) => List(seq(|elems|, i requires 0 <= i < |elems| => Plain(elems[i])))
    case Dict(entries) =>
      Dict(seq(|entries|, i requires 0 <= i < |entries| => (entries[i].0, Convert(entries[i].1))))
    case List(items) => List(seq(|items|, i requires 0 <= i < |items| => Convert(items[i])))
    case NumpyScalar(a) => Plain(a)
    case Plain(_) => v
  }

  /** No numpy value is left anywhere inside. */
  predicate NumpyFree(v: PyValue)
  {
    match v
    case Plain(_) => true
    case NumpyScalar(_) => false
    case NumpyArray(_) => false
    case List(items) => forall i :: 0 <= i < |items| ==> NumpyFree(items[i])
    case Dict(entries) => forall i :: 0 <= i < |entries| ==> NumpyFree(entries[i].1)
  }

  /** The conversion keeps every dict's keys in order and every list's
      length (an array's too), leaves no numpy value behind, and changes
      nothing in a value that has none. */
  lemma {:induction false} ConvertShape(v: PyValue)
    ensures v.Dict? ==>
              && Convert(v).Dict? && |Convert(v).entries| == |v.entries|
              && forall i :: 0 <= i < |v.entries| ==> Convert(v).entries[i].0 == v.entries[i].0
    ensures v.List? ==> Convert(v).List? && |Convert(v).items| == |v.items|
    ensures v.NumpyArray? ==> Convert(v).List? && |Convert(v).items| == |v.elems|
    ensures NumpyFree(Convert(v))
    ensures NumpyFree(v) ==> Convert(v) == v
  {
    match v
    case List(items) =>
      forall i | 0 <= i < |items|
        ensures NumpyFree(Convert(items[i])) && (NumpyFree(items[i]) ==> Convert(items[i]) == items[i])
      {
        ConvertShape(items[i]);
      }
    case Dict(entries) =>
      forall i | 0 <= i < |entries|
        ensures NumpyFree(Convert(entries[i].1)) && (NumpyFree(entries[i].1) ==> Convert(entries[i].1) == entries[i].1)
      {
        ConvertShape(entries[i].1);
      }
      if NumpyFree(v) {
        var c := Convert(v).entries;
        assert forall i :: 0 <= i < |entries| ==> c[i] == entries[i];
      }
    case _ =>
  }

  /** Converting twice is converting once. */
  lemma ConvertIdempotent(v: PyValue)
    ensures Convert(Convert(v)) == Convert(v)
  {
    ConvertShape(v);
    ConvertShape(Convert(v));
  }
}
