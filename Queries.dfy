/** The statement builders of `src/db/queries.py`: the SQL text and the
    list of bound values each write sends to PostgreSQL.  Placeholders are
    numbered `$1`, `$2`, ... and `$p` stands for the p-th bound value.
    Running the statements is not modelled; a builder returns the
    statements in the order the source executes them. */
module Queries {
  import opened Common
  import opened Text

  /** The names `src/db/queries.py` binds at module level: its imports
      and the functions it defines. */
  const ModuleNames: set<string> := {
    "os", "datetime", "asyncpg", "get_async_db_connection", "release_async_db_connection",
    "add_spot_to_db", "insert_forecast_data", "insert_extreme_tides_data", "get_all_spots",
    "get_spot_by_id", "get_forecasts_from_db", "get_tides_forecast_from_db", "create_user",
    "get_user_by_email", "get_user_by_id", "update_user_last_login", "update_user_profile",
    "get_user_surf_level", "get_spot_preferences", "get_level_spot_preferences",
    "create_user_recommendation_preset", "get_user_recommendation_presets",
    "get_default_user_recommendation_preset", "get_user_recommendation_preset_by_id",
    "update_user_recommendation_preset", "delete_user_recommendation_preset",
    "set_user_spot_preferences", "toggle_spot_preference_active"}

  /** A value bound to a placeholder. */
  datatype SqlValue =
    | Null
    | Flag(b: bool)
    | Int(i: int)
    | Float(r: real)
    | Str(s: string)
    | IntList(items: seq<int>)

  /** Python's truth value of a bound value. */
  predicate Truthy(v: SqlValue)
  {
    match v
    case Null => false
    case Flag(b) => b
    case Int(i) => i != 0
    case Float(r) => r != 0.0
    case Str(s) => s != ""
    case IntList(items) => items != []
  }

  datatype Statement = Statement(sql: string, args: seq<SqlValue>)

  /** A Python dict of column name to new value, in insertion order. */
  type Updates = seq<(string, SqlValue)>

  /** The number a placeholder refers to: the digits after `$`. */
  function PlaceholderNumber(s: string): Result<int>
  {
    if |s| > 0 && s[0] == '$' then ParseInt(s[1..]) else Err(ValueError)
  }

  /** `f"${p}"`, which reads back as p. */
  function Placeholder(p: nat): (s: string)
    ensures PlaceholderNumber(s) == Ok(p)
  {
    ParsePrinted(p);
    assert ("$" + NatToString(p))[1..] == NatToString(p);
    "$" + NatToString(p)
  }

  /** Executing with `args`, placeholder `ph` stands for `v`. */
  predicate Binds(ph: string, args: seq<SqlValue>, v: SqlValue)
  {
    match PlaceholderNumber(ph)
    case Ok(p) => 1 <= p <= |args| && args[p - 1] == v
    case Err(_) => false
  }

  /** `", ".join(parts)`. */
  function CommaJoin(parts: seq<string>): string
  {
    if |parts| == 0 then ""
    else if |parts| == 1 then parts[0]
    else parts[0] + ", " + CommaJoin(parts[1..])
  }

  /** The key of a dict entry. */
  function Keys(updates: Updates): (keys: seq<string>)
    ensures |keys| == |updates|
    ensures forall i :: 0 <= i < |updates| ==> keys[i] == updates[i].0
  {
    seq(|updates|, i requires 0 <= i < |updates| => updates[i].0)
  }

  /** `updates[key]` when the key is present (its first entry). */
  function Lookup(updates: Updates, key: string): (r: Option<SqlValue>)
    ensures r.None? <==> key !in Keys(updates)
    ensures r.Some? ==> (key, r.value) in updates
  {
    if |updates| == 0 then None
    else if updates[0].0 == key then Some(updates[0].1)
    else
      assert Keys(updates) == [updates[0].0] + Keys(updates[1..]);
      Lookup(updates[1..], key)
  }

  // ---------------------------------------------------------------------
  // The dynamic SET list shared by update_user_profile and
  // update_user_recommendation_preset.

  /** The `key = $n` assignments the loop appends, one per entry, numbered
      from 1 in the dict's order. */
  function Assignments(updates: Updates): (parts: seq<string>)
    ensures |parts| == |updates|
    ensures forall i :: 0 <= i < |updates| ==>
      parts[i] == updates[i].0 + " = " + Placeholder(i + 1)
  {
    if |updates| == 0 then []
    else
      var n := |updates| - 1;
      Assignments(updates[..n]) + [updates[n].0 + " = " + Placeholder(n + 1)]
  }

  /** The values the loop appends, in the dict's order. */
  function Values(updates: Updates): (values: seq<SqlValue>)
    ensures |values| == |updates|
    ensures forall i :: 0 <= i < |updates| ==> values[i] == updates[i].1
  {
    if |updates| == 0 then []
    else
      var n := |updates| - 1;
      Values(updates[..n]) + [updates[n].1]
  }

  /** The `for key, value in updates.items()` loop of both update builders. */
  method CollectAssignments(updates: Updates) returns (parts: seq<string>, values: seq<SqlValue>)
    ensures parts == Assignments(updates)
    ensures values == Values(updates)
  {
    parts := [];
    values := [];
    for i := 0 to |updates|
      invariant parts == Assignments(updates[..i])
      invariant values == Values(updates[..i])
    {
      var (key, value) := updates[i];
      parts := parts + [key + " = " + Placeholder(|values| + 1)];
      values := values + [value];
      assert updates[..i + 1][..i] == updates[..i];
    }
    assert updates[..|updates|] == updates;
  }

  /** Whatever values follow, the i-th assignment's placeholder stands for
      the i-th value of the dict. */
  lemma {:induction false} AssignmentsBind(updates: Updates, rest: seq<SqlValue>)
    ensures forall i :: 0 <= i < |updates| ==>
      Binds(Placeholder(i + 1), Values(updates) + rest, updates[i].1)
  {
    forall i | 0 <= i < |updates|
      ensures Binds(Placeholder(i + 1), Values(updates) + rest, updates[i].1)
    {
      assert (Values(updates) + rest)[i] == updates[i].1;
    }
  }

  // ---------------------------------------------------------------------
  // update_user_profile

  /** The statement `update_user_profile` executes; None when the dict is
      empty and nothing is sent. */
  function ProfileUpdate(userId: string, updates: Updates): Option<Statement>
  {
    if |updates| == 0 then None
    else
      Some(Statement(ProfileUpdateSql(Assignments(updates)), Values(updates) + [Str(userId)]))
  }

  /** The UPDATE of `users`: the assignments, then the user id bound just
      after their values. */
  function ProfileUpdateSql(parts: seq<string>): string
  {
    "UPDATE users SET " + CommaJoin(parts) + " WHERE user_id = " + Placeholder(|parts| + 1) + ";"
  }

  method UpdateUserProfile(userId: string, updates: Updates) returns (r: Option<Statement>)
    ensures r == ProfileUpdate(userId, updates)
  {
    if |updates| == 0 {
      return None;
    }
    var parts, values := CollectAssignments(updates);
    var sql := ProfileUpdateSql(parts);
    values := values + [Str(userId)];
    r := Some(Statement(sql, values));
  }

  /** No statement for an empty dict; otherwise the i-th assignment binds
      the i-th value and the WHERE placeholder, the last one, binds the
      user id. */
  lemma ProfileUpdateBinds(userId: string, updates: Updates)
    ensures |updates| == 0 <==> ProfileUpdate(userId, updates).None?
    ensures ProfileUpdate(userId, updates).Some? ==>
      var args := ProfileUpdate(userId, updates).value.args;
      && |args| == |updates| + 1
      && (forall i :: 0 <= i < |updates| ==> Binds(Placeholder(i + 1), args, updates[i].1))
      && Binds(Placeholder(|updates| + 1), args, Str(userId))
  {
    AssignmentsBind(updates, [Str(userId)]);
  }

  // ---------------------------------------------------------------------
  // update_user_recommendation_preset

  /** Clearing the user's other default presets, run first when the update
      makes this preset the default. */
  function ClearOtherDefaults(presetId: int, userId: string): Statement
  {
    Statement(ClearOtherDefaultsSql, [Str(userId), Int(presetId)])
  }

  const ClearOtherDefaultsSql: string :=
    "UPDATE user_recommendation_presets SET is_default = FALSE WHERE user_id = $1 AND is_default = TRUE AND preset_id != $2;"

  const IsDefaultColumn: string := "is_default"

  /** `'is_default' in updates and updates['is_default']`. */
  predicate MakesDefault(updates: Updates)
  {
    var v := Lookup(updates, IsDefaultColumn);
    v.Some? && Truthy(v.value)
  }

  /** The statements `update_user_recommendation_preset` executes, in order;
      none for an empty dict (it then answers False). */
  function PresetUpdate(presetId: int, userId: string, updates: Updates): seq<Statement>
  {
    if |updates| == 0 then []
    else
      var n := |updates|;
      var update := Statement(PresetUpdateSql(Assignments(updates)),
        Values(updates) + [Int(presetId), Str(userId)]);
      (if MakesDefault(updates) then [ClearOtherDefaults(presetId, userId)] else []) + [update]
  }

  /** The UPDATE of one preset: the assignments and the `updated_at` stamp,
      then the preset id and the user id bound after their values. */
  function PresetUpdateSql(parts: seq<string>): string
  {
    "UPDATE user_recommendation_presets SET " + CommaJoin(parts)
      + ", updated_at = NOW() WHERE preset_id = " + Placeholder(|parts| + 1)
      + " AND user_id = " + Placeholder(|parts| + 2) + ";"
  }

  method UpdateUserRecommendationPreset(presetId: int, userId: string, updates: Updates)
    returns (statements: seq<Statement>)
    ensures statements == PresetUpdate(presetId, userId, updates)
  {
    if |updates| == 0 {
      return [];
    }
    statements := [];
    if MakesDefault(updates) {
      statements := statements + [ClearOtherDefaults(presetId, userId)];
    }
    var parts, values := CollectAssignments(updates);
    var sql := PresetUpdateSql(parts);
    values := values + [Int(presetId), Str(userId)];
    statements := statements + [Statement(sql, values)];
    assert statements[|statements| - 1] == Statement(sql, values);
  }

  /** Nothing runs for an empty dict.  Otherwise the clearing statement runs
      first exactly when the dict sets a true `is_default`, and the update
      binds the i-th assignment to the i-th value, the preset id to $(n+1)
      and the user id to $(n+2). */
  lemma {:induction false} PresetUpdateBinds(presetId: int, userId: string, updates: Updates)
    ensures |updates| == 0 <==> PresetUpdate(presetId, userId, updates) == []
    ensures |updates| > 0 ==>
      var statements := PresetUpdate(presetId, userId, updates);
      var args := statements[|statements| - 1].args;
      var n := |updates|;
      && |statements| == (if MakesDefault(updates) then 2 else 1)
      && (MakesDefault(updates) ==> statements[0] == ClearOtherDefaults(presetId, userId))
      && |args| == n + 2
      && (forall i :: 0 <= i < n ==> Binds(Placeholder(i + 1), args, updates[i].1))
      && Binds(Placeholder(n + 1), args, Int(presetId))
      && Binds(Placeholder(n + 2), args, Str(userId))
  {
    var rest := [Int(presetId), Str(userId)];
    AssignmentsBind(updates, rest);
    var n := |updates|;
    assert (Values(updates) + rest)[n] == Int(presetId);
    assert (Values(updates) + rest)[n + 1] == Str(userId);
  }

  // ---------------------------------------------------------------------
  // set_user_spot_preferences

  /** `[f"${i+3}" for i in range(n)]`: the values follow user id and spot. */
  function UpsertPlaceholders(n: nat): (phs: seq<string>)
    ensures |phs| == n
    ensures forall i :: 0 <= i < n ==> phs[i] == Placeholder(i + 3)
  {
    seq(n, i requires 0 <= i < n => Placeholder(i + 3))
  }

  /** `[f"{key} = EXCLUDED.{key}" for key in preferences.keys()]`. */
  function ExcludedSetters(prefs: Updates): (setters: seq<string>)
    ensures |setters| == |prefs|
    ensures forall i :: 0 <= i < |prefs| ==>
      setters[i] == prefs[i].0 + " = EXCLUDED." + prefs[i].0
  {
    seq(|prefs|, i requires 0 <= i < |prefs| => prefs[i].0 + " = EXCLUDED." + prefs[i].0)
  }

  /** The upsert `set_user_spot_preferences` executes: insert the row, or
      overwrite the given columns of the existing (user, spot) row. */
  function SpotPreferencesUpsert(userId: string, spotId: int, prefs: Updates): Statement
  {
    Statement(UpsertSql(prefs), [Str(userId), Int(spotId)] + Values(prefs))
  }

  /** The column list, the placeholders from $3 on and the setters. */
  function UpsertSql(prefs: Updates): string
  {
    "INSERT INTO user_spot_preferences (user_id, spot_id, " + CommaJoin(Keys(prefs))
      + ") VALUES ($1, $2, " + CommaJoin(UpsertPlaceholders(|prefs|))
      + ") ON CONFLICT (user_id, spot_id) DO UPDATE SET "
      + CommaJoin(ExcludedSetters(prefs)) + ";"
  }

  /** Column i of the insert, at position i of the column list, gets the
      placeholder at position i of the VALUES list, and that placeholder
      binds the i-th value of the dict; $1 and $2 bind user and spot. */
  lemma {:induction false} UpsertBinds(userId: string, spotId: int, prefs: Updates)
    ensures
      var args := SpotPreferencesUpsert(userId, spotId, prefs).args;
      && |args| == |prefs| + 2
      && Binds(Placeholder(1), args, Str(userId))
      && Binds(Placeholder(2), args, Int(spotId))
      && (forall i :: 0 <= i < |prefs| ==>
            Keys(prefs)[i] == prefs[i].0 && Binds(UpsertPlaceholders(|prefs|)[i], args, prefs[i].1))
  {
    var args := SpotPreferencesUpsert(userId, spotId, prefs).args;
    forall i | 0 <= i < |prefs|
      ensures Binds(UpsertPlaceholders(|prefs|)[i], args, prefs[i].1)
    {
      assert args[i + 2] == prefs[i].1;
    }
  }

  // ---------------------------------------------------------------------
  // get_spot_preferences

  /** The lookup of a user's preferences for a spot: the model's row, or the
      user's own row when it is active; any other kind is a ValueError. */
  function SpotPreferencesQuery(userId: string, spotId: int, preferenceType: string): (r: Result<Statement>)
    ensures r.Ok? <==> preferenceType == "model" || preferenceType == "user"
    ensures r.Err? ==> r.fault == ValueError
    ensures r.Ok? ==> r.value.args == [Str(userId), Int(spotId)]
  {
    if preferenceType == "model" then Ok(Statement(SelectModelSql, [Str(userId), Int(spotId)]))
    else if preferenceType == "user" then Ok(Statement(SelectUserSql, [Str(userId), Int(spotId)]))
    else Err(ValueError)
  }

  const SelectModelSql: string :=
    "SELECT * FROM model_spot_preferences WHERE user_id = $1 AND spot_id = $2;"

  const SelectUserSql: string :=
    "SELECT * FROM user_spot_preferences WHERE user_id = $1 AND spot_id = $2" + ActiveFilter

  const ActiveFilter: string := " AND is_active = TRUE;"

  predicate EndsWith(s: string, suffix: string)
  {
    |suffix| <= |s| && s[|s| - |suffix|..] == suffix
  }

  /** Only the user's own preferences are filtered on `is_active`. */
  lemma ActiveFilterOnlyForUser(userId: string, spotId: int, preferenceType: string)
    requires SpotPreferencesQuery(userId, spotId, preferenceType).Ok?
    ensures EndsWith(SpotPreferencesQuery(userId, spotId, preferenceType).value.sql, ActiveFilter)
        <==> preferenceType == "user"
  {
    if preferenceType == "user" {
      var head := "SELECT * FROM user_spot_preferences WHERE user_id = $1 AND spot_id = $2";
      assert (head + ActiveFilter)[|head|..] == ActiveFilter;
    } else {
      assert SelectModelSql[|SelectModelSql| - 2] == '2';
    }
  }

  // ---------------------------------------------------------------------
  // create_user_recommendation_preset

  /** Clearing every default preset of the user, run before a new default
      preset is inserted. */
  function ClearDefaults(userId: string): Statement
  {
    Statement(ClearDefaultsSql, [Str(userId)])
  }

  const ClearDefaultsSql: string :=
    "UPDATE user_recommendation_presets SET is_default = FALSE WHERE user_id = $1 AND is_default = TRUE;"

  /** The statements `create_user_recommendation_preset` executes, in order. */
  function PresetInsert(userId: string, presetName: string, spotIds: seq<int>,
                        startTime: string, endTime: string, weekdays: Option<seq<int>>,
                        isDefault: bool): seq<Statement>
  {
    var days := if weekdays.Some? then weekdays.value else [];
    var insert := Statement(InsertPresetSql, [Str(userId), Str(presetName), IntList(spotIds), Str(startTime), Str(endTime),
       IntList(days), Flag(isDefault)]);
    (if isDefault then [ClearDefaults(userId)] else []) + [insert]
  }

  const InsertPresetSql: string :=
    "INSERT INTO user_recommendation_presets (user_id, preset_name, spot_ids, start_time, end_time, weekdays, is_default) VALUES ($1, $2, $3, $4, $5, $6, $7) RETURNING preset_id;"

  /** A missing weekdays list is stored as the empty list, a given one as
      given; a new default preset first clears the others. */
  lemma PresetInsertShape(userId: string, presetName: string, spotIds: seq<int>,
                          startTime: string, endTime: string, weekdays: Option<seq<int>>,
                          isDefault: bool)
    ensures
      var statements := PresetInsert(userId, presetName, spotIds, startTime, endTime, weekdays, isDefault);
      var args := statements[|statements| - 1].args;
      && |statements| == (if isDefault then 2 else 1)
      && (isDefault ==> statements[0] == ClearDefaults(userId))
      && |args| == 7
      && Binds(Placeholder(6), args, IntList(if weekdays.None? then [] else weekdays.value))
      && Binds(Placeholder(7), args, Flag(isDefault))
  {
  }
}
