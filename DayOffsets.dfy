/** `weekdays_to_offsets` (src/api/routes/recommendations.py): which of
    the next seven days, counted from today, fall on requested weekdays. */
module DayOffsets {
  import opened Calendar

  /** The offsets i < n, ascending, whose day `(first + i) % 7` is
      requested: what the loop has appended after n rounds. */
  function Matching(weekdays: seq<int>, first: int, n: nat): seq<int>
  {
    if n == 0 then []
    else Matching(weekdays, first, n - 1)
         + (if (first + n - 1) % 7 in weekdays then [n - 1] else [])
  }

  /** The offsets for a weekday list and today's day number; the loop
      starts from `(today.weekday() + 1) % 7`, which numbers the days from
      Sunday = 0. */
  function OffsetsOf(weekdays: seq<int>, today: int): seq<int>
  {
    if |weekdays| == 0 then [0]
    else
      var found := Scan(weekdays, today);
      if |found| == 0 then [0] else found
  }

  /** The seven-day scan starting tomorrow's weekday number. */
  function Scan(weekdays: seq<int>, today: int): seq<int>
  {
    Matching(weekdays, (Weekday(today) + 1) % 7, 7)
  }

  /** `weekdays_to_offsets`, with today's date passed in. */
  method WeekdaysToOffsets(weekdays: seq<int>, today: int) returns (offsets: seq<int>)
    ensures offsets == OffsetsOf(weekdays, today)
  {
    if |weekdays| == 0 {
      return [0];
    }
    var first := Weekday(today);
    first := (first + 1) % 7;
    offsets := [];
    for i := 0 to 7
      invariant offsets == Matching(weekdays, first, i)
    {
      var future := (first + i) % 7;
      if future in weekdays {
        offsets := offsets + [i];
      }
    }
    if |offsets| == 0 {
      offsets := [0];
    }
  }

  predicate StrictlyIncreasing(s: seq<int>)
  {
    forall i, j :: 0 <= i < j < |s| ==> s[i] < s[j]
  }

  /** The date `today + i` falls on a requested weekday (Sunday = 0). */
  predicate Requested(weekdays: seq<int>, today: int, i: int)
  {
    SundayWeekday(today + i) in weekdays
  }

  /** The loop's output is strictly increasing, within [0, n), and holds
      exactly the offsets whose day is requested. */
  lemma {:induction false} MatchingShape(weekdays: seq<int>, first: int, n: nat)
    ensures StrictlyIncreasing(Matching(weekdays, first, n))
    ensures forall i :: i in Matching(weekdays, first, n) <==>
              0 <= i < n && (first + i) % 7 in weekdays
  {
    if n > 0 {
      MatchingShape(weekdays, first, n - 1);
      var prev := Matching(weekdays, first, n - 1);
      assert forall k :: 0 <= k < |prev| ==> prev[k] in prev && prev[k] < n - 1;
    }
  }

  /** The day `today + i` is weekday `((today.weekday() + 1) % 7 + i) % 7`
      when Sunday is 0. */
  lemma SundayNumbering(today: int, i: int)
    ensures ((Weekday(today) + 1) % 7 + i) % 7 == SundayWeekday(today + i)
  {
    var w := (today + 3) % 7;
    var q := (today + 3) / 7;
    assert today + 3 == 7 * q + w;
    var v := (w + 1) % 7;
    assert w + 1 == 7 * ((w + 1) / 7) + v;
    assert v + i == today + 4 + i - 7 * (q + (w + 1) / 7);
  }

  /** The seven-day scan keeps exactly the offsets whose date falls on a
      requested weekday. */
  lemma ScanKeepsRequested(weekdays: seq<int>, today: int)
    ensures StrictlyIncreasing(Scan(weekdays, today))
    ensures forall i :: i in Scan(weekdays, today) ==> 0 <= i < 7 && Requested(weekdays, today, i)
    ensures forall i :: 0 <= i < 7 && Requested(weekdays, today, i) ==> i in Scan(weekdays, today)
  {
    var first := (Weekday(today) + 1) % 7;
    MatchingShape(weekdays, first, 7);
    forall i | i in Matching(weekdays, first, 7) || (0 <= i < 7 && Requested(weekdays, today, i))
      ensures (first + i) % 7 == SundayWeekday(today + i)
    {
      SundayNumbering(today, i);
    }
  }

  /** The offsets are never empty, strictly increasing and within [0, 6];
      without weekdays, or when no requested weekday falls in the next
      seven days, they are [0]. */
  lemma OffsetsShape(weekdays: seq<int>, today: int)
    ensures |OffsetsOf(weekdays, today)| > 0
    ensures StrictlyIncreasing(OffsetsOf(weekdays, today))
    ensures forall i :: i in OffsetsOf(weekdays, today) ==> 0 <= i <= 6
    ensures |weekdays| == 0 ==> OffsetsOf(weekdays, today) == [0]
    ensures (forall i :: 0 <= i < 7 ==> !Requested(weekdays, today, i)) ==>
              OffsetsOf(weekdays, today) == [0]
  {
    ScanKeepsRequested(weekdays, today);
    var found := Scan(weekdays, today);
    if |found| > 0 {
      assert found[0] in found;
    }
  }

  /** When some requested weekday falls in the next seven days, offset i is
      present exactly when the date today + i falls on a requested weekday
      (Sunday = 0). */
  lemma OffsetsExact(weekdays: seq<int>, today: int)
    requires |weekdays| > 0 && exists i :: 0 <= i < 7 && Requested(weekdays, today, i)
    ensures forall i :: i in OffsetsOf(weekdays, today) <==> 0 <= i < 7 && Requested(weekdays, today, i)
  {
    ScanKeepsRequested(weekdays, today);
    var i :| 0 <= i < 7 && Requested(weekdays, today, i);
    assert i in Scan(weekdays, today);
  }

  /** Some i in [0, 7) moves `first` onto the weekday w. */
  lemma WeekdayComesRound(first: int, w: int)
    requires 0 <= w <= 6
    ensures 0 <= (w - first) % 7 < 7 && (first + (w - first) % 7) % 7 == w
  {
    var i := (w - first) % 7;
    assert w - first == 7 * ((w - first) / 7) + i;
  }

  /** Every weekday 0..6 comes round within seven days, so each requested
      weekday in 0..6 gets an offset on which it falls. */
  lemma ValidWeekdaysAllReached(weekdays: seq<int>, today: int)
    requires |weekdays| > 0 && forall w :: w in weekdays ==> 0 <= w <= 6
    ensures forall w :: w in weekdays ==>
              exists i :: i in OffsetsOf(weekdays, today) && SundayWeekday(today + i) == w
  {
    ScanKeepsRequested(weekdays, today);
    forall w | w in weekdays
      ensures exists i :: i in OffsetsOf(weekdays, today) && SundayWeekday(today + i) == w
    {
      var first := (Weekday(today) + 1) % 7;
      WeekdayComesRound(first, w);
      var i := (w - first) % 7;
      SundayNumbering(today, i);
      assert Requested(weekdays, today, i);
      assert i in Scan(weekdays, today);
      assert i in OffsetsOf(weekdays, today);
    }
  }

  /** On Wednesday 2025-01-01 a request for Sundays gives offset 4
      (2025-01-05), and one for Wednesdays offset 0. */
  lemma OffsetsExample()
    ensures OffsetsOf([0], 20089) == [4]
    ensures OffsetsOf([3], 20089) == [0]
  {
    KnownDates();
    assert Scan([0], 20089) == Matching([0], 3, 7);
    assert Matching([0], 3, 4) == [];
    assert Matching([0], 3, 7) == [4];
    assert Scan([3], 20089) == Matching([3], 3, 7);
    assert Matching([3], 3, 1) == [0];
    assert Matching([3], 3, 7) == [0];
  }
}
