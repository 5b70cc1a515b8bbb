/** The per-date ranking of `get_recommendations`
    (src/api/routes/recommendations.py): the best hourly session of each
    spot, ranked by score, and the dates in ascending order. */
module Ranking {
  import opened Calendar
  import opened Records

  /** An hourly entry of `daily_options`, and equally a `SpotDailySummary`:
      the spot, its name, the hour (`timestamp_utc`), the overall score,
      the detailed scores and the forecast row. */
  datatype Session = Session(
    spotId: int,
    spotName: string,
    hour: int,
    score: real,
    detailed: map<string, real>,
    forecast: Forecast)

  // ---------------------------------------------------------------------
  // Best session per spot (the `best_spot_sessions` dict).

  /** The dict: keys in insertion order, and the value of each key. */
  datatype Board = Board(order: seq<int>, best: map<int, Session>)

  predicate Distinct(s: seq<int>)
  {
    forall i, j :: 0 <= i < j < |s| ==> s[i] != s[j]
  }

  /** The keys are listed once each, in `order`. */
  predicate WellFormed(b: Board)
  {
    && Distinct(b.order)
    && (forall s :: s in b.order ==> s in b.best)
    && (forall s :: s in b.best ==> s in b.order)
    && (forall k :: 0 <= k < |b.order| ==> b.order[k] in b.best)
  }

  /** The dict after the loop has seen `recs`: a spot's entry is replaced
      only by a strictly higher score, and a new spot goes last. */
  function Tally(recs: seq<Session>): (b: Board)
    ensures WellFormed(b)
  {
    if |recs| == 0 then Board([], map[])
    else
      var b := Tally(recs[..|recs| - 1]);
      var rec := recs[|recs| - 1];
      if rec.spotId !in b.best then
        Board(b.order + [rec.spotId], b.best[rec.spotId := rec])
      else if rec.score > b.best[rec.spotId].score then
        Board(b.order, b.best[rec.spotId := rec])
      else b
  }

  /** `best_spot_sessions.values()`, in insertion order. */
  function Summaries(b: Board): (r: seq<Session>)
    requires WellFormed(b)
    ensures |r| == |b.order|
    ensures forall k :: 0 <= k < |r| ==> r[k] == b.best[b.order[k]]
  {
    seq(|b.order|, k requires 0 <= k < |b.order| => b.best[b.order[k]])
  }

  /** The loop over one date's hourly entries. */
  method BestSessions(recs: seq<Session>) returns (best: seq<Session>)
    ensures best == Summaries(Tally(recs))
  {
    var order: seq<int> := [];
    var table: map<int, Session> := map[];
    for i := 0 to |recs|
      invariant Tally(recs[..i]) == Board(order, table)
    {
      assert recs[..i + 1][..i] == recs[..i];
      var rec := recs[i];
      if rec.spotId !in table || rec.score > table[rec.spotId].score {
        if rec.spotId !in table {
          order := order + [rec.spotId];
        }
        table := table[rec.spotId := rec];
      }
    }
    assert recs[..|recs|] == recs;
    best := seq(|order|, k requires 0 <= k < |order| => table[order[k]]);
  }

  /** `recs[k]` is the kept entry of spot s: no earlier entry of s scores
      as much. */
  predicate EarliestBest(recs: seq<Session>, s: int, k: int)
  {
    && 0 <= k < |recs|
    && recs[k].spotId == s
    && forall j :: 0 <= j < k && recs[j].spotId == s ==> recs[j].score < recs[k].score
  }

  /** The dict has an entry for exactly the spots seen. */
  lemma {:induction false} TallyCoversSpots(recs: seq<Session>)
    ensures forall s :: s in Tally(recs).best <==> exists k :: 0 <= k < |recs| && recs[k].spotId == s
  {
    if |recs| > 0 {
      var n := |recs| - 1;
      TallyCoversSpots(recs[..n]);
      forall s | exists k :: 0 <= k < |recs| && recs[k].spotId == s
        ensures s in Tally(recs).best
      {
        var k :| 0 <= k < |recs| && recs[k].spotId == s;
        if k < n {
          assert recs[..n][k] == recs[k];
        }
      }
      forall s | s in Tally(recs).best
        ensures exists k :: 0 <= k < |recs| && recs[k].spotId == s
      {
        if s in Tally(recs[..n]).best {
          var k :| 0 <= k < n && recs[..n][k].spotId == s;
          assert recs[k].spotId == s;
        } else {
          assert recs[n].spotId == s;
        }
      }
    }
  }

  /** Each spot's entry scores at least as much as every entry of the
      spot. */
  lemma {:induction false} TallyKeepsMaximum(recs: seq<Session>)
    ensures forall k :: 0 <= k < |recs| ==>
              recs[k].spotId in Tally(recs).best && recs[k].score <= Tally(recs).best[recs[k].spotId].score
  {
    if |recs| > 0 {
      var n := |recs| - 1;
      var prefix := recs[..n];
      TallyKeepsMaximum(prefix);
      var b, rec := Tally(prefix), recs[n];
      KeptScores(b.best, rec);
      assert Tally(recs).best == if rec.spotId !in b.best || rec.score > b.best[rec.spotId].score
                                 then b.best[rec.spotId := rec] else b.best;
      forall k | 0 <= k < n
        ensures recs[k].spotId in Tally(recs).best && recs[k].score <= Tally(recs).best[recs[k].spotId].score
      {
        assert prefix[k] == recs[k];
      }
    }
  }

  /** One step of the loop keeps every spot, never lowers a kept score,
      and keeps the new entry's spot at no less than its score. */
  lemma KeptScores(best: map<int, Session>, rec: Session)
    ensures var best' := if rec.spotId !in best || rec.score > best[rec.spotId].score
                         then best[rec.spotId := rec] else best;
      && (forall s :: s in best ==> s in best' && best[s].score <= best'[s].score)
      && rec.spotId in best' && rec.score <= best'[rec.spotId].score
  {
  }

  /** Each spot's entry is one of its entries, and no earlier entry of the
      spot scores as much: on ties the earliest entry stays, since
      replacement needs a strictly higher score. */
  lemma {:induction false} TallyKeepsEarliest(recs: seq<Session>)
    ensures forall s :: s in Tally(recs).best ==>
              exists k :: EarliestBest(recs, s, k) && recs[k] == Tally(recs).best[s]
  {
    if |recs| > 0 {
      TallyKeepsEarliest(recs[..|recs| - 1]);
      forall s | s in Tally(recs).best
        ensures exists k :: EarliestBest(recs, s, k) && recs[k] == Tally(recs).best[s]
      {
        EarliestStep(recs, s);
      }
    }
  }

  /** The step of `TallyKeepsEarliest` for one spot. */
  lemma EarliestStep(recs: seq<Session>, s: int)
    requires |recs| > 0 && s in Tally(recs).best
    requires var prefix := recs[..|recs| - 1];
      forall t :: t in Tally(prefix).best ==>
        exists k :: EarliestBest(prefix, t, k) && prefix[k] == Tally(prefix).best[t]
    ensures exists k :: EarliestBest(recs, s, k) && recs[k] == Tally(recs).best[s]
  {
    var n := |recs| - 1;
    var prefix := recs[..n];
    var b := Tally(prefix);
    var rec := recs[n];
    if s == rec.spotId && (s !in b.best || rec.score > b.best[s].score) {
      assert Tally(recs).best[s] == rec;
      TallyKeepsMaximum(prefix);
      forall j | 0 <= j < n && recs[j].spotId == s
        ensures recs[j].score < rec.score
      {
        assert prefix[j] == recs[j];
      }
      assert EarliestBest(recs, s, n);
    } else {
      assert s in b.best && Tally(recs).best[s] == b.best[s];
      var k :| EarliestBest(prefix, s, k) && prefix[k] == b.best[s];
      forall j | 0 <= j < k && recs[j].spotId == s
        ensures recs[j].score < recs[k].score
      {
        assert prefix[j] == recs[j];
      }
      assert EarliestBest(recs, s, k);
    }
  }

  /** The summaries name each spot once. */
  lemma SummariesDistinct(recs: seq<Session>)
    ensures forall i, j :: 0 <= i < j < |Summaries(Tally(recs))| ==>
              Summaries(Tally(recs))[i].spotId != Summaries(Tally(recs))[j].spotId
  {
    var b := Tally(recs);
    TallyKeepsEarliest(recs);
    forall s | s in b.best
      ensures b.best[s].spotId == s
    {
      var k :| EarliestBest(recs, s, k) && recs[k] == b.best[s];
    }
  }

  // ---------------------------------------------------------------------
  // `sorted(..., key=best_overall_score, reverse=True)`: a stable sort
  // into non-increasing score.

  /** Inserts x after every entry scoring at least as much. */
  function Insert(ranked: seq<Session>, x: Session): seq<Session>
  {
    if |ranked| == 0 then [x]
    else if ranked[0].score >= x.score then [ranked[0]] + Insert(ranked[1..], x)
    else [x] + ranked
  }

  function RankDesc(s: seq<Session>): seq<Session>
  {
    if |s| == 0 then [] else Insert(RankDesc(s[..|s| - 1]), s[|s| - 1])
  }

  predicate NonIncreasing(s: seq<Session>)
  {
    forall i, j :: 0 <= i < j < |s| ==> s[i].score >= s[j].score
  }

  /** The entries scoring exactly v, in order. */
  function WithScore(s: seq<Session>, v: real): seq<Session>
  {
    if |s| == 0 then []
    else WithScore(s[..|s| - 1], v) + (if s[|s| - 1].score == v then [s[|s| - 1]] else [])
  }

  lemma {:induction false} WithScoreConcat(a: seq<Session>, b: seq<Session>, v: real)
    ensures WithScore(a + b, v) == WithScore(a, v) + WithScore(b, v)
  {
    if |b| > 0 {
      assert (a + b)[..|a + b| - 1] == a + b[..|b| - 1];
      WithScoreConcat(a, b[..|b| - 1], v);
    } else {
      assert a + b == a;
    }
  }

  lemma {:induction false} InsertSorted(ranked: seq<Session>, x: Session)
    requires NonIncreasing(ranked)
    ensures NonIncreasing(Insert(ranked, x))
    ensures forall e :: e in Insert(ranked, x) ==> e in ranked || e == x
  {
    if |ranked| > 0 && ranked[0].score >= x.score {
      var rest := Insert(ranked[1..], x);
      InsertSorted(ranked[1..], x);
      assert Insert(ranked, x) == [ranked[0]] + rest;
      forall i | 0 <= i < |rest|
        ensures ranked[0].score >= rest[i].score
      {
        assert rest[i] in rest;
      }
    }
  }

  lemma {:induction false} InsertPermutes(ranked: seq<Session>, x: Session)
    ensures multiset(Insert(ranked, x)) == multiset(ranked) + multiset{x}
  {
    if |ranked| > 0 && ranked[0].score >= x.score {
      InsertPermutes(ranked[1..], x);
      assert ranked == [ranked[0]] + ranked[1..];
    }
  }

  lemma {:induction false} InsertStable(ranked: seq<Session>, x: Session, v: real)
    requires NonIncreasing(ranked)
    ensures WithScore(Insert(ranked, x), v) == WithScore(ranked + [x], v)
  {
    if |ranked| > 0 && ranked[0].score >= x.score {
      var rest := Insert(ranked[1..], x);
      InsertStable(ranked[1..], x, v);
      WithScoreConcat([ranked[0]], rest, v);
      WithScoreConcat([ranked[0]], ranked[1..] + [x], v);
      assert ranked + [x] == [ranked[0]] + (ranked[1..] + [x]);
    } else if |ranked| > 0 {
      // x scores above every entry, so none scores the same as x.
      WithScoreConcat([x], ranked, v);
      WithScoreConcat(ranked, [x], v);
      if x.score == v {
        NoneScoring(ranked, v);
      }
    } else {
      assert ranked + [x] == [x];
    }
  }

  /** Entries all scoring below v contribute nothing to `WithScore`. */
  lemma {:induction false} NoneScoring(s: seq<Session>, v: real)
    requires NonIncreasing(s) && (|s| > 0 ==> s[0].score < v)
    ensures WithScore(s, v) == []
  {
    if |s| > 0 {
      NoneScoring(s[..|s| - 1], v);
      assert s[|s| - 1].score <= s[0].score;
    }
  }

  /** The ranking is non-increasing in score, is a permutation of its
      input, and keeps the input order among entries of equal score
      (stability). */
  lemma RankDescShape(s: seq<Session>)
    ensures NonIncreasing(RankDesc(s))
    ensures multiset(RankDesc(s)) == multiset(s)
    ensures forall v :: WithScore(RankDesc(s), v) == WithScore(s, v)
  {
    RankDescSorted(s);
    RankDescPermutes(s);
    forall v
      ensures WithScore(RankDesc(s), v) == WithScore(s, v)
    {
      RankDescStable(s, v);
    }
  }

  lemma {:induction false} RankDescSorted(s: seq<Session>)
    ensures NonIncreasing(RankDesc(s))
  {
    if |s| > 0 {
      RankDescSorted(s[..|s| - 1]);
      InsertSorted(RankDesc(s[..|s| - 1]), s[|s| - 1]);
    }
  }

  lemma {:induction false} RankDescPermutes(s: seq<Session>)
    ensures multiset(RankDesc(s)) == multiset(s)
  {
    if |s| > 0 {
      var prefix := s[..|s| - 1];
      RankDescPermutes(prefix);
      InsertPermutes(RankDesc(prefix), s[|s| - 1]);
      assert s == prefix + [s[|s| - 1]];
    }
  }

  lemma {:induction false} RankDescStable(s: seq<Session>, v: real)
    ensures WithScore(RankDesc(s), v) == WithScore(s, v)
  {
    if |s| > 0 {
      var prefix := s[..|s| - 1];
      var x := s[|s| - 1];
      RankDescStable(prefix, v);
      RankDescSorted(prefix);
      calc {
        WithScore(RankDesc(s), v);
        WithScore(Insert(RankDesc(prefix), x), v);
        { InsertStable(RankDesc(prefix), x, v); }
        WithScore(RankDesc(prefix) + [x], v);
        { WithScoreConcat(RankDesc(prefix), [x], v); }
        WithScore(prefix, v) + WithScore([x], v);
        { WithScoreConcat(prefix, [x], v); }
        WithScore(prefix + [x], v);
        { assert s == prefix + [x]; }
        WithScore(s, v);
      }
    }
  }

  predicate DistinctSpots(s: seq<Session>)
  {
    forall i, j :: 0 <= i < j < |s| ==> s[i].spotId != s[j].spotId
  }

  lemma {:induction false} InsertDistinctSpots(ranked: seq<Session>, x: Session)
    requires NonIncreasing(ranked) && DistinctSpots(ranked)
    requires forall e :: e in ranked ==> e.spotId != x.spotId
    ensures DistinctSpots(Insert(ranked, x))
  {
    if |ranked| > 0 && ranked[0].score >= x.score {
      InsertDistinctSpots(ranked[1..], x);
      InsertSorted(ranked[1..], x);
      var rest := Insert(ranked[1..], x);
      forall i | 0 <= i < |rest|
        ensures rest[i].spotId != ranked[0].spotId
      {
        assert rest[i] in rest;
        if rest[i] != x {
          var k :| 0 <= k < |ranked[1..]| && ranked[1..][k] == rest[i];
          assert ranked[k + 1] == rest[i];
        }
      }
    }
  }

  /** Ranking a list naming each spot once names each spot once. */
  lemma {:induction false} RankDescDistinctSpots(s: seq<Session>)
    requires DistinctSpots(s)
    ensures DistinctSpots(RankDesc(s))
  {
    if |s| > 0 {
      var prefix := s[..|s| - 1];
      RankDescDistinctSpots(prefix);
      RankDescShape(prefix);
      forall e | e in RankDesc(prefix)
        ensures e.spotId != s[|s| - 1].spotId
      {
        assert e in multiset(prefix);
        var k :| 0 <= k < |prefix| && prefix[k] == e;
      }
      InsertDistinctSpots(RankDesc(prefix), s[|s| - 1]);
    }
  }

  // ---------------------------------------------------------------------
  // `sorted(daily_options.items())`: the dates, which are distinct keys,
  // in ascending order.

  function InsertDate(sorted: seq<int>, d: int): seq<int>
  {
    if |sorted| == 0 then [d]
    else if sorted[0] <= d then [sorted[0]] + InsertDate(sorted[1..], d)
    else [d] + sorted
  }

  function SortDates(ds: seq<int>): seq<int>
  {
    if |ds| == 0 then [] else InsertDate(SortDates(ds[..|ds| - 1]), ds[|ds| - 1])
  }

  predicate Ascending(s: seq<int>)
  {
    forall i, j :: 0 <= i < j < |s| ==> s[i] < s[j]
  }

  lemma {:induction false} InsertDateShape(sorted: seq<int>, d: int)
    requires Ascending(sorted) && d !in sorted
    ensures Ascending(InsertDate(sorted, d))
    ensures forall e :: e in InsertDate(sorted, d) <==> e in sorted || e == d
  {
    if |sorted| > 0 && sorted[0] <= d {
      InsertDateShape(sorted[1..], d);
      assert sorted == [sorted[0]] + sorted[1..];
      forall i | 0 < i < |InsertDate(sorted, d)|
        ensures sorted[0] < InsertDate(sorted, d)[i]
      {
        assert InsertDate(sorted, d)[i] in InsertDate(sorted[1..], d);
      }
    }
  }

  /** Distinct dates come out strictly ascending, each exactly once. */
  lemma {:induction false} SortDatesShape(ds: seq<int>)
    requires Distinct(ds)
    ensures Ascending(SortDates(ds))
    ensures forall e :: e in SortDates(ds) <==> e in ds
  {
    if |ds| > 0 {
      var prefix := ds[..|ds| - 1];
      SortDatesShape(prefix);
      assert ds == prefix + [ds[|ds| - 1]];
      InsertDateShape(SortDates(prefix), ds[|ds| - 1]);
    }
  }
}
