/** The compass helpers of `src/utils/utils.py`: a bearing in degrees turned
    into one of the sixteen compass-point labels, and a label turned back
    into the bearing of its centre. */
module Compass {
  import opened Common
  import opened RealMath

  /** The sixteen points, clockwise from north, 22.5 degrees apart. */
  const Labels: seq<string> :=
    ["N", "NNE", "NE", "ENE", "E", "ESE", "SE", "SSE",
     "S", "SSW", "SW", "WSW", "W", "WNW", "NW", "NNW"]

  /** The bearing at the centre of each point. */
  const Degrees: map<string, real> :=
    map["N" := 0.0, "NNE" := 22.5, "NE" := 45.0, "ENE" := 67.5,
        "E" := 90.0, "ESE" := 112.5, "SE" := 135.0, "SSE" := 157.5,
        "S" := 180.0, "SSW" := 202.5, "SW" := 225.0, "WSW" := 247.5,
        "W" := 270.0, "WNW" := 292.5, "NW" := 315.0, "NNW" := 337.5]

  /** `int((degrees + 11.25) / 22.5) % 16`: `int` truncates toward zero and
      Python's `%` by a positive integer never gives a negative result. */
  function SectorIndex(d: real): (k: int)
    ensures 0 <= k < 16
  {
    Trunc((d + 11.25) / 22.5) % 16
  }

  /** `get_cardinal_direction`: "N/A" for a missing bearing, otherwise the
      label of the sector the bearing falls in. */
  function CardinalDirection(degrees: Option<real>): (r: string)
    ensures degrees.None? <==> r == "N/A"
    ensures degrees.Some? ==> r in Labels
  {
    match degrees
    case None => "N/A"
    case Some(d) => Labels[SectorIndex(d)]
  }

  /** ASCII upper case of one character. */
  function UpperChar(c: char): (u: char)
    ensures 'a' <= c <= 'z' ==> u as int == c as int - 32
    ensures !('a' <= c <= 'z') ==> u == c
  {
    if 'a' <= c <= 'z' then (c as int - 32) as char else c
  }

  /** `str.upper()` on ASCII text. */
  function Upper(s: string): (u: string)
    ensures |u| == |s|
    ensures forall i :: 0 <= i < |s| ==> u[i] == UpperChar(s[i])
  {
    seq(|s|, i requires 0 <= i < |s| => UpperChar(s[i]))
  }

  /** `cardinal_to_degrees`: None for None, otherwise the dictionary lookup
      of the upper-cased label, None for a label the table does not know. */
  function CardinalToDegrees(name: Option<string>): (r: Option<real>)
    ensures name.None? ==> r == None
    ensures name.Some? ==> (r.Some? <==> Upper(name.value) in Labels)
  {
    match name
    case None => None
    case Some(s) =>
      LabelsAreKeys();
      var key := Upper(s);
      if key in Degrees then Some(Degrees[key]) else None
  }

  /** The table's keys are exactly the sixteen labels. */
  lemma LabelsAreKeys()
    ensures forall l :: l in Degrees <==> l in Labels
  {
  }

  /** Each label's bearing is its position times 22.5 degrees. */
  lemma LabelBearing(i: int)
    requires 0 <= i < 16
    ensures Labels[i] in Degrees && Degrees[Labels[i]] == i as real * 22.5
  {
  }

  /** The bearing at the centre of sector i falls in sector i. */
  lemma {:induction false} CentreInSector(i: int)
    requires 0 <= i < 16
    ensures SectorIndex(i as real * 22.5) == i
  {
    assert (i as real * 22.5 + 11.25) / 22.5 == i as real + 0.5;
  }

  /** Text without lower-case letters is its own upper case. */
  lemma {:induction false} UpperKeeps(s: string)
    requires forall j :: 0 <= j < |s| ==> !('a' <= s[j] <= 'z')
    ensures Upper(s) == s
  {
    assert forall j :: 0 <= j < |s| ==> Upper(s)[j] == s[j];
  }

  /** Labels are already upper case. */
  lemma {:induction false} UpperOfLabel(i: int)
    requires 0 <= i < 16
    ensures Upper(Labels[i]) == Labels[i]
  {
    UpperKeeps(Labels[i]);
  }

  /** Round trip: every label, looked up and turned back into a direction,
      gives the same label. */
  lemma {:induction false} LabelRoundTrip(i: int)
    requires 0 <= i < 16
    ensures CardinalToDegrees(Some(Labels[i])) == Some(i as real * 22.5)
    ensures CardinalDirection(CardinalToDegrees(Some(Labels[i]))) == Labels[i]
  {
    UpperOfLabel(i);
    LabelBearing(i);
    CentreInSector(i);
  }

  /** Upper-casing twice changes nothing more. */
  lemma {:induction false} UpperIdempotent(s: string)
    ensures Upper(Upper(s)) == Upper(s)
  {
    forall j | 0 <= j < |s|
      ensures Upper(Upper(s))[j] == Upper(s)[j]
    {
    }
  }

  /** The lookup ignores case: a label and its upper-cased form give the
      same answer, and anything outside the table gives None. */
  lemma {:induction false} CaseInsensitive(s: string)
    ensures CardinalToDegrees(Some(s)) == CardinalToDegrees(Some(Upper(s)))
    ensures Upper(s) !in Labels ==> CardinalToDegrees(Some(s)) == None
  {
    UpperIdempotent(s);
  }

  /** Bearings near north, on either side of 0, are labelled "N"; so are
      small negative bearings, because `int` truncates toward zero. */
  lemma {:induction false} NorthSector(d: real)
    requires 0.0 <= d < 11.25 || 348.75 <= d < 360.0 || -33.75 < d < 0.0
    ensures CardinalDirection(Some(d)) == "N"
  {
    var k := Trunc((d + 11.25) / 22.5);
    if 348.75 <= d {
      assert 16.0 <= (d + 11.25) / 22.5 < 17.0;
      assert k == 16;
    } else {
      assert -1.0 < (d + 11.25) / 22.5 < 1.0;
      assert k == 0;
    }
  }

  lemma TurnInSectors(y: real)
    ensures (y + 360.0) / 22.5 == y / 22.5 + 16.0
  {
  }

  lemma TruncShift(x: real)
    requires 0.0 <= x
    ensures Trunc(x + 16.0) == Trunc(x) + 16
  {
  }

  lemma ModShift(k: int)
    ensures (k + 16) % 16 == k % 16
  {
  }

  lemma SectorTurn(d: real)
    requires 0.0 <= d
    ensures SectorIndex(d + 360.0) == SectorIndex(d)
  {
    var x := (d + 11.25) / 22.5;
    TurnInSectors(d + 11.25);
    assert (d + 360.0 + 11.25) / 22.5 == x + 16.0;
    TruncShift(x);
    ModShift(Trunc(x));
  }

  /** A whole turn more gives the same label, for non-negative bearings. */
  lemma {:induction false} FullTurn(d: real)
    requires 0.0 <= d
    ensures CardinalDirection(Some(d + 360.0)) == CardinalDirection(Some(d))
  {
    SectorTurn(d);
  }

  /** A bearing in [0, 360) lies within 11.25 degrees of the centre of
      its sector, going round the compass the short way. */
  lemma {:induction false} SectorGap(d: real)
    requires 0.0 <= d < 360.0
    ensures AngleGap(SectorIndex(d) as real * 22.5, d) <= 11.25
  {
    var x := (d + 11.25) / 22.5;
    var k := Trunc(x);
    assert x * 22.5 == d + 11.25;
    assert 0 <= k <= 16;
    if k < 16 {
      MulMonotone(22.5, k as real, x);
      MulStrict(22.5, x, k as real + 1.0);
      assert Abs(k as real * 22.5 - d) <= 11.25;
    } else {
      assert 348.75 <= d;
    }
  }

  /** The label chosen for a bearing in [0, 360) is the nearest point: its
      centre lies within 11.25 degrees of the bearing, going round the
      compass the short way. */
  lemma {:induction false} NearestPoint(d: real)
    requires 0.0 <= d < 360.0
    ensures CardinalToDegrees(Some(CardinalDirection(Some(d)))).Some?
    ensures AngleGap(CardinalToDegrees(Some(CardinalDirection(Some(d)))).value, d) <= 11.25
  {
    var i := SectorIndex(d);
    LabelRoundTrip(i);
    SectorGap(d);
  }
}
