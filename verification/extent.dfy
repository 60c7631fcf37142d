/** The temporal extent of a dataset: every offering contributes the time
    points its phenomenon time sets, and the extent spans their minimum and
    maximum, collapsing to one instant when the two coincide. */
module TemporalExtent {
  import opened Wrappers
  import opened Sos

  /** `x` is a bound that the phenomenon time actually sets. */
  predicate IsSetBound(t: Option<Time>, x: int) {
    match t
    case Some(Instant(v)) => v == Some(x)
    case Some(Period(s, e)) => s == Some(x) || e == Some(x)
    case None => false
  }

  /** How many bounds the phenomenon time sets. */
  function SetBoundCount(t: Option<Time>): nat {
    match t
    case Some(Instant(v)) => if v.Some? then 1 else 0
    case Some(Period(s, e)) => (if s.Some? then 1 else 0) + (if e.Some? then 1 else 0)
    case None => 0
  }

  /** The points one offering contributes: the value of an instant, the set
      bounds of a period (start before end), nothing otherwise. */
  function PointsOf(t: Option<Time>): (r: seq<int>)
    ensures |r| == SetBoundCount(t)
    ensures forall x :: x in r <==> IsSetBound(t, x)
  {
    match t
    case Some(Instant(v)) =>
      if v.Some? then [v.value] else []
    case Some(Period(s, e)) =>
      if s.Some? && e.Some? then [s.value, e.value]
      else if s.Some? then [s.value]
      else if e.Some? then [e.value]
      else []
    case None => []
  }

  /** All points, offering by offering. */
  function TimePoints(offerings: seq<Offering>): (r: seq<int>)
    ensures forall x :: x in r <==> exists i :: 0 <= i < |offerings| && IsSetBound(offerings[i].phenomenonTime, x)
  {
    if offerings == [] then []
    else
      var rest := TimePoints(offerings[1..]);
      assert forall i :: 1 <= i < |offerings| ==> offerings[i] == offerings[1..][i - 1];
      PointsOf(offerings[0].phenomenonTime) + rest
  }

  function Min(s: seq<int>): (r: int)
    requires |s| > 0
    ensures r in s && forall x :: x in s ==> r <= x
  {
    if |s| == 1 then s[0]
    else
      var m := Min(s[1..]);
      assert forall x :: x in s ==> x == s[0] || x in s[1..];
      if s[0] <= m then s[0] else m
  }

  function Max(s: seq<int>): (r: int)
    requires |s| > 0
    ensures r in s && forall x :: x in s ==> x <= r
  {
    if |s| == 1 then s[0]
    else
      var m := Max(s[1..]);
      assert forall x :: x in s ==> x == s[0] || x in s[1..];
      if s[0] >= m then s[0] else m
  }

  /** A `time:Instant` or a `time:Interval` with distinct ends. */
  datatype Extent = At(instant: int) | Between(begin: int, end: int)

  /** Within the extent: the time lies between its begin and end. */
  predicate Covers(e: Extent, x: int) {
    match e
    case At(i) => x == i
    case Between(b, f) => b <= x <= f
  }

  /** Computes the extent from the contributed points. There is none exactly
      when no point exists; otherwise it covers every point and its ends are
      points themselves, so it is the tightest such extent, and it is an
      instant exactly when all points coincide. */
  function ExtentOf(offerings: seq<Offering>): (r: Option<Extent>)
    ensures r.None? <==> |TimePoints(offerings)| == 0
    ensures r.Some? ==> forall x :: x in TimePoints(offerings) ==> Covers(r.value, x)
    ensures r.Some? && r.value.At? ==> r.value.instant in TimePoints(offerings)
    ensures r.Some? && r.value.Between? ==>
      && r.value.begin < r.value.end
      && r.value.begin in TimePoints(offerings)
      && r.value.end in TimePoints(offerings)
  {
    var points := TimePoints(offerings);
    if |points| == 0 then None
    else
      var lo := Min(points);
      var hi := Max(points);
      if lo == hi then Some(At(lo)) else Some(Between(lo, hi))
  }

  /** When every offering has the same instant-like period [t, t], the
      extent collapses to the single instant t. */
  lemma {:induction false} EqualPointsGiveInstant(offerings: seq<Offering>, t: int)
    requires |TimePoints(offerings)| > 0
    requires forall x :: x in TimePoints(offerings) ==> x == t
    ensures ExtentOf(offerings) == Some(At(t))
  {
  }

  /** Two offerings with periods contribute their four ends, in order. */
  lemma TwoPeriodPoints(o1: Offering, o2: Offering, t1: int, t2: int, t3: int, t4: int)
    requires o1.phenomenonTime == Some(Period(Some(t1), Some(t2)))
    requires o2.phenomenonTime == Some(Period(Some(t3), Some(t4)))
    ensures TimePoints([o1, o2]) == [t1, t2, t3, t4]
  {
    assert [o1, o2][1..] == [o2];
    assert TimePoints([o2]) == [t3, t4] by {
      assert [o2][1..] == [];
    }
  }

  /** Two offerings with periods [t1, t2] and [t3, t4] give the interval
      from the earlier start to the later end, unless all four coincide. */
  lemma TwoPeriods(o1: Offering, o2: Offering, t1: int, t2: int, t3: int, t4: int)
    requires o1.phenomenonTime == Some(Period(Some(t1), Some(t2))) && t1 <= t2
    requires o2.phenomenonTime == Some(Period(Some(t3), Some(t4))) && t3 <= t4
    requires (if t1 <= t3 then t1 else t3) < (if t2 >= t4 then t2 else t4)
    ensures ExtentOf([o1, o2]) == Some(Between(if t1 <= t3 then t1 else t3, if t2 >= t4 then t2 else t4))
  {
    TwoPeriodPoints(o1, o2, t1, t2, t3, t4);
    var pts := [t1, t2, t3, t4];
    var r := ExtentOf([o1, o2]);
    assert Covers(r.value, pts[0]) && Covers(r.value, pts[1]) && Covers(r.value, pts[2]) && Covers(r.value, pts[3]);
    if r.value.Between? {
      assert r.value.begin in pts && r.value.end in pts;
    }
  }
}
