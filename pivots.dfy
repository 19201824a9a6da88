/** Fibonacci pivots of capintel/strategy/my_strategy.py and the choice of the
    previous completed calendar period they are computed from. */
module Pivots {
  import opened Wrappers
  import opened Indicators

  /** High, low and close of one period. */
  datatype Hlc = Hlc(h: real, l: real, c: real)

  /** The pivot point P with three resistances above and three supports below. */
  datatype PivotSet = PivotSet(p: real, r1: real, r2: real, r3: real, s1: real, s2: real, s3: real)

  /** `_fibo_pivots`: P is the typical price and the levels sit at the
      Fibonacci fractions 0.382, 0.618 and 1 of the range H - L around it. */
  function FiboPivots(x: Hlc): (piv: PivotSet)
    ensures piv.p == (x.h + x.l + x.c) / 3.0
    ensures piv.r1 - piv.p == piv.p - piv.s1 && piv.r2 - piv.p == piv.p - piv.s2
    ensures piv.r3 - piv.p == piv.p - piv.s3 && piv.r3 - piv.p == x.h - x.l
    ensures x.h > x.l ==> piv.s3 < piv.s2 < piv.s1 < piv.p < piv.r1 < piv.r2 < piv.r3
    ensures x.h == x.l ==> piv.s3 == piv.s2 == piv.s1 == piv.p == piv.r1 == piv.r2 == piv.r3
  {
    var p := (x.h + x.l + x.c) / 3.0;
    var d := x.h - x.l;
    PivotSet(p, p + 0.382 * d, p + 0.618 * d, p + 1.000 * d, p - 0.382 * d, p - 0.618 * d, p - 1.000 * d)
  }

  /** A worked example: H = 110, L = 90, C = 100. */
  lemma FiboPivotsExample(x: Hlc)
    requires x == Hlc(110.0, 90.0, 100.0)
    ensures FiboPivots(x) == PivotSet(100.0, 107.64, 112.36, 120.0, 92.36, 87.64, 80.0)
  {
    var piv := FiboPivots(x);
    assert piv.p == 100.0;
  }

  /** The calendar period whose pivots are taken. */
  datatype Period = Week | Month | Year

  /** The fallback window of trading days per period. */
  function Window(period: Period): (w: nat)
    ensures w > 0
    ensures period == Week ==> w == 5
    ensures period == Month ==> w == 22
    ensures period == Year ==> w == 252
  {
    match period
    case Week => 5
    case Month => 22
    case Year => 252
  }

  /** The highest high of a run of bars. */
  function MaxHigh(bars: seq<Bar>): (m: real)
    requires |bars| > 0
    ensures forall i :: 0 <= i < |bars| ==> bars[i].h <= m
    ensures exists i :: 0 <= i < |bars| && bars[i].h == m
    decreases |bars|
  {
    if |bars| == 1 then bars[0].h
    else
      var rest := MaxHigh(bars[1..]);
      assert forall i :: 1 <= i < |bars| ==> bars[i] == bars[1..][i - 1];
      if bars[0].h >= rest then bars[0].h else rest
  }

  /** The lowest low of a run of bars. */
  function MinLow(bars: seq<Bar>): (m: real)
    requires |bars| > 0
    ensures forall i :: 0 <= i < |bars| ==> m <= bars[i].l
    ensures exists i :: 0 <= i < |bars| && bars[i].l == m
    decreases |bars|
  {
    if |bars| == 1 then bars[0].l
    else
      var rest := MinLow(bars[1..]);
      assert forall i :: 1 <= i < |bars| ==> bars[i] == bars[1..][i - 1];
      if bars[0].l <= rest then bars[0].l else rest
  }

  /** `hlc` summarises `bars`: the highest high, the lowest low and the last close. */
  ghost predicate Summarises(bars: seq<Bar>, hlc: Hlc) {
    |bars| > 0 &&
    (forall i :: 0 <= i < |bars| ==> bars[i].h <= hlc.h) && (exists i :: 0 <= i < |bars| && bars[i].h == hlc.h) &&
    (forall i :: 0 <= i < |bars| ==> hlc.l <= bars[i].l) && (exists i :: 0 <= i < |bars| && bars[i].l == hlc.l) &&
    hlc.c == bars[|bars| - 1].c
  }

  /** `agg({"h": "max", "l": "min", "c": "last"})` of one non-empty bucket. */
  function Aggregate(bars: seq<Bar>): (hlc: Hlc)
    requires |bars| > 0
    ensures Summarises(bars, hlc)
  {
    Hlc(MaxHigh(bars), MinLow(bars), bars[|bars| - 1].c)
  }

  /** `.dropna()` of the aggregated buckets: calendar buckets without any bar
      aggregate to NaN and are dropped; the rest keep their order. */
  function NonEmpty(groups: seq<seq<Bar>>): (r: seq<seq<Bar>>)
    ensures |r| <= |groups|
    ensures forall g :: g in r <==> g in groups && |g| > 0
    decreases |groups|
  {
    if |groups| == 0 then []
    else
      var rest := NonEmpty(groups[1..]);
      assert forall g :: g in groups <==> g == groups[0] || g in groups[1..];
      if |groups[0]| > 0 then [groups[0]] + rest else rest
  }

  /** Dropping the empty buckets keeps the order: it distributes over
      concatenation, so the buckets that remain are those of the input in
      their order. */
  lemma {:induction false} NonEmptyAppend(a: seq<seq<Bar>>, b: seq<seq<Bar>>)
    ensures NonEmpty(a + b) == NonEmpty(a) + NonEmpty(b)
    ensures |a| == 1 ==> NonEmpty(a) == (if |a[0]| > 0 then a else [])
    decreases |a|
  {
    if |a| > 0 {
      assert (a + b)[0] == a[0];
      assert (a + b)[1..] == a[1..] + b;
      NonEmptyAppend(a[1..], b);
    } else {
      assert a + b == b;
    }
  }

  /** `df_daily.tail(window)` */
  function Tail(daily: seq<Bar>, window: nat): (t: seq<Bar>)
    ensures |t| == if |daily| < window then |daily| else window
    ensures t == daily[|daily| - |t|..]
  {
    if |daily| < window then daily else daily[|daily| - window..]
  }

  /** `_last_complete_period_hlc` over calendar buckets given in time order:
      no daily bars is a ValueError; with two or more non-empty buckets it
      summarises the second-to-last (the last one is still running);
      otherwise it summarises the last `Window(period)` daily bars. */
  function LastCompletePeriodHlc(daily: seq<Bar>, groups: seq<seq<Bar>>, period: Period): (r: Result<Hlc>)
    ensures r.Err? <==> |daily| == 0
    ensures r.Err? ==> r.error == ValueError
    ensures r.Ok? && |NonEmpty(groups)| >= 2 ==>
      Summarises(NonEmpty(groups)[|NonEmpty(groups)| - 2], r.value)
    ensures r.Ok? && |NonEmpty(groups)| < 2 ==> Summarises(Tail(daily, Window(period)), r.value)
  {
    if |daily| == 0 then Err(ValueError)
    else
      var buckets := NonEmpty(groups);
      if |buckets| < 2 then Ok(Aggregate(Tail(daily, Window(period))))
      else
        assert buckets[|buckets| - 2] in groups;
        Ok(Aggregate(buckets[|buckets| - 2]))
  }

  /** `hlc` summarises the previous completed period: the second-to-last
      non-empty bucket, or the last `Window(period)` daily bars when there are
      fewer than two non-empty buckets. */
  ghost predicate PreviousPeriod(daily: seq<Bar>, groups: seq<seq<Bar>>, period: Period, hlc: Hlc) {
    if |NonEmpty(groups)| >= 2 then Summarises(NonEmpty(groups)[|NonEmpty(groups)| - 2], hlc)
    else Summarises(Tail(daily, Window(period)), hlc)
  }

  /** A run of bars has one summary only. */
  lemma SummaryUnique(bars: seq<Bar>, x: Hlc, y: Hlc)
    requires Summarises(bars, x) && Summarises(bars, y)
    ensures x == y
  {
    var i :| 0 <= i < |bars| && bars[i].h == y.h;
    var j :| 0 <= j < |bars| && bars[j].h == x.h;
    var k :| 0 <= k < |bars| && bars[k].l == y.l;
    var m :| 0 <= m < |bars| && bars[m].l == x.l;
    assert y.h <= x.h && x.h <= y.h;
    assert x.l <= y.l && y.l <= x.l;
  }

  /** Bars whose close lies between their low and high. */
  predicate WellFormed(bars: seq<Bar>) {
    forall i :: 0 <= i < |bars| ==> bars[i].l <= bars[i].c <= bars[i].h
  }

  /** A summary of well-formed bars is itself well formed, so its pivots are
      ordered or, for a flat period, all equal. */
  lemma SummaryOrdered(bars: seq<Bar>, hlc: Hlc)
    requires Summarises(bars, hlc) && WellFormed(bars)
    ensures hlc.l <= hlc.c <= hlc.h
    ensures hlc.h > hlc.l || FiboPivots(hlc).p == FiboPivots(hlc).r3
  {
    var last := bars[|bars| - 1];
    assert hlc.l <= last.l && last.h <= hlc.h;
  }
}
