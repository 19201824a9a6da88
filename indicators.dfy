/** The indicator recurrences of capintel/strategy/my_strategy.py: exponential
    smoothing, Wilder RSI and ATR, the MACD histogram and Heikin-Ashi candles.
    Every series is in time order, oldest first. */
module Indicators {
  import opened Wrappers
  import opened Arith

  /** One OHLC bar of the working series. */
  datatype Bar = Bar(o: real, h: real, l: real, c: real)

  /** The smoothing factor of `_ema`: 1/span for Wilder smoothing, else 2/(span+1). */
  function Alpha(span: nat, wilder: bool): (a: real)
    requires span > 0
    ensures 0.0 < a <= 1.0
  {
    if wilder then 1.0 / span as real else 2.0 / (span as real + 1.0)
  }

  /** One weighted mean of the fold. */
  function EwmStep(prev: real, x: real, a: real): real {
    (1.0 - a) * prev + a * x
  }

  /** `ewm(alpha=a, adjust=False).mean()`: a left fold seeded with the first
      observation, y[0] = x[0] and y[i] = (1 - a) * y[i-1] + a * x[i]. */
  function Ewm(xs: seq<real>, a: real): (ys: seq<real>)
    ensures |ys| == |xs|
    ensures |xs| > 0 ==> ys[0] == xs[0]
    decreases |xs|
  {
    if |xs| <= 1 then xs
    else
      var prev := Ewm(xs[..|xs| - 1], a);
      prev + [EwmStep(prev[|xs| - 2], xs[|xs| - 1], a)]
  }

  /** One step of the fold: the smoothed series grows by the next weighted mean. */
  lemma EwmSnoc(xs: seq<real>, a: real)
    requires |xs| > 1
    ensures Ewm(xs, a) == Ewm(xs[..|xs| - 1], a) + [EwmStep(Ewm(xs[..|xs| - 1], a)[|xs| - 2], xs[|xs| - 1], a)]
  {}

  /** Every prefix of the smoothed series is the smoothing of that prefix:
      later observations never change earlier values. */
  lemma {:induction false} EwmPrefix(xs: seq<real>, a: real, k: nat)
    requires k <= |xs|
    ensures Ewm(xs, a)[..k] == Ewm(xs[..k], a)
    decreases |xs|
  {
    if k < |xs| {
      var init := xs[..|xs| - 1];
      if |xs| > 1 {
        EwmPrefix(init, a, k);
        EwmSnoc(xs, a);
        assert Ewm(xs, a)[..|xs| - 1] == Ewm(init, a);
        assert init[..k] == xs[..k];
      } else {
        assert k == 0;
      }
    } else {
      assert xs[..k] == xs;
    }
  }

  /** The recurrence of `ewm(adjust=False)` holds at every step. */
  lemma EwmRecurrence(xs: seq<real>, a: real, i: nat)
    requires 0 < i < |xs|
    ensures Ewm(xs, a)[i] == (1.0 - a) * Ewm(xs, a)[i - 1] + a * xs[i]
  {
    EwmPrefix(xs, a, i + 1);
    var p := xs[..i + 1];
    EwmSnoc(p, a);
    assert p[..i] == xs[..i];
    assert Ewm(p, a)[..i] == Ewm(xs[..i], a);
  }

  /** Every value of `xs` lies in [lo, hi]. */
  predicate Within(xs: seq<real>, lo: real, hi: real) {
    forall i :: 0 <= i < |xs| ==> lo <= xs[i] <= hi
  }

  /** A weighted mean of two points of [lo, hi] stays in [lo, hi]. */
  lemma MeanWithin(y: real, x: real, a: real, lo: real, hi: real)
    requires 0.0 <= a <= 1.0 && lo <= y <= hi && lo <= x <= hi
    ensures lo <= EwmStep(y, x, a) <= hi
  {
    NonNegProduct(1.0 - a, y - lo);
    NonNegProduct(a, x - lo);
    NonNegProduct(1.0 - a, hi - y);
    NonNegProduct(a, hi - x);
    assert (1.0 - a) * y + a * x - lo == (1.0 - a) * (y - lo) + a * (x - lo);
    assert hi - ((1.0 - a) * y + a * x) == (1.0 - a) * (hi - y) + a * (hi - x);
  }

  /** Smoothing never leaves the range of its input. */
  lemma {:induction false} EwmWithin(xs: seq<real>, a: real, lo: real, hi: real)
    requires 0.0 < a <= 1.0
    ensures Within(xs, lo, hi) ==> Within(Ewm(xs, a), lo, hi)
    decreases |xs|
  {
    if |xs| > 1 && Within(xs, lo, hi) {
      var init := xs[..|xs| - 1];
      EwmWithin(init, a, lo, hi);
      var prev := Ewm(init, a);
      assert Within(init, lo, hi);
      assert Within(prev, lo, hi);
      MeanWithin(prev[|xs| - 2], xs[|xs| - 1], a, lo, hi);
      EwmSnoc(xs, a);
    }
  }

  /** A constant series smooths to itself. */
  lemma EwmConstant(xs: seq<real>, a: real, v: real)
    requires 0.0 < a <= 1.0 && forall i :: 0 <= i < |xs| ==> xs[i] == v
    ensures Ewm(xs, a) == xs
  {
    EwmWithin(xs, a, v, v);
  }

  /** The element-wise difference of two equally long series. */
  function Minus(xs: seq<real>, ys: seq<real>): (d: seq<real>)
    requires |xs| == |ys|
    ensures |d| == |xs| && forall i :: 0 <= i < |xs| ==> d[i] == xs[i] - ys[i]
  {
    seq(|xs|, i requires 0 <= i < |xs| => xs[i] - ys[i])
  }

  /** `_macd_hist`: MACD line (EMA 12 minus EMA 26 of the close) minus its EMA 9. */
  function MacdHist(close: seq<real>): (hist: seq<real>)
    ensures |hist| == |close|
    ensures |close| > 0 ==> hist[0] == 0.0
  {
    var macd := Minus(Ewm(close, Alpha(12, false)), Ewm(close, Alpha(26, false)));
    Minus(macd, Ewm(macd, Alpha(9, false)))
  }

  /** A flat close series has a zero histogram everywhere. */
  lemma MacdHistFlat(close: seq<real>, v: real)
    requires forall i :: 0 <= i < |close| ==> close[i] == v
    ensures forall i :: 0 <= i < |close| ==> MacdHist(close)[i] == 0.0
  {
    EwmConstant(close, Alpha(12, false), v);
    EwmConstant(close, Alpha(26, false), v);
    var macd := Minus(Ewm(close, Alpha(12, false)), Ewm(close, Alpha(26, false)));
    EwmConstant(macd, Alpha(9, false), 0.0);
  }

  /** `close.diff()` without its leading NaN: the change from each bar to the next. */
  function Changes(close: seq<real>): (d: seq<real>)
    requires |close| > 0
    ensures |d| == |close| - 1 && forall i :: 0 <= i < |d| ==> d[i] == close[i + 1] - close[i]
  {
    seq(|close| - 1, i requires 0 <= i < |close| - 1 => close[i + 1] - close[i])
  }

  /** `d.clip(lower=0.0)` */
  function ClipLower(xs: seq<real>): (r: seq<real>)
    ensures |r| == |xs| && forall i :: 0 <= i < |xs| ==> r[i] == Max(xs[i], 0.0)
  {
    seq(|xs|, i requires 0 <= i < |xs| => Max(xs[i], 0.0))
  }

  /** `-xs` */
  function Negated(xs: seq<real>): (r: seq<real>)
    ensures |r| == |xs| && forall i :: 0 <= i < |xs| ==> r[i] == -xs[i]
  {
    seq(|xs|, i requires 0 <= i < |xs| => -xs[i])
  }

  /** The Wilder-smoothed up-moves: pandas skips the leading NaN of the
      difference, so the fold is seeded by the second bar's move. */
  function SmoothedUp(close: seq<real>, n: nat): (au: seq<real>)
    requires |close| > 0 && n > 0
    ensures |au| == |close| - 1 && forall i :: 0 <= i < |au| ==> au[i] >= 0.0
  {
    var up := ClipLower(Changes(close));
    MaxOfBounds(up);
    EwmWithin(up, Alpha(n, true), 0.0, MaxOf(up));
    Ewm(up, Alpha(n, true))
  }

  /** The Wilder-smoothed down-moves, seeded like `SmoothedUp`. */
  function SmoothedDown(close: seq<real>, n: nat): (ad: seq<real>)
    requires |close| > 0 && n > 0
    ensures |ad| == |close| - 1 && forall i :: 0 <= i < |ad| ==> ad[i] >= 0.0
  {
    var down := ClipLower(Negated(Changes(close)));
    MaxOfBounds(down);
    EwmWithin(down, Alpha(n, true), 0.0, MaxOf(down));
    Ewm(down, Alpha(n, true))
  }

  /** The largest element of a series, 0 for an empty one. */
  function MaxOf(xs: seq<real>): real
    decreases |xs|
  {
    if |xs| == 0 then 0.0 else Max(xs[0], MaxOf(xs[1..]))
  }

  /** A non-negative series lies between 0 and its largest element. */
  lemma {:induction false} MaxOfBounds(xs: seq<real>)
    ensures (forall i :: 0 <= i < |xs| ==> xs[i] >= 0.0) ==> Within(xs, 0.0, MaxOf(xs))
    decreases |xs|
  {
    if |xs| > 0 {
      MaxOfBounds(xs[1..]);
    }
  }

  /** One RSI value from the smoothed moves: `100 - 100 / (1 + au / ad)`, and
      50 where `ad` is zero (pandas turns the division into NaN and `fillna`
      gives 50). */
  function RsiPoint(au: real, ad: real): (r: real)
    requires au >= 0.0 && ad >= 0.0
    ensures 0.0 <= r < 100.0
    ensures ad == 0.0 ==> r == 50.0
    ensures ad > 0.0 ==> (r > 50.0 <==> au > ad) && (r == 50.0 <==> au == ad)
  {
    if ad == 0.0 then 50.0
    else
      var rs := au / ad;
      RsiMonotone(au, ad);
      100.0 - 100.0 / (1.0 + rs)
  }

  /** The ratio form of RSI against its centre line. */
  lemma RsiMonotone(au: real, ad: real)
    requires au >= 0.0 && ad > 0.0
    ensures 0.0 < 100.0 / (1.0 + au / ad) <= 100.0
    ensures 100.0 - 100.0 / (1.0 + au / ad) > 50.0 <==> au > ad
    ensures 100.0 - 100.0 / (1.0 + au / ad) == 50.0 <==> au == ad
  {
    RatioVsOne(au, ad);
    HundredOverVsHalf(au / ad);
  }

  /** The ratio of the smoothed moves is above, at or below 1 as they compare. */
  lemma RatioVsOne(au: real, ad: real)
    requires au >= 0.0 && ad > 0.0
    ensures au / ad >= 0.0
    ensures au / ad > 1.0 <==> au > ad
    ensures au / ad == 1.0 <==> au == ad
  {
    var rs := au / ad;
    assert rs * ad == au;
    assert au - ad == (rs - 1.0) * ad;
    PositiveFactor(rs - 1.0, ad);
    PositiveFactor(1.0 - rs, ad);
  }

  /** 100 / (1 + rs) is below, at or above 50 as rs is above, at or below 1. */
  lemma HundredOverVsHalf(rs: real)
    requires rs >= 0.0
    ensures 0.0 < 100.0 / (1.0 + rs) <= 100.0
    ensures 100.0 / (1.0 + rs) < 50.0 <==> rs > 1.0
    ensures 100.0 / (1.0 + rs) == 50.0 <==> rs == 1.0
  {
    var q := 100.0 / (1.0 + rs);
    assert q * (1.0 + rs) == 100.0;
    assert (50.0 - q) * (1.0 + rs) == 50.0 * (rs - 1.0);
    PositiveFactor(50.0 - q, 1.0 + rs);
    PositiveFactor(q - 50.0, 1.0 + rs);
    PositiveFactor(q, 1.0 + rs);
  }

  /** `_rsi_wilder`: the first bar is 50 (no change yet), every later bar is
      `RsiPoint` of the smoothed up- and down-moves up to it. */
  function RsiWilder(close: seq<real>, n: nat): (rsi: seq<real>)
    requires n > 0
    ensures |rsi| == |close|
    ensures Within(rsi, 0.0, 100.0) && forall i :: 0 <= i < |rsi| ==> rsi[i] < 100.0
    ensures |close| > 0 ==> rsi[0] == 50.0
    ensures forall i :: 1 <= i < |close| && SmoothedDown(close, n)[i - 1] == 0.0 ==> rsi[i] == 50.0
    ensures forall i :: 1 <= i < |close| && SmoothedDown(close, n)[i - 1] > 0.0 ==>
      (rsi[i] > 50.0 <==> SmoothedUp(close, n)[i - 1] > SmoothedDown(close, n)[i - 1])
  {
    if |close| == 0 then []
    else
      var au := SmoothedUp(close, n);
      var ad := SmoothedDown(close, n);
      [50.0] + seq(|close| - 1, i requires 0 <= i < |close| - 1 => RsiPoint(au[i], ad[i]))
  }

  /** The true range of a bar after the previous close: the largest of the
      bar's span and its two gaps to that close. */
  function BarRange(prevClose: real, b: Bar): (r: real)
    ensures r >= b.h - b.l && r >= Abs(b.h - prevClose) && r >= Abs(b.l - prevClose) && r >= 0.0
    ensures r == b.h - b.l || r == Abs(b.h - prevClose) || r == Abs(b.l - prevClose)
  {
    Max(Max(b.h - b.l, Abs(b.h - prevClose)), Abs(b.l - prevClose))
  }

  /** The true range of each bar: the largest of its span and its two gaps
      to the previous close. For the first bar pandas' row maximum skips the
      NaN of the missing previous close and keeps high - low. */
  function TrueRange(bars: seq<Bar>): (tr: seq<real>)
    ensures |tr| == |bars|
    ensures |bars| > 0 ==> tr[0] == bars[0].h - bars[0].l
    ensures forall i :: 1 <= i < |bars| ==>
      tr[i] >= 0.0 && tr[i] >= bars[i].h - bars[i].l &&
      tr[i] >= Abs(bars[i].h - bars[i - 1].c) && tr[i] >= Abs(bars[i].l - bars[i - 1].c)
    ensures forall i :: 1 <= i < |bars| ==>
      tr[i] == bars[i].h - bars[i].l || tr[i] == Abs(bars[i].h - bars[i - 1].c) ||
      tr[i] == Abs(bars[i].l - bars[i - 1].c)
  {
    var tr := seq(|bars|, i requires 0 <= i < |bars| =>
      if i == 0 then bars[0].h - bars[0].l else BarRange(bars[i - 1].c, bars[i]));
    assert forall i :: 1 <= i < |bars| ==> tr[i] == BarRange(bars[i - 1].c, bars[i]);
    tr
  }

  /** `_atr_wilder`: the Wilder-smoothed true range. */
  function AtrWilder(bars: seq<Bar>, n: nat): (atr: seq<real>)
    requires n > 0
    ensures |atr| == |bars|
    ensures |bars| > 0 && bars[0].l <= bars[0].h ==> Within(atr, 0.0, MaxOf(TrueRange(bars)))
  {
    var tr := TrueRange(bars);
    assert |bars| > 0 && bars[0].l <= bars[0].h ==> forall i :: 0 <= i < |tr| ==> tr[i] >= 0.0;
    MaxOfBounds(tr);
    EwmWithin(tr, Alpha(n, true), 0.0, MaxOf(tr));
    Ewm(tr, Alpha(n, true))
  }

  /** The Heikin-Ashi close of a bar: the mean of its four prices. */
  function HaClose(b: Bar): real { (b.o + b.h + b.l + b.c) / 4.0 }

  /** The relation `_heikin_ashi` computes: closes are bar means, the first open
      is the midpoint of the first bar's open and close, and each later open is
      the midpoint of the previous Heikin-Ashi open and close. */
  ghost predicate IsHeikinAshi(bars: seq<Bar>, haOpen: seq<real>, haClose: seq<real>) {
    |haOpen| == |bars| && |haClose| == |bars| &&
    (forall i :: 0 <= i < |bars| ==> haClose[i] == HaClose(bars[i])) &&
    (|bars| > 0 ==> haOpen[0] == (bars[0].o + bars[0].c) / 2.0) &&
    (forall i :: 1 <= i < |bars| ==> haOpen[i] == (haOpen[i - 1] + haClose[i - 1]) / 2.0)
  }

  /** `_heikin_ashi`: fills the open column front to back; with no bars the
      first assignment fails with an IndexError. */
  method HeikinAshi(bars: seq<Bar>) returns (r: Result<(seq<real>, seq<real>)>)
    ensures r.Err? <==> |bars| == 0
    ensures r.Err? ==> r.error == IndexError
    ensures r.Ok? ==> IsHeikinAshi(bars, r.value.0, r.value.1)
  {
    if |bars| == 0 {
      return Err(IndexError);
    }
    var n := |bars|;
    var haClose := seq(n, i requires 0 <= i < n => HaClose(bars[i]));
    var haOpen := new real[n];
    haOpen[0] := (bars[0].o + bars[0].c) / 2.0;
    for i := 1 to n
      invariant haOpen[0] == (bars[0].o + bars[0].c) / 2.0
      invariant forall k :: 1 <= k < i ==> haOpen[k] == (haOpen[k - 1] + haClose[k - 1]) / 2.0
    {
      haOpen[i] := (haOpen[i - 1] + haClose[i - 1]) / 2.0;
    }
    return Ok((haOpen[..], haClose));
  }

  /** Each bar is well formed and inside the price band [lo, hi]. */
  predicate BarsWithin(bars: seq<Bar>, lo: real, hi: real) {
    forall i :: 0 <= i < |bars| ==>
      lo <= bars[i].l && bars[i].h <= hi &&
      bars[i].l <= bars[i].o <= bars[i].h && bars[i].l <= bars[i].c <= bars[i].h
  }

  /** Heikin-Ashi candles stay inside the band of the bars they are built from. */
  lemma {:induction false} HeikinAshiWithin(bars: seq<Bar>, haOpen: seq<real>, haClose: seq<real>, lo: real, hi: real)
    requires IsHeikinAshi(bars, haOpen, haClose) && BarsWithin(bars, lo, hi)
    ensures Within(haClose, lo, hi) && Within(haOpen, lo, hi)
  {
    var k := 0;
    while k < |bars|
      invariant 0 <= k <= |bars|
      invariant forall j :: 0 <= j < k ==> lo <= haOpen[j] <= hi && lo <= haClose[j] <= hi
    {
      var b := bars[k];
      assert haClose[k] == (b.o + b.h + b.l + b.c) / 4.0;
      assert lo <= haClose[k] <= hi;
      if k > 0 {
        assert haOpen[k] == (haOpen[k - 1] + haClose[k - 1]) / 2.0;
      }
      assert lo <= haOpen[k] <= hi;
      k := k + 1;
    }
  }

  /** The Heikin-Ashi relation determines both columns from the bars. */
  lemma {:induction false} HeikinAshiUnique(bars: seq<Bar>, o1: seq<real>, c1: seq<real>, o2: seq<real>, c2: seq<real>)
    requires IsHeikinAshi(bars, o1, c1) && IsHeikinAshi(bars, o2, c2)
    ensures o1 == o2 && c1 == c2
  {
    var k := 0;
    while k < |bars|
      invariant 0 <= k <= |bars|
      invariant forall j :: 0 <= j < k ==> o1[j] == o2[j]
    {
      if k > 0 {
        assert c1[k - 1] == c2[k - 1];
        assert o1[k] == (o1[k - 1] + c1[k - 1]) / 2.0;
        assert o2[k] == (o2[k - 1] + c2[k - 1]) / 2.0;
      }
      k := k + 1;
    }
    assert c1 == c2;
  }
}
