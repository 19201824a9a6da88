/** capintel/risk.py: the level sanitiser and the confidence-scaled position size. */
module Risk {
  import opened Schemas
  import opened Arith

  /** The (tp1, tp2, stop) triple that `sanitize_levels` returns. */
  datatype Levels = Levels(tp1: real, tp2: real, stop: real)

  /** Pushes the targets and the stop to the profitable and the protective side
      of the entry: for a BUY each target sits at least 0.1% above the previous
      level and the stop at least 0.1% below the entry; a SHORT mirrors this;
      every other action leaves the levels as they are. */
  function SanitizeLevels(action: Action, entry: real, tp1: real, tp2: real, stop: real): (r: Levels)
    ensures action == Buy ==>
      && r.tp1 >= tp1 && r.tp1 >= entry * 1.001 && (r.tp1 == tp1 || r.tp1 == entry * 1.001)
      && r.tp2 >= tp2 && r.tp2 >= r.tp1 * 1.001 && (r.tp2 == tp2 || r.tp2 == r.tp1 * 1.001)
      && r.stop <= stop && r.stop <= entry * 0.999 && (r.stop == stop || r.stop == entry * 0.999)
    ensures action == Short ==>
      && r.tp1 <= tp1 && r.tp1 <= entry * 0.999 && (r.tp1 == tp1 || r.tp1 == entry * 0.999)
      && r.tp2 <= tp2 && r.tp2 <= r.tp1 * 0.999 && (r.tp2 == tp2 || r.tp2 == r.tp1 * 0.999)
      && r.stop >= stop && r.stop >= entry * 1.001 && (r.stop == stop || r.stop == entry * 1.001)
    ensures action == Buy && entry > 0.0 ==> r.stop < entry < r.tp1 < r.tp2
    ensures action == Short && entry > 0.0 ==> r.tp1 < entry < r.stop
    ensures action == Short && r.tp1 > 0.0 ==> r.tp2 < r.tp1
    ensures !IsTrade(action) ==> r == Levels(tp1, tp2, stop)
  {
    if action == Buy then
      var t1 := Max(tp1, entry * 1.001);
      Levels(t1, Max(tp2, t1 * 1.001), Min(stop, entry * 0.999))
    else if action == Short then
      var t1 := Min(tp1, entry * 0.999);
      Levels(t1, Min(tp2, t1 * 0.999), Max(stop, entry * 1.001))
    else
      Levels(tp1, tp2, stop)
  }

  /** Levels that `SanitizeLevels` leaves unchanged. */
  predicate IsSane(action: Action, entry: real, lv: Levels) {
    SanitizeLevels(action, entry, lv.tp1, lv.tp2, lv.stop) == lv
  }

  /** Sanitising twice is the same as sanitising once. */
  lemma SanitizeIdempotent(action: Action, entry: real, tp1: real, tp2: real, stop: real)
    ensures IsSane(action, entry, SanitizeLevels(action, entry, tp1, tp2, stop))
  {
  }

  /** The per-(asset class, horizon) cap of the position size, in % of NAV. */
  const Caps: map<(string, string), real> := map[
    ("crypto", "intraday") := 1.2,
    ("crypto", "swing") := 1.6,
    ("crypto", "position") := 2.0,
    ("equity", "intraday") := 0.8,
    ("equity", "swing") := 1.2,
    ("equity", "position") := 1.5
  ]

  /** `caps.get((asset_class, horizon), 1.0)`: an unknown pair gets 1.0. */
  function PositionCap(assetClass: string, horizon: string): (cap: real)
    ensures 0.8 <= cap <= 2.0
    ensures (assetClass, horizon) !in Caps ==> cap == 1.0
    ensures (assetClass, horizon) in Caps ==> cap == Caps[(assetClass, horizon)]
  {
    if (assetClass, horizon) in Caps then Caps[(assetClass, horizon)] else 1.0
  }

  /** The position size before rounding: a linear map of the confidence from
      0.3 (at confidence 0) up to the cap (at confidence 1). */
  function TargetVolPositionSize(confidence: real, assetClass: string, horizon: string): (size: real)
    ensures 0.0 <= confidence <= 1.0 ==> 0.3 <= size <= PositionCap(assetClass, horizon)
    ensures confidence == 0.0 ==> size == 0.3
    ensures confidence == 1.0 ==> size == PositionCap(assetClass, horizon)
  {
    var cap := PositionCap(assetClass, horizon);
    ScaledBetween(confidence, cap - 0.3);
    0.3 + confidence * (cap - 0.3)
  }

  /** A factor in [0, 1] scales a non-negative span to somewhere inside it. */
  lemma ScaledBetween(c: real, span: real)
    requires span >= 0.0
    ensures 0.0 <= c <= 1.0 ==> 0.0 <= c * span <= span
  {
    if 0.0 <= c <= 1.0 {
      assert span - c * span == (1.0 - c) * span;
    }
  }

  /** A higher confidence never gives a smaller position. */
  lemma PositionSizeMonotone(c1: real, c2: real, assetClass: string, horizon: string)
    requires c1 <= c2
    ensures TargetVolPositionSize(c1, assetClass, horizon) <= TargetVolPositionSize(c2, assetClass, horizon)
  {
    var span := PositionCap(assetClass, horizon) - 0.3;
    assert c2 * span - c1 * span == (c2 - c1) * span;
  }
}
