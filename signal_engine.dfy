/** capintel/signal_engine.py: the deterministic level arithmetic of the stub
    signal builder. The random draws are parameters; rounding is the identity. */
module SignalEngine {
  import opened Schemas
  import opened Arith
  import opened Risk

  /** Entry, two take-profit targets and a stop. */
  datatype Setup = Setup(entry: real, tp1: real, tp2: real, stop: real)

  /** The text condition of an alternative, reduced to its kind and price. */
  datatype Trigger =
    | HoldsAbove(level: real)   // "if the price settles above ~level"
    | HoldsBelow(level: real)   // "if the price settles below ~level"
    | BreaksAbove(level: real)  // "if the price breaks out above ~level"

  /** The one alternative scenario attached to a signal. */
  datatype Alternative = Alternative(trigger: Trigger, action: Action, setup: Setup)

  /** (buffer in basis points, validity in hours) per horizon. */
  function HorizonParams(h: Horizon): (r: (nat, nat))
    ensures 0 < r.0 < 10000 && 0 < r.1
    ensures h == Intraday ==> r == (25, 8)
    ensures h == Swing ==> r == (60, 48)
    ensures h == Position ==> r == (200, 7 * 24)
  {
    match h
    case Intraday => (25, 8)
    case Swing => (60, 48)
    case Position => (200, 7 * 24)
  }

  /** A longer horizon has a wider buffer and a longer validity. */
  lemma HorizonParamsGrow()
    ensures HorizonParams(Intraday).0 < HorizonParams(Swing).0 < HorizonParams(Position).0
    ensures HorizonParams(Intraday).1 < HorizonParams(Swing).1 < HorizonParams(Position).1
  {
  }

  /** The setup's targets and stop are a fixed point of the sanitiser. */
  predicate SaneSetup(action: Action, s: Setup) {
    IsSane(action, s.entry, Levels(s.tp1, s.tp2, s.stop))
  }

  /** Sanitises raw targets and a raw stop around an entry. */
  function Sanitized(action: Action, entry: real, tp1: real, tp2: real, stop: real): (s: Setup)
    ensures s.entry == entry && SaneSetup(action, s)
    ensures action == Buy && entry > 0.0 ==> s.stop < s.entry < s.tp1 < s.tp2
    ensures action == Short && entry > 0.0 && tp1 > 0.0 ==> s.tp2 < s.tp1 < s.entry < s.stop
    ensures action == Short && entry > 0.0 && tp2 < tp1 ==> s.tp2 < s.tp1 < s.entry < s.stop
  {
    var lv := SanitizeLevels(action, entry, tp1, tp2, stop);
    SanitizeIdempotent(action, entry, tp1, tp2, stop);
    Setup(entry, lv.tp1, lv.tp2, lv.stop)
  }

  /** `gen_levels`: a BUY enters slightly under the price with targets above and
      the stop below; a SHORT mirrors it; WAIT and CLOSE put every level at the
      price. The targets and stop then pass through `sanitize_levels`. */
  function GenLevels(action: Action, price: real, bufferBp: nat): (s: Setup)
    ensures SaneSetup(action, s)
    ensures !IsTrade(action) ==> s == Setup(price, price, price, price)
    ensures action == Buy && price > 0.0 && bufferBp <= 10000 ==>
      s.stop < s.entry < s.tp1 < s.tp2 && s.entry <= price
    ensures action == Short && price > 0.0 ==>
      s.tp2 < s.tp1 < s.entry < s.stop && s.entry >= price
  {
    var bp := bufferBp as real / 10000.0;
    assert bufferBp <= 10000 ==> bp <= 1.0;
    if action == Buy then BuyLevels(price, bp)
    else if action == Short then ShortLevels(price, bp)
    else Sanitized(action, price, price, price, price)
  }

  /** The BUY levels: enter 0.3 buffers under the price, targets 0.8 and 1.8
      buffers above the entry, stop 0.9 buffers below it. */
  function BuyLevels(price: real, bp: real): (s: Setup)
    requires bp >= 0.0
    ensures SaneSetup(Buy, s)
    ensures price > 0.0 && bp <= 1.0 ==> s.stop < s.entry < s.tp1 < s.tp2 && s.entry <= price
  {
    var entry := price * (1.0 - 0.3 * bp);
    assert bp <= 1.0 ==> 0.3 * bp < 1.0;
    Discount(price, 0.3 * bp);
    assert price > 0.0 && bp <= 1.0 ==> 0.0 < entry <= price;
    var s := Sanitized(Buy, entry, entry * (1.0 + 0.8 * bp), entry * (1.0 + 1.8 * bp), entry * (1.0 - 0.9 * bp));
    assert entry > 0.0 ==> s.stop < s.entry < s.tp1 < s.tp2;
    s
  }

  /** The SHORT levels: the mirror image of `BuyLevels`. */
  function ShortLevels(price: real, bp: real): (s: Setup)
    requires bp >= 0.0
    ensures SaneSetup(Short, s)
    ensures price > 0.0 ==> s.tp2 < s.tp1 < s.entry < s.stop && s.entry >= price
  {
    var entry := price * (1.0 + 0.3 * bp);
    Grow(price, 0.0, 0.3 * bp);
    assert price > 0.0 ==> 0.0 < price <= entry;
    var raw1, raw2 := entry * (1.0 - 0.8 * bp), entry * (1.0 - 1.8 * bp);
    Shrink(entry, 1.8 * bp, 0.8 * bp);
    assert bp == 0.0 ==> raw1 == entry;
    var s := Sanitized(Short, entry, raw1, raw2, entry * (1.0 + 0.9 * bp));
    assert entry > 0.0 && (raw2 < raw1 || raw1 > 0.0) ==> s.tp2 < s.tp1 < s.entry < s.stop;
    s
  }

  /** A discount by less than the whole keeps a positive price positive and
      no larger. */
  lemma Discount(x: real, k: real)
    requires 0.0 <= k
    ensures x > 0.0 && k < 1.0 ==> 0.0 < x * (1.0 - k) <= x
  {
    if x > 0.0 && k < 1.0 {
      ScaleDown(x, 1.0 - k);
    }
  }

  /** `alternative_scenario`: a BUY keeps a BUY and a SHORT keeps a SHORT, each
      re-entered further along the move; any other action gets a breakout BUY.
      The alternative's levels pass through `sanitize_levels` for its own action. */
  function AlternativeScenario(action: Action, entry: real, bufferBp: nat): (alt: Alternative)
    ensures alt.action == (if action == Short then Short else Buy)
    ensures SaneSetup(alt.action, alt.setup)
    ensures entry > 0.0 && alt.action == Buy ==>
      alt.setup.stop < alt.setup.entry < alt.setup.tp1 < alt.setup.tp2
    ensures entry > 0.0 && bufferBp <= 10000 && alt.action == Short ==>
      alt.setup.tp2 < alt.setup.tp1 < alt.setup.entry < alt.setup.stop
    ensures entry > 0.0 && bufferBp > 0 && action == Buy ==>
      alt.trigger.HoldsAbove? && entry < alt.trigger.level < alt.setup.entry
    ensures entry > 0.0 && bufferBp > 0 && bufferBp <= 10000 && action == Short ==>
      alt.trigger.HoldsBelow? && alt.setup.entry < alt.trigger.level < entry
    ensures entry > 0.0 && bufferBp > 0 && !IsTrade(action) ==>
      alt.trigger.BreaksAbove? && entry < alt.trigger.level < alt.setup.entry
  {
    var bp := bufferBp as real / 10000.0;
    if action == Buy then BuyAlternative(entry, bp)
    else if action == Short then ShortAlternative(entry, bp)
    else BreakoutAlternative(entry, bp)
  }

  /** The BUY alternative: re-enter 0.6 buffers higher once the price holds
      0.5 buffers above the entry. */
  function BuyAlternative(entry: real, bp: real): (alt: Alternative)
    requires bp >= 0.0
    ensures alt.action == Buy && SaneSetup(Buy, alt.setup)
    ensures entry > 0.0 ==> alt.setup.stop < alt.setup.entry < alt.setup.tp1 < alt.setup.tp2
    ensures entry > 0.0 && bp > 0.0 ==> alt.trigger.HoldsAbove? && entry < alt.trigger.level < alt.setup.entry
  {
    var e := entry * (1.0 + 0.6 * bp);
    var level := entry * (1.0 + 0.5 * bp);
    Grow(entry, 0.5 * bp, 0.6 * bp);
    assert entry > 0.0 && bp > 0.0 ==> entry < level < e;
    assert entry > 0.0 ==> e > 0.0;
    Alternative(HoldsAbove(level), Buy,
      Sanitized(Buy, e, e * (1.0 + 0.9 * bp), e * (1.0 + 1.9 * bp), e * (1.0 - 0.9 * bp)))
  }

  /** The SHORT alternative: re-enter 0.6 buffers lower once the price holds
      0.5 buffers below the entry. */
  function ShortAlternative(entry: real, bp: real): (alt: Alternative)
    requires bp >= 0.0
    ensures alt.action == Short && SaneSetup(Short, alt.setup)
    ensures entry > 0.0 && bp <= 1.0 ==> alt.setup.tp2 < alt.setup.tp1 < alt.setup.entry < alt.setup.stop
    ensures entry > 0.0 && 0.0 < bp <= 1.0 ==> alt.trigger.HoldsBelow? && alt.setup.entry < alt.trigger.level < entry
  {
    var e := entry * (1.0 - 0.6 * bp);
    var level := entry * (1.0 - 0.5 * bp);
    var raw1 := e * (1.0 - 0.9 * bp);
    Shrink(entry, 0.6 * bp, 0.5 * bp);
    assert bp <= 1.0 ==> 0.6 * bp < 1.0 && 0.9 * bp < 1.0;
    Discount(entry, 0.6 * bp);
    Discount(e, 0.9 * bp);
    Alternative(HoldsBelow(level), Short,
      Sanitized(Short, e, raw1, e * (1.0 - 1.9 * bp), e * (1.0 + 0.9 * bp)))
  }

  /** The alternative to WAIT or CLOSE: a BUY 0.8 buffers higher once the
      price breaks 0.7 buffers above the entry. */
  function BreakoutAlternative(entry: real, bp: real): (alt: Alternative)
    requires bp >= 0.0
    ensures alt.action == Buy && SaneSetup(Buy, alt.setup)
    ensures entry > 0.0 ==> alt.setup.stop < alt.setup.entry < alt.setup.tp1 < alt.setup.tp2
    ensures entry > 0.0 && bp > 0.0 ==> alt.trigger.BreaksAbove? && entry < alt.trigger.level < alt.setup.entry
  {
    var e := entry * (1.0 + 0.8 * bp);
    var level := entry * (1.0 + 0.7 * bp);
    Grow(entry, 0.7 * bp, 0.8 * bp);
    assert entry > 0.0 && bp > 0.0 ==> entry < level < e;
    assert entry > 0.0 ==> e > 0.0;
    Alternative(BreaksAbove(level), Buy,
      Sanitized(Buy, e, e * (1.0 + 1.0 * bp), e * (1.0 + 2.0 * bp), e * (1.0 - 1.0 * bp)))
  }

  /** Scaling a positive price up by two factors keeps their order. */
  lemma Grow(x: real, a: real, b: real)
    requires 0.0 <= a <= b
    ensures x > 0.0 ==> 0.0 < x <= x * (1.0 + a) <= x * (1.0 + b)
    ensures x > 0.0 && 0.0 < a < b ==> x < x * (1.0 + a) < x * (1.0 + b)
  {
    if x > 0.0 {
      assert x * (1.0 + b) - x * (1.0 + a) == x * (b - a);
      assert x * (1.0 + a) - x == x * a;
    }
  }

  /** Scaling a positive price down by two factors keeps their order. */
  lemma Shrink(x: real, a: real, b: real)
    requires 0.0 <= b <= a
    ensures x > 0.0 ==> x * (1.0 - a) <= x * (1.0 - b) <= x && x * (1.0 - a) <= x
    ensures x > 0.0 && b < a ==> x * (1.0 - a) < x * (1.0 - b)
    ensures x > 0.0 && 0.0 < b ==> x * (1.0 - b) < x
  {
    if x > 0.0 {
      assert x - x * (1.0 - a) == x * a;
      assert x * (1.0 - b) - x * (1.0 - a) == x * (a - b);
      assert x - x * (1.0 - b) == x * b;
    }
  }

  /** The starting confidence per action before the random draw. */
  function BaseConfidence(action: Action): real {
    match action
    case Wait => 0.52
    case Buy => 0.60
    case Short => 0.60
    case Close => 0.55
  }

  /** `gen_confidence` with the `random.uniform(-0.05, 0.08)` draw as a
      parameter: the base plus the draw, clamped into [0.50, 0.90]. */
  function GenConfidence(action: Action, draw: real): (c: real)
    ensures 0.50 <= c <= 0.90
    ensures 0.50 <= BaseConfidence(action) + draw <= 0.90 ==> c == BaseConfidence(action) + draw
    ensures BaseConfidence(action) + draw < 0.50 ==> c == 0.50
    ensures -0.05 <= draw <= 0.08 ==> c <= BaseConfidence(action) + 0.08 && c >= 0.50
  {
    Max(0.50, Min(0.90, BaseConfidence(action) + draw))
  }
}
