/** The decision core of `generate_signal_core` in
    capintel/strategy/my_strategy.py: overheat at the resistances and
    oversold at the supports of the previous period's Fibonacci pivots,
    confirmed by Heikin-Ashi and MACD streaks, MACD deceleration and RSI, with
    a higher-timeframe bias adjusting the confidence. */
module Strategy {
  import opened Wrappers
  import opened Schemas
  import opened Arith
  import opened Indicators
  import opened Patterns
  import opened Pivots

  /** The per-horizon thresholds: minimum Heikin-Ashi and MACD streak lengths
      and the relative tolerance of "near a level". */
  datatype StrategyParams = StrategyParams(tag: string, ha: nat, macd: nat, tol: real)

  /** `_horizon_params` of the strategy. */
  function HorizonParams(h: Horizon): (p: StrategyParams)
    ensures 0.0 < p.tol < 0.02 && p.ha >= 4 && p.macd >= 4
    ensures h == Intraday ==> p == StrategyParams("ST", 4, 4, 0.0065)
    ensures h == Swing ==> p == StrategyParams("MID", 5, 6, 0.0090)
    ensures h == Position ==> p == StrategyParams("LT", 6, 8, 0.0120)
  {
    match h
    case Intraday => StrategyParams("ST", 4, 4, 0.0065)
    case Swing => StrategyParams("MID", 5, 6, 0.0090)
    case Position => StrategyParams("LT", 6, 8, 0.0120)
  }

  /** A longer horizon asks for longer streaks and tolerates a wider distance. */
  lemma HorizonParamsWiden(a: Horizon, b: Horizon)
    requires (a == Intraday && b == Swing) || (a == Swing && b == Position)
    ensures HorizonParams(a).ha < HorizonParams(b).ha
    ensures HorizonParams(a).macd < HorizonParams(b).macd
    ensures HorizonParams(a).tol < HorizonParams(b).tol
  {}

  /** The indicator facts the decision reads (lines 230-250). */
  datatype Evidence = Evidence(
    haGreenStreak: nat, haRedStreak: nat,
    macdPosStreak: nat, macdNegStreak: nat,
    macdDecelPos: bool, macdDecelNeg: bool,
    rsiHigh: bool, rsiLow: bool)

  /** Overheat at the roof: near R2 or R3 after a long green Heikin-Ashi or
      positive MACD run that is slowing down or has RSI high. */
  predicate Overheat(hp: StrategyParams, piv: PivotSet, price: real, ev: Evidence) {
    (Near(price, piv.r2, hp.tol) || Near(price, piv.r3, hp.tol)) &&
    (ev.haGreenStreak >= hp.ha || ev.macdPosStreak >= hp.macd) &&
    (ev.macdDecelPos || ev.rsiHigh)
  }

  /** Oversold at the floor: the mirror image at S2 or S3. */
  predicate Oversold(hp: StrategyParams, piv: PivotSet, price: real, ev: Evidence) {
    (Near(price, piv.s2, hp.tol) || Near(price, piv.s3, hp.tol)) &&
    (ev.haRedStreak >= hp.ha || ev.macdNegStreak >= hp.macd) &&
    (ev.macdDecelNeg || ev.rsiLow)
  }

  /** The strength gate that turns an overheat into an active SHORT. */
  predicate StrongShort(hp: StrategyParams, piv: PivotSet, price: real, ev: Evidence) {
    Near(price, piv.r3, hp.tol) || (ev.macdPosStreak >= hp.macd + 2 && ev.rsiHigh)
  }

  /** The strength gate that turns an oversold into an active BUY. */
  predicate StrongBuy(hp: StrategyParams, piv: PivotSet, price: real, ev: Evidence) {
    Near(price, piv.s3, hp.tol) || (ev.macdNegStreak >= hp.macd + 2 && ev.rsiLow)
  }

  /** The higher timeframe is bullish: the price is above its R1. */
  predicate BiasUp(pivHi: PivotSet, price: real) { price > pivHi.r1 }

  /** The higher timeframe is bearish: the price is below its S1. */
  predicate BiasDown(pivHi: PivotSet, price: real) { price < pivHi.s1 }

  /** The primary idea of the signal. */
  datatype Signal = Signal(action: Action, entry: real, tp1: real, tp2: real, stop: real, confidence: real)

  /** What the alternative plan waits for. */
  datatype AltTrigger =
    | RejectionAtResistance  // a reversal bar at R2/R3 or a Heikin-Ashi colour change
    | RejectionAtSupport     // a reversal bar at S2/S3 or a Heikin-Ashi colour change
    | ApproachToBands        // the price reaching R2/R3 or S2/S3 and stalling

  /** The alternative plan of lines 353-378. */
  datatype AltPlan = AltPlan(trigger: AltTrigger, action: Action, entry: real, tp1: real, tp2: real, stop: real)

  /** The branch table of lines 277-321 over the decision's tests: overheat
      is tested before oversold, the active action needs the strength gate,
      and each branch has its own targets and stop; with neither test the
      levels sit around the price at multiples of the ATR. */
  predicate LevelsTable(piv: PivotSet, tol: real, price: real, lastAtr: real,
                        overheat: bool, oversold: bool, nearR3: bool, nearS3: bool,
                        strongShort: bool, strongBuy: bool,
                        action: Action, tp1: real, tp2: real, stop: real)
  {
    if overheat then
      && action == (if strongShort then Short else Wait)
      && (nearR3 ==> tp1 == piv.r2 && tp2 == piv.p && stop == piv.r3 * (1.0 + tol))
      && (!nearR3 ==> tp1 == (piv.p + piv.s1) / 2.0 && tp2 == (if strongShort then piv.s2 else piv.s1) &&
                      stop == piv.r2 * (1.0 + tol))
    else if oversold then
      && action == (if strongBuy then Buy else Wait)
      && (nearS3 ==> tp1 == piv.s2 && tp2 == piv.p && stop == piv.s3 * (1.0 - tol))
      && (!nearS3 ==> tp1 == (piv.p + piv.r1) / 2.0 && tp2 == (if strongBuy then piv.r2 else piv.r1) &&
                      stop == piv.s2 * (1.0 - tol))
    else
      action == Wait && tp1 == price + 0.6 * lastAtr && tp2 == price + 1.1 * lastAtr &&
      stop == price - 0.8 * lastAtr
  }

  /** The branch table applied to the tests of `generate_signal_core`. */
  predicate LevelsChosen(hp: StrategyParams, piv: PivotSet, price: real, lastAtr: real, ev: Evidence,
                         action: Action, tp1: real, tp2: real, stop: real)
  {
    LevelsTable(piv, hp.tol, price, lastAtr,
      Overheat(hp, piv, price, ev), Oversold(hp, piv, price, ev),
      Near(price, piv.r3, hp.tol), Near(price, piv.s3, hp.tol),
      StrongShort(hp, piv, price, ev), StrongBuy(hp, piv, price, ev),
      action, tp1, tp2, stop)
  }

  /** The branch table read as iffs: SHORT exactly on a strong overheat,
      BUY exactly on a strong oversold without overheat, never CLOSE; at R3
      and S3 the gate is always passed; and the levels of each band. */
  lemma LevelsTableMeans(piv: PivotSet, tol: real, price: real, lastAtr: real,
                           overheat: bool, oversold: bool, nearR3: bool, nearS3: bool,
                           strongShort: bool, strongBuy: bool,
                           action: Action, tp1: real, tp2: real, stop: real)
    requires LevelsTable(piv, tol, price, lastAtr, overheat, oversold, nearR3, nearS3,
                         strongShort, strongBuy, action, tp1, tp2, stop)
    requires nearR3 ==> strongShort
    requires nearS3 ==> strongBuy
    ensures action != Close
    ensures action == Short <==> overheat && strongShort
    ensures action == Buy <==> !overheat && oversold && strongBuy
    ensures overheat && nearR3 ==>
      action == Short && tp1 == piv.r2 && tp2 == piv.p && stop == piv.r3 * (1.0 + tol)
    ensures overheat && !nearR3 ==>
      tp1 == (piv.p + piv.s1) / 2.0 && tp2 == (if strongShort then piv.s2 else piv.s1) &&
      stop == piv.r2 * (1.0 + tol)
    ensures !overheat && oversold && nearS3 ==>
      action == Buy && tp1 == piv.s2 && tp2 == piv.p && stop == piv.s3 * (1.0 - tol)
    ensures !overheat && oversold && !nearS3 ==>
      tp1 == (piv.p + piv.r1) / 2.0 && tp2 == (if strongBuy then piv.r2 else piv.r1) &&
      stop == piv.s2 * (1.0 - tol)
    ensures !overheat && !oversold ==>
      action == Wait && tp1 == price + 0.6 * lastAtr && tp2 == price + 1.1 * lastAtr &&
      stop == price - 0.8 * lastAtr
  {
  }

  /** What the branch table says about the action and the levels: the SHORT
      and BUY iffs (overheat wins, the strength gate decides), the levels of
      each band, and the neutral WAIT. */
  lemma LevelsChosenMeans(hp: StrategyParams, piv: PivotSet, price: real, lastAtr: real, ev: Evidence,
                          action: Action, tp1: real, tp2: real, stop: real)
    requires LevelsChosen(hp, piv, price, lastAtr, ev, action, tp1, tp2, stop)
    ensures action != Close
    ensures action == Short <==> Overheat(hp, piv, price, ev) && StrongShort(hp, piv, price, ev)
    ensures action == Buy <==>
      !Overheat(hp, piv, price, ev) && Oversold(hp, piv, price, ev) && StrongBuy(hp, piv, price, ev)
    ensures Overheat(hp, piv, price, ev) && Near(price, piv.r3, hp.tol) ==>
      action == Short && tp1 == piv.r2 && tp2 == piv.p && stop == piv.r3 * (1.0 + hp.tol)
    ensures Overheat(hp, piv, price, ev) && !Near(price, piv.r3, hp.tol) ==>
      tp1 == (piv.p + piv.s1) / 2.0 &&
      tp2 == (if StrongShort(hp, piv, price, ev) then piv.s2 else piv.s1) &&
      stop == piv.r2 * (1.0 + hp.tol)
    ensures !Overheat(hp, piv, price, ev) && Oversold(hp, piv, price, ev) && Near(price, piv.s3, hp.tol) ==>
      action == Buy && tp1 == piv.s2 && tp2 == piv.p && stop == piv.s3 * (1.0 - hp.tol)
    ensures !Overheat(hp, piv, price, ev) && Oversold(hp, piv, price, ev) && !Near(price, piv.s3, hp.tol) ==>
      tp1 == (piv.p + piv.r1) / 2.0 &&
      tp2 == (if StrongBuy(hp, piv, price, ev) then piv.r2 else piv.r1) &&
      stop == piv.s2 * (1.0 - hp.tol)
    ensures !Overheat(hp, piv, price, ev) && !Oversold(hp, piv, price, ev) ==>
      action == Wait && tp1 == price + 0.6 * lastAtr && tp2 == price + 1.1 * lastAtr &&
      stop == price - 0.8 * lastAtr
  {
    LevelsTableMeans(piv, hp.tol, price, lastAtr,
      Overheat(hp, piv, price, ev), Oversold(hp, piv, price, ev),
      Near(price, piv.r3, hp.tol), Near(price, piv.s3, hp.tol),
      StrongShort(hp, piv, price, ev), StrongBuy(hp, piv, price, ev),
      action, tp1, tp2, stop);
  }

  /** Lines 277-321: compute the proximity, overheat, oversold and strength
      tests, then pick the branch and build its levels. */
  method ChooseLevels(hp: StrategyParams, piv: PivotSet, price: real, lastAtr: real, ev: Evidence)
    returns (action: Action, tp1: real, tp2: real, stop: real)
    ensures LevelsChosen(hp, piv, price, lastAtr, ev, action, tp1, tp2, stop)
  {
    var nearR3 := Near(price, piv.r3, hp.tol);
    var nearS3 := Near(price, piv.s3, hp.tol);
    var overheat := Overheat(hp, piv, price, ev);
    var oversold := Oversold(hp, piv, price, ev);
    var strongShort := StrongShort(hp, piv, price, ev);
    var strongBuy := StrongBuy(hp, piv, price, ev);
    action, tp1, tp2, stop :=
      BranchLevels(piv, hp.tol, price, lastAtr, overheat, oversold, nearR3, nearS3, strongShort, strongBuy);
  }

  /** The branch of lines 281-321 once the tests are known: overheat first,
      then oversold, else the neutral WAIT around the price. */
  method BranchLevels(piv: PivotSet, tol: real, price: real, lastAtr: real,
                      overheat: bool, oversold: bool, nearR3: bool, nearS3: bool,
                      strongShort: bool, strongBuy: bool)
    returns (action: Action, tp1: real, tp2: real, stop: real)
    ensures LevelsTable(piv, tol, price, lastAtr, overheat, oversold, nearR3, nearS3,
                        strongShort, strongBuy, action, tp1, tp2, stop)
  {
    var entry := price;
    if overheat {
      action, tp1, tp2, stop := RoofLevels(piv, tol, nearR3, strongShort);
    } else if oversold {
      action, tp1, tp2, stop := FloorLevels(piv, tol, nearS3, strongBuy);
    } else {
      action := Wait;
      tp1 := entry + (0.6 * lastAtr);
      tp2 := entry + (1.1 * lastAtr);
      stop := entry - (0.8 * lastAtr);
    }
  }

  /** Lines 283-298, overheat at the roof: SHORT only when strong; at R3 the
      targets are R2 and P above a stop beyond R3, at R2 the targets are the
      P-S1 midpoint and S1, or S2 when strong, under a stop beyond R2. */
  method RoofLevels(piv: PivotSet, tol: real, nearR3: bool, strong: bool)
    returns (action: Action, tp1: real, tp2: real, stop: real)
    ensures action == (if strong then Short else Wait)
    ensures nearR3 ==> tp1 == piv.r2 && tp2 == piv.p && stop == piv.r3 * (1.0 + tol)
    ensures !nearR3 ==> tp1 == (piv.p + piv.s1) / 2.0 && tp2 == (if strong then piv.s2 else piv.s1) &&
                        stop == piv.r2 * (1.0 + tol)
  {
    if strong {
      action := Short;
    } else {
      action := Wait;
    }
    if nearR3 {
      tp1, tp2 := piv.r2, piv.p;
      stop := piv.r3 * (1.0 + tol);
    } else {
      tp1 := (piv.p + piv.s1) / 2.0;
      tp2 := if strong then piv.s2 else piv.s1;
      stop := piv.r2 * (1.0 + tol);
    }
  }

  /** Lines 300-311, oversold at the floor: the mirror image of `RoofLevels`. */
  method FloorLevels(piv: PivotSet, tol: real, nearS3: bool, strong: bool)
    returns (action: Action, tp1: real, tp2: real, stop: real)
    ensures action == (if strong then Buy else Wait)
    ensures nearS3 ==> tp1 == piv.s2 && tp2 == piv.p && stop == piv.s3 * (1.0 - tol)
    ensures !nearS3 ==> tp1 == (piv.p + piv.r1) / 2.0 && tp2 == (if strong then piv.r2 else piv.r1) &&
                        stop == piv.s2 * (1.0 - tol)
  {
    action := if strong then Buy else Wait;
    if nearS3 {
      tp1, tp2 := piv.s2, piv.p;
      stop := piv.s3 * (1.0 - tol);
    } else {
      tp1 := (piv.p + piv.r1) / 2.0;
      tp2 := if strong then piv.r2 else piv.r1;
      stop := piv.s2 * (1.0 - tol);
    }
  }

  /** Lines 333-341: a trade against the higher timeframe loses 0.06 (a SHORT
      under a bullish bias is tested first), a trade with it gains 0.04. */
  function BiasAdjust(action: Action, biasUp: bool, biasDown: bool): real {
    if biasUp && action == Short then -0.06
    else if biasDown && action == Buy then -0.06
    else if (biasUp && action == Buy) || (biasDown && action == Short) then 0.04
    else 0.0
  }

  /** Lines 325-331: the unclamped score of a trade, 0.60 plus 0.06 for agreeing
      long streaks, 0.03 for RSI on its side, 0.03 for the outer level, and the
      bias adjustment. */
  function TradeScore(action: Action, longStreaks: bool, rsiAgrees: bool, outerLevel: bool,
                      biasUp: bool, biasDown: bool): real
  {
    0.60 + (if longStreaks then 0.06 else 0.0) + (if rsiAgrees then 0.03 else 0.0) +
    (if outerLevel then 0.03 else 0.0) + BiasAdjust(action, biasUp, biasDown)
  }

  /** Lines 345-350: a wait scores 0.55, or 0.58 with an idea, less 0.01 under
      a neutral bias. */
  function WaitScore(idea: bool, biasUp: bool, biasDown: bool): real {
    (if idea then 0.58 else 0.55) - (if !biasUp && !biasDown then 0.01 else 0.0)
  }

  /** Every trade score lies in [0.54, 0.76], inside the clamp [0.52, 0.90],
      and a trade against the bias scores at most 0.66, one with it at least 0.64. */
  lemma TradeScoreRange(action: Action, longStreaks: bool, rsiAgrees: bool, outerLevel: bool,
                        biasUp: bool, biasDown: bool)
    ensures 0.52 < 0.54 <= TradeScore(action, longStreaks, rsiAgrees, outerLevel, biasUp, biasDown) <= 0.76 < 0.90
    ensures (action == Short && biasUp) || (action == Buy && biasDown) ==>
      TradeScore(action, longStreaks, rsiAgrees, outerLevel, biasUp, biasDown) <= 0.66
    ensures (action == Short && !biasUp && biasDown) || (action == Buy && !biasDown && biasUp) ==>
      TradeScore(action, longStreaks, rsiAgrees, outerLevel, biasUp, biasDown) >= 0.64
  {
  }

  /** Lines 324-350: a trade starts at 0.60 and gains for agreeing streaks,
      for RSI on its side and for the outer level, then loses or gains for the
      higher-timeframe bias, clamped to [0.52, 0.90]; a wait is 0.55, or 0.58
      when there is an idea, less 0.01 under a neutral bias. The clamp never
      binds, so a trade's confidence is its score. */
  method ScoreConfidence(action: Action, longStreaks: bool, rsiAgrees: bool, outerLevel: bool,
                         idea: bool, biasUp: bool, biasDown: bool)
    returns (confidence: real)
    ensures IsTrade(action) ==>
      confidence == TradeScore(action, longStreaks, rsiAgrees, outerLevel, biasUp, biasDown)
    ensures IsTrade(action) ==> 0.52 <= 0.54 <= confidence <= 0.76 <= 0.90
    ensures IsTrade(action) && !longStreaks && !rsiAgrees && !outerLevel && !biasUp && !biasDown ==>
      confidence == 0.60
    ensures action == Short && biasUp ==> confidence <= 0.66
    ensures action == Short && !biasUp && biasDown ==> confidence >= 0.64
    ensures action == Buy && biasDown ==> confidence <= 0.66
    ensures action == Buy && !biasDown && biasUp ==> confidence >= 0.64
    ensures !IsTrade(action) ==> confidence == WaitScore(idea, biasUp, biasDown)
    ensures !IsTrade(action) ==>
      confidence == (if idea then 0.58 else 0.55) - (if !biasUp && !biasDown then 0.01 else 0.0)
    ensures !IsTrade(action) ==> confidence in {0.54, 0.55, 0.57, 0.58}
  {
    if action == Buy || action == Short {
      var conf := 0.60;
      if longStreaks {
        conf := conf + 0.06;
      }
      if rsiAgrees {
        conf := conf + 0.03;
      }
      if outerLevel {
        conf := conf + 0.03;
      }
      if biasUp && action == Short {
        conf := conf - 0.06;
      } else if biasDown && action == Buy {
        conf := conf - 0.06;
      } else if (biasUp && action == Buy) || (biasDown && action == Short) {
        conf := conf + 0.04;
      }
      assert conf == TradeScore(action, longStreaks, rsiAgrees, outerLevel, biasUp, biasDown);
      TradeScoreRange(action, longStreaks, rsiAgrees, outerLevel, biasUp, biasDown);
      confidence := Max(0.52, Min(0.90, conf));
    } else {
      confidence := 0.55;
      if idea {
        confidence := 0.58;
      }
      if !(biasUp || biasDown) {
        confidence := confidence - 0.01;
      }
    }
  }

  /** Both long streaks on the side of the move (line 326). */
  predicate LongStreaks(hp: StrategyParams, ev: Evidence) {
    (ev.haGreenStreak >= hp.ha && ev.macdPosStreak >= hp.macd) ||
    (ev.haRedStreak >= hp.ha && ev.macdNegStreak >= hp.macd)
  }

  /** The RSI extreme on the trade's side (line 328). */
  predicate RsiAgrees(ev: Evidence, action: Action) {
    (ev.rsiHigh && action == Short) || (ev.rsiLow && action == Buy)
  }

  /** The whole decision of lines 277-378 for given pivots, price, ATR and
      evidence: the levels of the branch table, the scored confidence, and
      an alternative plan that repeats the levels with the branch's action. */
  predicate Decided(hp: StrategyParams, piv: PivotSet, pivHi: PivotSet, price: real, lastAtr: real,
                    ev: Evidence, sig: Signal, alt: AltPlan)
  {
    var overheat := Overheat(hp, piv, price, ev);
    var oversold := Oversold(hp, piv, price, ev);
    && sig.entry == price
    && LevelsChosen(hp, piv, price, lastAtr, ev, sig.action, sig.tp1, sig.tp2, sig.stop)
    && sig.confidence ==
         (if IsTrade(sig.action) then
            TradeScore(sig.action, LongStreaks(hp, ev), RsiAgrees(ev, sig.action),
                       Near(price, piv.r3, hp.tol) || Near(price, piv.s3, hp.tol),
                       BiasUp(pivHi, price), BiasDown(pivHi, price))
          else WaitScore(overheat || oversold, BiasUp(pivHi, price), BiasDown(pivHi, price)))
    && alt == AltPlan(
         if overheat then RejectionAtResistance else if oversold then RejectionAtSupport else ApproachToBands,
         if overheat then Short else if oversold then Buy else Wait,
         price, sig.tp1, sig.tp2, sig.stop)
  }

  /** The decision is a function of its inputs. */
  lemma DecidedUnique(hp: StrategyParams, piv: PivotSet, pivHi: PivotSet, price: real, lastAtr: real,
                      ev: Evidence, sig1: Signal, alt1: AltPlan, sig2: Signal, alt2: AltPlan)
    requires Decided(hp, piv, pivHi, price, lastAtr, ev, sig1, alt1)
    requires Decided(hp, piv, pivHi, price, lastAtr, ev, sig2, alt2)
    ensures sig1 == sig2 && alt1 == alt2
  {
    var s1, s2 := sig1, sig2;
    LevelsTableUnique(piv, hp.tol, price, lastAtr,
      Overheat(hp, piv, price, ev), Oversold(hp, piv, price, ev),
      Near(price, piv.r3, hp.tol), Near(price, piv.s3, hp.tol),
      StrongShort(hp, piv, price, ev), StrongBuy(hp, piv, price, ev),
      s1.action, s1.tp1, s1.tp2, s1.stop, s2.action, s2.tp1, s2.tp2, s2.stop);
  }

  /** The branch table fixes the action and every level. */
  lemma LevelsTableUnique(piv: PivotSet, tol: real, price: real, lastAtr: real,
                          overheat: bool, oversold: bool, nearR3: bool, nearS3: bool,
                          strongShort: bool, strongBuy: bool,
                          a1: Action, t11: real, t21: real, s1: real,
                          a2: Action, t12: real, t22: real, s2: real)
    requires LevelsTable(piv, tol, price, lastAtr, overheat, oversold, nearR3, nearS3,
                         strongShort, strongBuy, a1, t11, t21, s1)
    requires LevelsTable(piv, tol, price, lastAtr, overheat, oversold, nearR3, nearS3,
                         strongShort, strongBuy, a2, t12, t22, s2)
    ensures a1 == a2 && t11 == t12 && t21 == t22 && s1 == s2
  {
  }

  /** What a decision says: the entry is the price and the alternative keeps
      the levels; SHORT needs overheat and BUY oversold without overheat; the
      alternative's action and trigger follow the branch; the R3 row of the
      table; and the confidence bounds, with the bias caps of a trade and the
      neutral WAIT's 0.55 or 0.54. */
  lemma DecidedMeans(hp: StrategyParams, piv: PivotSet, pivHi: PivotSet, price: real, lastAtr: real,
                     ev: Evidence, sig: Signal, alt: AltPlan)
    requires Decided(hp, piv, pivHi, price, lastAtr, ev, sig, alt)
    ensures sig.entry == price && alt.entry == price
    ensures alt.tp1 == sig.tp1 && alt.tp2 == sig.tp2 && alt.stop == sig.stop
    ensures sig.action != Close
    ensures sig.action == Short ==> Overheat(hp, piv, price, ev)
    ensures sig.action == Buy ==> Oversold(hp, piv, price, ev) && !Overheat(hp, piv, price, ev)
    ensures alt.action == Short <==> Overheat(hp, piv, price, ev)
    ensures alt.action == Buy <==> !Overheat(hp, piv, price, ev) && Oversold(hp, piv, price, ev)
    ensures alt.action == Wait <==> !Overheat(hp, piv, price, ev) && !Oversold(hp, piv, price, ev)
    ensures IsTrade(sig.action) ==> alt.action == sig.action
    ensures alt.trigger == (if Overheat(hp, piv, price, ev) then RejectionAtResistance
                            else if Oversold(hp, piv, price, ev) then RejectionAtSupport
                            else ApproachToBands)
    ensures Overheat(hp, piv, price, ev) && Near(price, piv.r3, hp.tol) ==>
      sig.action == Short && sig.tp1 == piv.r2 && sig.tp2 == piv.p && sig.stop == piv.r3 * (1.0 + hp.tol)
    ensures IsTrade(sig.action) ==> 0.52 <= sig.confidence <= 0.90
    ensures sig.action == Short && BiasUp(pivHi, price) ==> sig.confidence <= 0.66
    ensures sig.action == Buy && BiasDown(pivHi, price) ==> sig.confidence <= 0.66
    ensures sig.action == Wait ==> sig.confidence in {0.54, 0.55, 0.57, 0.58}
    ensures sig.action == Wait && !Overheat(hp, piv, price, ev) && !Oversold(hp, piv, price, ev) ==>
      sig.confidence == (if BiasUp(pivHi, price) || BiasDown(pivHi, price) then 0.55 else 0.54)
  {
    LevelsChosenMeans(hp, piv, price, lastAtr, ev, sig.action, sig.tp1, sig.tp2, sig.stop);
    TradeScoreRange(sig.action, LongStreaks(hp, ev), RsiAgrees(ev, sig.action),
      Near(price, piv.r3, hp.tol) || Near(price, piv.s3, hp.tol),
      BiasUp(pivHi, price), BiasDown(pivHi, price));
  }

  /** Lines 277-378 of `generate_signal_core`: the levels, the confidence and
      the alternative plan, which repeats the primary levels with the action
      of the branch taken. */
  method Decide(hp: StrategyParams, piv: PivotSet, pivHi: PivotSet, price: real, lastAtr: real, ev: Evidence)
    returns (sig: Signal, alt: AltPlan)
    ensures Decided(hp, piv, pivHi, price, lastAtr, ev, sig, alt)
    ensures sig.entry == price && alt.entry == price
    ensures alt.tp1 == sig.tp1 && alt.tp2 == sig.tp2 && alt.stop == sig.stop
    ensures sig.action != Close
    ensures sig.action == Short ==> Overheat(hp, piv, price, ev)
    ensures sig.action == Buy ==> Oversold(hp, piv, price, ev) && !Overheat(hp, piv, price, ev)
    ensures alt.action == Short <==> Overheat(hp, piv, price, ev)
    ensures alt.action == Buy <==> !Overheat(hp, piv, price, ev) && Oversold(hp, piv, price, ev)
    ensures alt.action == Wait <==> !Overheat(hp, piv, price, ev) && !Oversold(hp, piv, price, ev)
    ensures IsTrade(sig.action) ==> alt.action == sig.action
    ensures alt.trigger == (if Overheat(hp, piv, price, ev) then RejectionAtResistance
                            else if Oversold(hp, piv, price, ev) then RejectionAtSupport
                            else ApproachToBands)
    ensures Overheat(hp, piv, price, ev) && Near(price, piv.r3, hp.tol) ==>
      sig.action == Short && sig.tp1 == piv.r2 && sig.tp2 == piv.p && sig.stop == piv.r3 * (1.0 + hp.tol)
    ensures IsTrade(sig.action) ==> 0.52 <= sig.confidence <= 0.90
    ensures sig.action == Short && BiasUp(pivHi, price) ==> sig.confidence <= 0.66
    ensures sig.action == Buy && BiasDown(pivHi, price) ==> sig.confidence <= 0.66
    ensures sig.action == Wait ==> sig.confidence in {0.54, 0.55, 0.57, 0.58}
    ensures sig.action == Wait && !Overheat(hp, piv, price, ev) && !Oversold(hp, piv, price, ev) ==>
      sig.confidence == (if BiasUp(pivHi, price) || BiasDown(pivHi, price) then 0.55 else 0.54)
  {
    var action, tp1, tp2, stop := ChooseLevels(hp, piv, price, lastAtr, ev);
    var overheat := Overheat(hp, piv, price, ev);
    var oversold := Oversold(hp, piv, price, ev);
    var confidence := ScoreConfidence(action,
      LongStreaks(hp, ev),
      RsiAgrees(ev, action),
      Near(price, piv.r3, hp.tol) || Near(price, piv.s3, hp.tol),
      overheat || oversold,
      BiasUp(pivHi, price), BiasDown(pivHi, price));

    var entry := price;
    var trigger := if overheat then RejectionAtResistance
                   else if oversold then RejectionAtSupport
                   else ApproachToBands;
    var altAction := if overheat then Short else if oversold then Buy else Wait;
    alt := AltPlan(trigger, altAction, entry, tp1, tp2, stop);
    sig := Signal(action, entry, tp1, tp2, stop, confidence);
    DecidedMeans(hp, piv, pivHi, price, lastAtr, ev, sig, alt);
  }

  /** The calendar buckets of the daily series for each period, oldest first
      (the `pd.Grouper` bucketing is an input of the model). */
  datatype Calendar = Calendar(weeks: seq<seq<Bar>>, months: seq<seq<Bar>>, years: seq<seq<Bar>>)

  function Buckets(cal: Calendar, period: Period): seq<seq<Bar>> {
    match period
    case Week => cal.weeks
    case Month => cal.months
    case Year => cal.years
  }

  /** The pivot period of each horizon: weekly, monthly, yearly. */
  function PrimaryPeriod(h: Horizon): Period {
    match h
    case Intraday => Week
    case Swing => Month
    case Position => Year
  }

  /** Lines 201-212: the pivots of the previous completed period of the
      horizon's own timeframe. */
  function PrimaryPivots(h: Horizon, daily: seq<Bar>, cal: Calendar): (piv: PivotSet)
    requires |daily| > 0
    ensures exists hlc :: PreviousPeriod(daily, Buckets(cal, PrimaryPeriod(h)), PrimaryPeriod(h), hlc) &&
                          piv == FiboPivots(hlc)
  {
    var period := PrimaryPeriod(h);
    var r := LastCompletePeriodHlc(daily, Buckets(cal, period), period);
    assert PreviousPeriod(daily, Buckets(cal, period), period, r.value);
    FiboPivots(r.value)
  }

  /** Lines 201-213: the confirming pivots of the next longer period, monthly
      for intraday and yearly for swing; position has none longer and reuses
      its own yearly pivots. */
  function HigherPivots(h: Horizon, daily: seq<Bar>, cal: Calendar): (piv: PivotSet)
    requires |daily| > 0
    ensures h == Intraday ==>
      exists hlc :: PreviousPeriod(daily, cal.months, Month, hlc) && piv == FiboPivots(hlc)
    ensures h == Swing ==>
      exists hlc :: PreviousPeriod(daily, cal.years, Year, hlc) && piv == FiboPivots(hlc)
    ensures h == Position ==> piv == PrimaryPivots(h, daily, cal)
  {
    match h
    case Intraday =>
      var r := LastCompletePeriodHlc(daily, cal.months, Month);
      assert PreviousPeriod(daily, cal.months, Month, r.value);
      FiboPivots(r.value)
    case Swing =>
      var r := LastCompletePeriodHlc(daily, cal.years, Year);
      assert PreviousPeriod(daily, cal.years, Year, r.value);
      FiboPivots(r.value)
    case Position => PrimaryPivots(h, daily, cal)
  }

  /** The pivots of each timeframe are determined by the daily bars and the
      calendar buckets: any summary of the previous period gives the same. */
  lemma PrimaryPivotsDetermined(h: Horizon, daily: seq<Bar>, cal: Calendar, hlc: Hlc)
    requires |daily| > 0
    requires PreviousPeriod(daily, Buckets(cal, PrimaryPeriod(h)), PrimaryPeriod(h), hlc)
    ensures PrimaryPivots(h, daily, cal) == FiboPivots(hlc)
  {
    var period := PrimaryPeriod(h);
    var groups := Buckets(cal, period);
    var other := LastCompletePeriodHlc(daily, groups, period).value;
    assert PrimaryPivots(h, daily, cal) == FiboPivots(other);
    if |NonEmpty(groups)| >= 2 {
      SummaryUnique(NonEmpty(groups)[|NonEmpty(groups)| - 2], hlc, other);
    } else {
      SummaryUnique(Tail(daily, Window(period)), hlc, other);
    }
  }

  /** `green` and `red` are the final positive and negative runs of the
      Heikin-Ashi bodies (close minus open) of `b`. */
  ghost predicate HaStreaksOf(b: seq<Bar>, green: nat, red: nat) {
    exists haOpen: seq<real>, haClose: seq<real> ::
      && IsHeikinAshi(b, haOpen, haClose)
      && IsTailRun(Minus(haClose, haOpen), true, green)
      && IsTailRun(Minus(haClose, haOpen), false, red)
  }

  /** Lines 227-231: the green and red Heikin-Ashi runs of a non-empty
      working series, of which at most one is non-empty. */
  method HaStreaks(b: seq<Bar>) returns (green: nat, red: nat)
    requires |b| > 0
    ensures HaStreaksOf(b, green, red)
    ensures green == 0 || red == 0
    ensures green <= |b| && red <= |b|
  {
    var ha := HeikinAshi(b);
    assert ha.Ok?;
    var haOpen, haClose := ha.value.0, ha.value.1;
    var haBody := Minus(haClose, haOpen);
    green := LastStreakLength(haBody, true);
    red := LastStreakLength(haBody, false);
    StreaksExclusive(haBody, green, red);
  }

  /** Lines 238-245: the positive and negative MACD histogram runs and whether
      each side's magnitude is slowing over the last three bars. */
  method MacdEvidence(close: seq<real>) returns (pos: nat, neg: nat, decelPos: bool, decelNeg: bool)
    ensures IsTailRun(MacdHist(close), true, pos) && IsTailRun(MacdHist(close), false, neg)
    ensures decelPos == DecelerationAbs(ClipLower(MacdHist(close)), 3)
    ensures decelNeg == DecelerationAbs(ClipLower(Negated(MacdHist(close))), 3)
    ensures pos == 0 || neg == 0
    ensures pos <= |close| && neg <= |close|
    ensures (decelPos || decelNeg) ==> |close| >= 6
  {
    var hist := MacdHist(close);
    pos := LastStreakLength(hist, true);
    neg := LastStreakLength(hist, false);
    StreaksExclusive(hist, pos, neg);
    decelPos := DecelerationAbs(ClipLower(hist), 3);
    decelNeg := DecelerationAbs(ClipLower(Negated(hist)), 3);
  }

  /** Lines 247-250: the last RSI against the wider of 70 and the 80th
      percentile and the lower of 30 and the 20th percentile; the
      percentiles are only used from 50 bars on. Both flags never hold. */
  function RsiFlags(close: seq<real>, q20: real, q80: real): (r: (bool, bool))
    requires |close| > 0
    ensures !(r.0 && r.1)
    ensures r.0 ==> RsiWilder(close, 14)[|close| - 1] > 70.0
    ensures r.1 ==> RsiWilder(close, 14)[|close| - 1] < 30.0
    ensures |close| < 50 ==>
              (r.0 <==> RsiWilder(close, 14)[|close| - 1] > 70.0) &&
              (r.1 <==> RsiWilder(close, 14)[|close| - 1] < 30.0)
    ensures r.0 <==> RsiWilder(close, 14)[|close| - 1] > 70.0 &&
                     (|close| < 50 || RsiWilder(close, 14)[|close| - 1] > q80)
    ensures r.1 <==> RsiWilder(close, 14)[|close| - 1] < 30.0 &&
                     (|close| < 50 || RsiWilder(close, 14)[|close| - 1] < q20)
  {
    var rsi := RsiWilder(close, 14);
    var lo := if |rsi| >= 50 then q20 else 30.0;
    var hi := if |rsi| >= 50 then q80 else 70.0;
    var last := rsi[|rsi| - 1];
    (last > Max(70.0, hi), last < Min(30.0, lo))
  }

  /** Line 253: the last ATR, never negative when the first bar is well formed. */
  function LastAtr(b: seq<Bar>): (atr: real)
    requires |b| > 0
    ensures b[0].l <= b[0].h ==> atr >= 0.0
  {
    var series := AtrWilder(b, 14);
    series[|series| - 1]
  }

  /** The closing prices of a run of bars. */
  function Closes(b: seq<Bar>): (close: seq<real>)
    ensures |close| == |b| && forall i :: 0 <= i < |b| ==> close[i] == b[i].c
  {
    seq(|b|, i requires 0 <= i < |b| => b[i].c)
  }

  /** The evidence and the ATR that lines 227-253 read off the working bars:
      the Heikin-Ashi and MACD runs, the deceleration of each clipped side,
      the RSI flags and the last ATR. */
  ghost predicate EvidenceOf(b: seq<Bar>, q20: real, q80: real, ev: Evidence, lastAtr: real)
    requires |b| > 0
  {
    var hist := MacdHist(Closes(b));
    && HaStreaksOf(b, ev.haGreenStreak, ev.haRedStreak)
    && IsTailRun(hist, true, ev.macdPosStreak) && IsTailRun(hist, false, ev.macdNegStreak)
    && ev.macdDecelPos == DecelerationAbs(ClipLower(hist), 3)
    && ev.macdDecelNeg == DecelerationAbs(ClipLower(Negated(hist)), 3)
    && (ev.rsiHigh, ev.rsiLow) == RsiFlags(Closes(b), q20, q80)
    && lastAtr == LastAtr(b)
  }

  /** The bars determine their Heikin-Ashi runs. */
  lemma HaStreaksUnique(b: seq<Bar>, green1: nat, red1: nat, green2: nat, red2: nat)
    requires HaStreaksOf(b, green1, red1) && HaStreaksOf(b, green2, red2)
    ensures green1 == green2 && red1 == red2
  {
    var o1, c1 :| IsHeikinAshi(b, o1, c1) &&
      IsTailRun(Minus(c1, o1), true, green1) && IsTailRun(Minus(c1, o1), false, red1);
    var o2, c2 :| IsHeikinAshi(b, o2, c2) &&
      IsTailRun(Minus(c2, o2), true, green2) && IsTailRun(Minus(c2, o2), false, red2);
    HeikinAshiUnique(b, o1, c1, o2, c2);
    TailRunUnique(Minus(c1, o1), true, green1, green2);
    TailRunUnique(Minus(c1, o1), false, red1, red2);
  }

  /** The working bars determine the evidence and the ATR. */
  lemma EvidenceUnique(b: seq<Bar>, q20: real, q80: real, ev1: Evidence, atr1: real, ev2: Evidence, atr2: real)
    requires |b| > 0
    requires EvidenceOf(b, q20, q80, ev1, atr1) && EvidenceOf(b, q20, q80, ev2, atr2)
    ensures ev1 == ev2 && atr1 == atr2
  {
    HaStreaksUnique(b, ev1.haGreenStreak, ev1.haRedStreak, ev2.haGreenStreak, ev2.haRedStreak);
    var hist := MacdHist(Closes(b));
    TailRunUnique(hist, true, ev1.macdPosStreak, ev2.macdPosStreak);
    TailRunUnique(hist, false, ev1.macdNegStreak, ev2.macdNegStreak);
  }

  /** Lines 227-253 on a non-empty working series. */
  method GatherEvidence(b: seq<Bar>, q20: real, q80: real) returns (ev: Evidence, lastAtr: real)
    requires |b| > 0
    ensures EvidenceOf(b, q20, q80, ev, lastAtr)
    ensures ev.haGreenStreak == 0 || ev.haRedStreak == 0
    ensures ev.macdPosStreak == 0 || ev.macdNegStreak == 0
    ensures !(ev.rsiHigh && ev.rsiLow)
    ensures b[0].l <= b[0].h ==> lastAtr >= 0.0
  {
    var green, red := HaStreaks(b);
    var close := Closes(b);
    var pos, neg, decelPos, decelNeg := MacdEvidence(close);
    var flags := RsiFlags(close, q20, q80);
    lastAtr := LastAtr(b);
    ev := Evidence(green, red, pos, neg, decelPos, decelNeg, flags.0, flags.1);
    assert (ev.rsiHigh, ev.rsiLow) == RsiFlags(Closes(b), q20, q80);
  }

  /** Lines 216-218: the given bars when there are at least 50 of them,
      otherwise the daily bars. */
  function WorkingBars(daily: seq<Bar>, bars: Option<seq<Bar>>): (b: seq<Bar>)
    ensures b == daily || (bars.Some? && b == bars.value && |b| >= 50)
    ensures bars.Some? && |bars.value| >= 50 ==> b == bars.value
    ensures |daily| > 0 ==> |b| > 0
  {
    if bars.None? || |bars.value| < 50 then daily else bars.value
  }

  /** `sig` and `alt` are what `generate_signal_core` decides for these inputs:
      the decision on the pivots of the previous period, the higher
      timeframe's pivots and the evidence read off the working bars. */
  ghost predicate SignalOf(horizon: Horizon, lastPrice: real, daily: seq<Bar>, cal: Calendar,
                           bars: Option<seq<Bar>>, q20: real, q80: real, sig: Signal, alt: AltPlan)
  {
    |daily| > 0 &&
    exists ev: Evidence, lastAtr: real ::
      && EvidenceOf(WorkingBars(daily, bars), q20, q80, ev, lastAtr)
      && Decided(HorizonParams(horizon), PrimaryPivots(horizon, daily, cal), HigherPivots(horizon, daily, cal),
                 lastPrice, lastAtr, ev, sig, alt)
  }

  /** The signal is a function of the inputs: one evidence, one decision. */
  lemma SignalOfUnique(horizon: Horizon, lastPrice: real, daily: seq<Bar>, cal: Calendar,
                       bars: Option<seq<Bar>>, q20: real, q80: real,
                       sig1: Signal, alt1: AltPlan, sig2: Signal, alt2: AltPlan)
    requires SignalOf(horizon, lastPrice, daily, cal, bars, q20, q80, sig1, alt1)
    requires SignalOf(horizon, lastPrice, daily, cal, bars, q20, q80, sig2, alt2)
    ensures sig1 == sig2 && alt1 == alt2
  {
    var b := WorkingBars(daily, bars);
    var hp := HorizonParams(horizon);
    var piv, pivHi := PrimaryPivots(horizon, daily, cal), HigherPivots(horizon, daily, cal);
    var ev1, atr1 :| EvidenceOf(b, q20, q80, ev1, atr1) && Decided(hp, piv, pivHi, lastPrice, atr1, ev1, sig1, alt1);
    var ev2, atr2 :| EvidenceOf(b, q20, q80, ev2, atr2) && Decided(hp, piv, pivHi, lastPrice, atr2, ev2, sig2, alt2);
    EvidenceUnique(b, q20, q80, ev1, atr1, ev2, atr2);
    DecidedUnique(hp, piv, pivHi, lastPrice, atr1, ev1, sig1, alt1, sig2, alt2);
  }

  /** What the core's signal says on its own: the entry is the last price,
      the alternative keeps the levels, CLOSE never comes out, a SHORT sits
      near R2 or R3 and a BUY near S2 or S3 of the previous period's pivots,
      and the confidence bounds. */
  lemma SignalOfMeans(horizon: Horizon, lastPrice: real, daily: seq<Bar>, cal: Calendar,
                      bars: Option<seq<Bar>>, q20: real, q80: real, sig: Signal, alt: AltPlan)
    requires SignalOf(horizon, lastPrice, daily, cal, bars, q20, q80, sig, alt)
    ensures sig.entry == lastPrice && alt.entry == lastPrice
    ensures alt.tp1 == sig.tp1 && alt.tp2 == sig.tp2 && alt.stop == sig.stop
    ensures sig.action != Close
    ensures sig.action == Short ==>
      var piv := PrimaryPivots(horizon, daily, cal);
      Near(lastPrice, piv.r2, HorizonParams(horizon).tol) || Near(lastPrice, piv.r3, HorizonParams(horizon).tol)
    ensures sig.action == Buy ==>
      var piv := PrimaryPivots(horizon, daily, cal);
      Near(lastPrice, piv.s2, HorizonParams(horizon).tol) || Near(lastPrice, piv.s3, HorizonParams(horizon).tol)
    ensures IsTrade(sig.action) ==> 0.52 <= sig.confidence <= 0.90
    ensures sig.action == Wait ==> sig.confidence in {0.54, 0.55, 0.57, 0.58}
  {
    var hp := HorizonParams(horizon);
    var piv, pivHi := PrimaryPivots(horizon, daily, cal), HigherPivots(horizon, daily, cal);
    var ev, lastAtr :| EvidenceOf(WorkingBars(daily, bars), q20, q80, ev, lastAtr) &&
      Decided(hp, piv, pivHi, lastPrice, lastAtr, ev, sig, alt);
    DecidedMeans(hp, piv, pivHi, lastPrice, lastAtr, ev, sig, alt);
  }

  /** `generate_signal_core` after the daily bars are fetched: pivots of the
      previous completed period, indicators on the working bars (the daily
      bars when none or fewer than 50 are given), then the decision. The RSI
      percentiles `q20`/`q80` of the last 200 bars are inputs. */
  method GenerateSignalCore(horizon: Horizon, lastPrice: real, daily: seq<Bar>, cal: Calendar,
                            bars: Option<seq<Bar>>, q20: real, q80: real)
    returns (r: Result<(Signal, AltPlan)>)
    ensures r.Err? <==> |daily| == 0
    ensures r.Err? ==> r.error == ValueError
    ensures r.Ok? ==> SignalOf(horizon, lastPrice, daily, cal, bars, q20, q80, r.value.0, r.value.1)
    ensures r.Ok? ==> r.value.0.entry == lastPrice && r.value.1.entry == lastPrice
    ensures r.Ok? ==> r.value.0.action != Close
    ensures r.Ok? && r.value.0.action == Short ==>
      var piv := PrimaryPivots(horizon, daily, cal);
      Near(lastPrice, piv.r2, HorizonParams(horizon).tol) || Near(lastPrice, piv.r3, HorizonParams(horizon).tol)
    ensures r.Ok? && r.value.0.action == Buy ==>
      var piv := PrimaryPivots(horizon, daily, cal);
      Near(lastPrice, piv.s2, HorizonParams(horizon).tol) || Near(lastPrice, piv.s3, HorizonParams(horizon).tol)
    ensures r.Ok? ==> r.value.1.tp1 == r.value.0.tp1 && r.value.1.tp2 == r.value.0.tp2 &&
                      r.value.1.stop == r.value.0.stop
    ensures r.Ok? && IsTrade(r.value.0.action) ==> 0.52 <= r.value.0.confidence <= 0.90
    ensures r.Ok? && r.value.0.action == Wait ==> r.value.0.confidence in {0.54, 0.55, 0.57, 0.58}
  {
    var hp := HorizonParams(horizon);
    if |daily| == 0 {
      return Err(ValueError);
    }
    var piv := PrimaryPivots(horizon, daily, cal);
    var pivHi := HigherPivots(horizon, daily, cal);

    var b := WorkingBars(daily, bars);
    var ev, lastAtr := GatherEvidence(b, q20, q80);
    var sig, alt := Decide(hp, piv, pivHi, lastPrice, lastAtr, ev);
    assert EvidenceOf(b, q20, q80, ev, lastAtr) && Decided(hp, piv, pivHi, lastPrice, lastAtr, ev, sig, alt);
    SignalOfMeans(horizon, lastPrice, daily, cal, bars, q20, q80, sig, alt);
    return Ok((sig, alt));
  }

  /** Overheat and oversold can hold together: on a narrow period both bands
      lie within tolerance of the price, a green Heikin-Ashi run can coexist
      with a negative MACD run, and a negative histogram counts as a slowing
      positive one. The overheat branch then wins. */
  lemma BothSidesCanHold(hp: StrategyParams, hlc: Hlc, price: real, ev: Evidence)
    requires hp == HorizonParams(Intraday) && hlc == Hlc(100.1, 99.9, 100.0) && price == 100.0
    requires ev == Evidence(4, 0, 0, 4, true, true, false, false)
    ensures Overheat(hp, FiboPivots(hlc), price, ev) && Oversold(hp, FiboPivots(hlc), price, ev)
  {
    var piv := FiboPivots(hlc);
    NearMeans(price, piv.r2, hp.tol);
    NearMeans(price, piv.s2, hp.tol);
  }

  /** On a narrow period a price within tolerance of R3 can sit below R2, so
      the SHORT of the R3 branch then has its first target above the entry. */
  lemma ShortTargetCanExceedEntry(hp: StrategyParams, hlc: Hlc, price: real)
    requires hp == HorizonParams(Intraday) && hlc == Hlc(100.1, 99.9, 100.0) && price == 99.6
    ensures Near(price, FiboPivots(hlc).r3, hp.tol) && FiboPivots(hlc).r2 > price
  {
    var piv := FiboPivots(hlc);
    NearMeans(price, piv.r3, hp.tol);
  }
}
