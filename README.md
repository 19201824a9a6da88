# capintel signal core in Dafny

A model of the signal core of the capintel trading-idea generator:

- **Strategy** (`capintel/strategy/my_strategy.py`): Fibonacci pivots of the previous completed week, month or year; Heikin-Ashi candles; EMA, MACD histogram, Wilder RSI and Wilder ATR; the streak, deceleration and proximity tests; and the decision of `generate_signal_core`. That decision has three branches, checked in this order:
  - overheat at R2/R3 leads to SHORT or WAIT;
  - oversold at S2/S3 leads to BUY or WAIT;
  - otherwise the result is a neutral WAIT.

  The decision also builds the levels from the pivots, scores the confidence (adjusted by the bias of a higher timeframe), and adds an alternative plan that mirrors the primary levels.
- **Risk helpers** (`capintel/risk.py`): clamping targets and stops to the correct side of the entry, and sizing a position by confidence under a per-(asset class, horizon) cap.
- **Stub engine** (`capintel/signal_engine.py`): per-horizon buffers, the deterministic level arithmetic of `gen_levels` and `alternative_scenario`, and the clamped confidence of `gen_confidence`.
- **Ticker normalisation** (`capintel/providers/polygon_client.py`, `_norm_crypto_pair`): splitting a crypto ticker into base and quote currency.

## How the model is built

Prices are `real`. Series are sequences, oldest first.

- The Python functions that compute values become Dafny functions, each with a named result and a contract.
- The code that fills an array or counts in a loop becomes a method with a loop and invariants:
  - the Heikin-Ashi open column;
  - the reverse scan of `_last_streak_length`.
- The step-by-step reassignment of `action`, the levels and `conf` in `generate_signal_core` becomes methods with branches and no loop (`Strategy.ChooseLevels`, `Strategy.ScoreConfidence`, `Strategy.Decide`). Each is proved against a specification: the branch table `Strategy.LevelsChosen`, the scores `Strategy.TradeScore` and `Strategy.WaitScore`, and the whole decision `Strategy.Decided`.
- The evidence read off the working bars is specified by `Strategy.EvidenceOf`: the Heikin-Ashi runs are the final runs of the bodies of the columns that satisfy the Heikin-Ashi recurrence, the MACD runs and deceleration flags are those of `Indicators.MacdHist`, and the RSI flags and ATR are `Strategy.RsiFlags` and `Strategy.LastAtr`. The signal of `generate_signal_core` is specified by `Strategy.SignalOf`, which fixes it completely (`Strategy.SignalOfUnique`).
- Python exceptions that escape the core become `Err` values of `Wrappers.Result`:
  - an empty daily frame raises `ValueError` in the period selection;
  - an empty working series raises `IndexError` in the Heikin-Ashi step;
  - more than one "/" in a ticker raises `ValueError` when the split is unpacked.
- pandas behaviour is spelled out where it decides a value:
  - `ewm(adjust=False)` is the left fold y0 = x0, yᵢ = (1−α)·yᵢ₋₁ + α·xᵢ;
  - for the RSI, the NaN of `close.diff()` at the first bar makes the fold start at the second bar, and `fillna(50)` gives the first RSI value of 50;
  - the row maximum of the ATR skips that NaN, so the first true range is high − low;
  - `v[-0:]` is the whole array, so a deceleration lookback of 0 looks at every value.

Two properties of the code, proved in the model:

- **RSI where the smoothed down-move is zero.** A textbook Wilder RSI reads 100 there. This code divides by NaN instead, and `fillna(50)` makes the value 50. The model follows the code, so RSI never reaches 100 (`Indicators.RsiWilder`).
- **Deceleration on the silent side.** The deceleration flag of a side is computed on the histogram clipped at zero. Once a histogram of at least six values has its last three values not positive, the clipped tail is all zeros and `macd_decel_pos` holds (`Patterns.ClippedSilentSideDecelerates`). Together with a green Heikin-Ashi run, this lets overheat and oversold hold at once on a narrow period (`Strategy.BothSidesCanHold`); the overheat branch then wins.

Two more observations, both shown on a narrow period:

- A price within tolerance of R3 can lie below R2 (`Strategy.ShortTargetCanExceedEntry`). The SHORT of the R3 branch then has its first target above its entry, and nothing in `generate_signal_core` re-sanitises these levels.
- Every BUY or SHORT confidence lies in [0.54, 0.76]. The clamp to [0.52, 0.90] at `capintel/strategy/my_strategy.py:343` therefore never binds (`Strategy.TradeScoreRange`, `Strategy.ScoreConfidence`).

## Model

| member | source | states |
|---|---|---|
| Risk.SanitizeLevels | capintel/risk.py:17-26 | BUY: tp1 is raised to at least entry·1.001, tp2 to at least tp1·1.001, and stop is lowered to at most entry·0.999, each being the old value or the bound; SHORT mirrors this; with entry > 0 a BUY ends stop < entry < tp1 < tp2 and a SHORT ends tp1 < entry < stop, with tp2 < tp1 when tp1 > 0; any other action returns the levels unchanged |
| Risk.SanitizeIdempotent | capintel/risk.py:17-26 | sanitising already sanitised levels changes nothing |
| Risk.PositionCap | capintel/risk.py:5-13 | the cap is the table entry for a known (asset class, horizon) pair, 1.0 for any other pair, and always in [0.8, 2.0] |
| Risk.TargetVolPositionSize | capintel/risk.py:4-15 | for confidence in [0, 1] the size lies between 0.3 and the cap; confidence 0 gives 0.3 and confidence 1 gives the cap |
| Risk.PositionSizeMonotone | capintel/risk.py:14 | a higher confidence never gives a smaller size |
| SignalEngine.HorizonParams | capintel/signal_engine.py:14-15 | intraday, swing and position give buffer and expiry (25, 8), (60, 48) and (200, 168) |
| SignalEngine.HorizonParamsGrow | capintel/signal_engine.py:14-15 | buffer and expiry both grow from intraday to swing to position |
| SignalEngine.Sanitized | capintel/signal_engine.py:35 | the sanitised setup keeps the entry, is a fixpoint of sanitising, and is ordered stop < entry < tp1 < tp2 for BUY and tp2 < tp1 < entry < stop for SHORT when the entry is positive and either tp1 is positive or the raw tp2 lies below the raw tp1 |
| SignalEngine.GenLevels | capintel/signal_engine.py:21-36 | WAIT and CLOSE put all four levels at the price; a BUY at a positive price, with a buffer of at most 10000 bp, gets stop < entry ≤ price and entry < tp1 < tp2; a SHORT at a positive price gets tp2 < tp1 < entry < stop and entry ≥ price (tests/test_signal_engine.py:6-11) |
| SignalEngine.BuyLevels | capintel/signal_engine.py:22-26 | the BUY levels of a positive price with a buffer of at most 100 %: sanitised, stop < entry < tp1 < tp2, and the entry at or below the price |
| SignalEngine.ShortLevels | capintel/signal_engine.py:27-31 | the SHORT levels of a positive price: sanitised, tp2 < tp1 < entry < stop, and the entry at or above the price |
| SignalEngine.AlternativeScenario | capintel/signal_engine.py:44-59 | SHORT maps to SHORT and every other action to BUY; the levels are sanitised for that action and ordered; the trigger level lies between the entry and the alternative entry, on the side the plan waits for |
| SignalEngine.BuyAlternative | capintel/signal_engine.py:46-48 | the BUY continuation enters above the entry, after the price holds above a level between the two, with stop < entry < tp1 < tp2 |
| SignalEngine.ShortAlternative | capintel/signal_engine.py:50-52 | the SHORT continuation enters below the entry, after the price holds below a level between the two, with tp2 < tp1 < entry < stop |
| SignalEngine.BreakoutAlternative | capintel/signal_engine.py:54-56 | the breakout BUY enters above the entry, after the price breaks above a level between the two, with stop < entry < tp1 < tp2 |
| SignalEngine.GenConfidence | capintel/signal_engine.py:38-42 | with the per-action base `SignalEngine.BaseConfidence` (0.52 WAIT, 0.60 BUY/SHORT, 0.55 CLOSE), the confidence lies in [0.50, 0.90], equals base + draw when that is inside the range and 0.50 when below it, and for a draw in [−0.05, 0.08] is at most base + 0.08 |
| PolygonClient.RemoveAll | capintel/providers/polygon_client.py:22 | removal never lengthens the string or adds characters, and removing a one-character pattern leaves none of it |
| PolygonClient.RemoveCharAppend | capintel/providers/polygon_client.py:22 | removing one character distributes over concatenation and drops exactly that character from a one-character string, so every other character is kept, in order |
| PolygonClient.RemoveAllAbsent | capintel/providers/polygon_client.py:22 | removing a pattern that has a character the string lacks leaves the string unchanged |
| PolygonClient.Upper | capintel/providers/polygon_client.py:22 | upper-casing keeps the length, leaves no letter a–z, turns each a–z into the capital at the same place in the alphabet, and keeps every other character |
| PolygonClient.MatchQuote | capintel/providers/polygon_client.py:25-27 | base + quote is the cleaned ticker; the first quote in the order USDT, USD, EUR, GBP, RUB that leaves a non-empty base is split off; with no match the split falls after the third character |
| PolygonClient.NormCryptoPair | capintel/providers/polygon_client.py:21-27 | with a "/" the result is Ok exactly when there is one "/", and then base + "/" + quote is the upper-cased ticker; without a "/", base + quote is the cleaned ticker, a quote that can be split off is the one returned, and with none the base is the first three characters and the quote is not a known quote |
| PolygonClient.NormaliseStripsSeparators | capintel/providers/polygon_client.py:22 | the cleaned ticker `PolygonClient.Normalise` (remove "X:", ":", "-", "_", then upper-case) holds no ":", "-", "_" or lower-case letter |
| PolygonClient.NormaliseAlphanumeric | capintel/providers/polygon_client.py:22 | cleaning a ticker made only of letters and digits just upper-cases it |
| PolygonClient.TestedPairs | tests/test_polygon_client.py:4-7 | "BTCUSD", "BTC/USDT", "ethusdt" and "X:BTCUSD" give (BTC, USD), (BTC, USDT), (ETH, USDT) and (BTC, USD) |
| PolygonClient.SplitAt | capintel/providers/polygon_client.py:24 | splitting on the first occurrence of a character reassembles the string, and the left side does not contain that character |
| Indicators.Alpha | capintel/strategy/my_strategy.py:23-24 | the smoothing factor lies in (0, 1] |
| Indicators.Ewm | capintel/strategy/my_strategy.py:23-25 | the smoothed series has the input's length and starts at the first observation, as `adjust=False` seeds it |
| Indicators.EwmPrefix | capintel/strategy/my_strategy.py:23-25 | later observations never change earlier smoothed values |
| Indicators.EwmRecurrence | capintel/strategy/my_strategy.py:23-25 | every smoothed value after the first is (1−α) times the previous smoothed value plus α times the observation |
| Indicators.EwmWithin | capintel/strategy/my_strategy.py:23-25 | smoothing never leaves the range of its input |
| Indicators.EwmConstant | capintel/strategy/my_strategy.py:23-25 | a constant series smooths to itself |
| Indicators.MacdHist | capintel/strategy/my_strategy.py:48-54 | the histogram has the length of the close series and starts at 0 |
| Indicators.MacdHistFlat | capintel/strategy/my_strategy.py:48-54 | a flat close series has a zero histogram everywhere |
| Indicators.SmoothedUp | capintel/strategy/my_strategy.py:27-31 | the smoothed up-moves start at the second bar and are never negative |
| Indicators.SmoothedDown | capintel/strategy/my_strategy.py:27-32 | the smoothed down-moves start at the second bar and are never negative |
| Indicators.RsiPoint | capintel/strategy/my_strategy.py:33-35 | each RSI value lies in [0, 100); it is 50 when the smoothed down-move is 0; otherwise it is above 50 exactly when the smoothed up-move exceeds the down-move, and 50 exactly when they are equal |
| Indicators.RsiMonotone | capintel/strategy/my_strategy.py:33-34 | 100 − 100/(1 + au/ad) is above 50 exactly when au > ad and equals 50 exactly when au = ad |
| Indicators.RsiWilder | capintel/strategy/my_strategy.py:27-35 | the RSI has the length of the closes, lies in [0, 100) and starts at 50; it is 50 wherever the smoothed down-move is 0, and elsewhere above 50 exactly when the smoothed up-move is larger |
| Indicators.BarRange | capintel/strategy/my_strategy.py:40-43 | a bar's true range is the largest of its span and its two gaps to the previous close |
| Indicators.TrueRange | capintel/strategy/my_strategy.py:37-43 | the first true range is high − low; each later one is non-negative, at least the bar's span and both gaps to the previous close, and equal to one of those three |
| Indicators.AtrWilder | capintel/strategy/my_strategy.py:37-46 | the ATR has the length of the bars and, when the first bar has low ≤ high, lies between 0 and the largest true range |
| Indicators.HeikinAshi | capintel/strategy/my_strategy.py:56-68 | no bars gives IndexError; otherwise both columns have the input's length, each close is (o+h+l+c)/4, the first open is (o0+c0)/2 and each later open is the midpoint of the previous Heikin-Ashi open and close |
| Indicators.HeikinAshiWithin | capintel/strategy/my_strategy.py:56-68 | Heikin-Ashi opens and closes stay inside the price band of well-formed bars |
| Indicators.HeikinAshiUnique | capintel/strategy/my_strategy.py:56-68 | the recurrence determines both columns from the bars |
| Patterns.Sign | capintel/strategy/my_strategy.py:75 | the sign is −1, 0 or 1 and agrees with the value's sign |
| Patterns.LastStreakLength | capintel/strategy/my_strategy.py:70-85 | the result is the length of the final run of the requested sign: between 0 and the length, every counted entry has that sign, and the entry before the run does not |
| Patterns.TailRunUnique | capintel/strategy/my_strategy.py:70-85 | the final run has only one length |
| Patterns.TailRunEmpty | capintel/strategy/my_strategy.py:76-84 | the run is empty exactly when there are no values or the newest is zero or of the other sign |
| Patterns.StreaksExclusive | capintel/strategy/my_strategy.py:70-85 | the positive and negative runs cannot both be non-empty |
| Patterns.WindowStart | capintel/strategy/my_strategy.py:92 | the window holds the last `lookback` values, and for a lookback of 0 starts at index 0, i.e. holds all of them (`v[-0:]`) |
| Patterns.AdjacentChains | capintel/strategy/my_strategy.py:93 | magnitudes that never grow from one step to the next never grow over any pair, and conversely |
| Patterns.DecelerationAbs | capintel/strategy/my_strategy.py:87-93 | true exactly when there are at least lookback + 3 values and the magnitudes over the window never grow between any earlier and later value |
| Patterns.ClippedSilentSideDecelerates | capintel/strategy/my_strategy.py:244-245 | a histogram of at least six values whose last three values are not positive counts as decelerating once clipped at zero |
| Patterns.NearMeans | capintel/strategy/my_strategy.py:166-169 | `Patterns.Near` is false for any level ≤ 0, and otherwise holds exactly when the distance is at most tol·level, i.e. the price is within level·(1 ± tol) |
| Patterns.RelativeDistance | capintel/strategy/my_strategy.py:169 | the relative distance is within the tolerance exactly when the distance is within tol·level |
| Pivots.FiboPivots | capintel/strategy/my_strategy.py:95-106 | P = (H+L+C)/3, each R_k − P equals P − S_k, R3 − P = H − L, H > L gives S3 < S2 < S1 < P < R1 < R2 < R3, and H = L makes all seven equal |
| Pivots.FiboPivotsExample | capintel/strategy/my_strategy.py:95-106 | H = 110, L = 90, C = 100 gives P 100, R 107.64/112.36/120 and S 92.36/87.64/80 |
| Pivots.Window | capintel/strategy/my_strategy.py:157 | the fallback windows are 5, 22 and 252 days |
| Pivots.MaxHigh | capintel/strategy/my_strategy.py:154 | the bucket high bounds every bar's high and is attained |
| Pivots.MinLow | capintel/strategy/my_strategy.py:154 | the bucket low bounds every bar's low and is attained |
| Pivots.Aggregate | capintel/strategy/my_strategy.py:154 | the aggregate of a bucket is its highest high, lowest low and last close |
| Pivots.NonEmpty | capintel/strategy/my_strategy.py:154 | dropping buckets without bars keeps exactly the non-empty ones |
| Pivots.NonEmptyAppend | capintel/strategy/my_strategy.py:154 | dropping empty buckets distributes over concatenation and keeps or drops a single bucket by its emptiness, so the remaining buckets keep their order |
| Pivots.Tail | capintel/strategy/my_strategy.py:158 | the tail is the last `window` bars, or all of them when fewer |
| Pivots.LastCompletePeriodHlc | capintel/strategy/my_strategy.py:137-164 | empty daily data is a ValueError; with two or more non-empty buckets the result summarises the second-to-last; otherwise it summarises the fallback window of daily bars |
| Pivots.SummaryOrdered | capintel/strategy/my_strategy.py:155-163 | the summary of well-formed bars has L ≤ C ≤ H, so its pivots are ordered or all equal |
| Pivots.SummaryUnique | capintel/strategy/my_strategy.py:154-163 | a run of bars has only one summary (highest high, lowest low, last close) |
| Strategy.HorizonParams | capintel/strategy/my_strategy.py:171-177 | intraday, swing and position use streak minimums 4/4, 5/6 and 6/8 and tolerances 0.0065, 0.0090 and 0.0120 |
| Strategy.HorizonParamsWiden | capintel/strategy/my_strategy.py:171-177 | a longer horizon asks for longer streaks and allows a wider tolerance |
| Strategy.PrimaryPivots | capintel/strategy/my_strategy.py:201-212 | the pivots are the Fibonacci pivots of a summary of the previous completed period of the horizon's own timeframe (week, month, year) |
| Strategy.HigherPivots | capintel/strategy/my_strategy.py:201-213 | the confirming pivots summarise the previous month for intraday and the previous year for swing; position reuses its own pivots |
| Strategy.PrimaryPivotsDetermined | capintel/strategy/my_strategy.py:201-212 | any summary of the previous period gives the same pivots |
| Strategy.ChooseLevels | capintel/strategy/my_strategy.py:277-321 | the result meets the branch table `Strategy.LevelsChosen` over the tests `Strategy.Overheat`, `Strategy.Oversold` (lines 264-269), the strength gates `Strategy.StrongShort`, `Strategy.StrongBuy` (lines 285, 302) and near R3/S3 |
| Strategy.BranchLevels | capintel/strategy/my_strategy.py:283-321 | once the tests are known, the action and levels are those of the branch table `Strategy.LevelsTable` |
| Strategy.LevelsTableMeans | capintel/strategy/my_strategy.py:283-321 | the branch table gives SHORT exactly on a strong overheat and BUY exactly on a strong oversold without overheat, never CLOSE, and each band's levels: near R3 tp1 = R2, tp2 = P, stop = R3·(1+tol); at R2 (P+S1)/2 and S2 or S1 under R2·(1+tol); the floor mirrored; neutral WAIT with ATR targets +0.6/+1.1 and stop −0.8 |
| Strategy.LevelsChosenMeans | capintel/strategy/my_strategy.py:277-321 | the same facts in terms of `Strategy.Overheat`, `Strategy.Oversold`, `Strategy.StrongShort`, `Strategy.StrongBuy` and `Patterns.Near`: overheat is tested before oversold and the strength gate decides the active action |
| Strategy.LevelsTableUnique | capintel/strategy/my_strategy.py:277-321 | the branch table fixes the action and all three levels |
| Strategy.RoofLevels | capintel/strategy/my_strategy.py:283-298 | the roof levels: SHORT only when strong; the R3 and R2 level formulas |
| Strategy.FloorLevels | capintel/strategy/my_strategy.py:300-311 | the floor levels: BUY only when strong; the S3 and S2 level formulas |
| Strategy.ScoreConfidence | capintel/strategy/my_strategy.py:324-350 | a BUY/SHORT confidence equals its score `Strategy.TradeScore` (0.60, +0.06 for long streaks on both indicators, +0.03 for RSI on its side, +0.03 at R3/S3, and `Strategy.BiasAdjust`: −0.06 against the higher timeframe, +0.04 with it), since the clamp never binds; it lies in [0.54, 0.76], at most 0.66 against the bias and at least 0.64 with it; a WAIT confidence is `Strategy.WaitScore`, 0.58 with an idea or else 0.55, less 0.01 under a neutral bias, so one of 0.54, 0.55, 0.57, 0.58 |
| Strategy.TradeScoreRange | capintel/strategy/my_strategy.py:324-343 | every trade score lies in [0.54, 0.76], strictly inside the clamp [0.52, 0.90]; against the bias it is at most 0.66, with it at least 0.64 |
| Strategy.Decide | capintel/strategy/my_strategy.py:277-378 | the result meets `Strategy.Decided`: the levels of the branch table, the confidence of `Strategy.TradeScore`/`Strategy.WaitScore` over the streak, RSI, R3/S3 and `Strategy.BiasUp`/`Strategy.BiasDown` tests (lines 272-274), and an alternative that repeats the levels with SHORT / BUY / WAIT and a matching trigger for overheat / oversold / neutral; plus every fact of `Strategy.DecidedMeans` |
| Strategy.DecidedMeans | capintel/strategy/my_strategy.py:277-378 | a decision has entry = price, an alternative with the same levels, SHORT only under overheat and BUY only under oversold without overheat, the alternative action and trigger of the branch, the R3 row, a trade confidence in [0.52, 0.90] capped at 0.66 against the bias, and a neutral WAIT at 0.55 or 0.54 |
| Strategy.DecidedUnique | capintel/strategy/my_strategy.py:277-378 | the decision is a function of the pivots, price, ATR and evidence |
| Strategy.HaStreaks | capintel/strategy/my_strategy.py:227-231 | the green and red counts are the final positive and negative runs of close − open of the Heikin-Ashi columns of the bars (`Strategy.HaStreaksOf`); at most one is non-empty, and neither is longer than the series |
| Strategy.MacdEvidence | capintel/strategy/my_strategy.py:238-245 | the runs are the final positive and negative runs of `Indicators.MacdHist` of the closes, the flags are `Patterns.DecelerationAbs` of the histogram and of its negation, each clipped at zero; at most one run is non-empty, and a flag needs at least six bars |
| Strategy.RsiFlags | capintel/strategy/my_strategy.py:247-250 | RSI-high holds exactly when the last RSI is above 70 and, from 50 values on, above the 80th percentile; RSI-low holds exactly when it is below 30 and, from 50 values on, below the 20th percentile; under 50 values the percentiles play no part; the two never hold together |
| Strategy.LastAtr | capintel/strategy/my_strategy.py:252-253 | the last ATR is not negative when the first bar has low ≤ high |
| Strategy.GatherEvidence | capintel/strategy/my_strategy.py:227-253 | the evidence and ATR are those of `Strategy.EvidenceOf`: Heikin-Ashi and MACD runs, deceleration flags, `Strategy.RsiFlags` of the closes and `Strategy.LastAtr`; opposite streaks and both RSI flags never hold together |
| Strategy.HaStreaksUnique | capintel/strategy/my_strategy.py:227-231 | the bars fix their Heikin-Ashi runs |
| Strategy.EvidenceUnique | capintel/strategy/my_strategy.py:227-253 | the working bars fix the evidence and the ATR |
| Strategy.WorkingBars | capintel/strategy/my_strategy.py:216-218 | a given series of at least 50 bars is used, and otherwise the daily bars; non-empty when the daily bars are |
| Strategy.GenerateSignalCore | capintel/strategy/my_strategy.py:182-378 | empty daily data is a ValueError; otherwise the result meets `Strategy.SignalOf`: `Strategy.Decided` on the primary and higher pivots, the last price and the evidence and ATR of the working bars; and the facts of `Strategy.SignalOfMeans` |
| Strategy.SignalOfMeans | capintel/strategy/my_strategy.py:182-378 | the entry is the last price, the alternative repeats the primary levels, the action is never CLOSE, a SHORT is issued only within tolerance of R2 or R3 and a BUY only within tolerance of S2 or S3 of the previous completed period, a trade confidence lies in [0.52, 0.90] and a WAIT confidence in {0.54, 0.55, 0.57, 0.58} |
| Strategy.SignalOfUnique | capintel/strategy/my_strategy.py:182-378 | the signal and alternative are a function of the horizon, price, daily bars, buckets, given bars and RSI percentiles |
| Strategy.BothSidesCanHold | capintel/strategy/my_strategy.py:264-269 | overheat and oversold can hold together (H 100.1, L 99.9, C 100, price 100) |
| Strategy.ShortTargetCanExceedEntry | capintel/strategy/my_strategy.py:292-294 | on that period a price of 99.6 is within tolerance of R3 yet below R2, the SHORT's first target |

## Left out

- The daily-bar fetch (`_fetch_daily_bars`), the Polygon price calls and API keys: these are network I/O. The daily bars are an input.
- Calendar bucketing with `pd.Grouper` (W-MON, month and year ends) and the date-index handling of the working bars: the buckets are an input, `Strategy.Calendar`, one sequence of bars per week, month or year, oldest first. The model does not check that they partition the daily bars.
- An unknown period in `_last_complete_period_hlc` and an unknown horizon in `_horizon_params` (both raise in Python): `Period` and `Horizon` are closed enumerations, so neither case can be built.
- `np.nanpercentile` of the last 200 RSI values: q20 and q80 are inputs of `Strategy.GenerateSignalCore`.
- NaN handling beyond the first bar (`dropna` of the working bars, NaN inside a series): the model assumes every price is a number.
- Floating point: prices and confidences are exact reals; `round(x, 4)` and `round(x, 2)` in `gen_levels`, `alternative_scenario`, `gen_confidence` and `target_vol_position_size` are taken as the identity.
- The ATR fallback |H − L|/14 at `capintel/strategy/my_strategy.py:253`: the working series is never empty once the Heikin-Ashi step has succeeded, so the ATR always has a last value.
- `ha_flip_down` and `ha_flip_up`: computed at `capintel/strategy/my_strategy.py:235-236` but never used.
- The Russian narrative text, condition strings and horizon labels: text formatting.
- `choose_action`, `_daily_seed`, the `random` seeding in `gen_confidence`, and the id and timestamps of `build_signal`: randomness, hashing and clocks. `gen_confidence` takes the random draw as a parameter.
- `PolygonClient.Upper`: upper-cases ASCII letters only; Python's `str.upper` also maps other alphabets.
- SignalEngine.GenLevels: the BUY ordering is stated for buffers of at most 10000 bp, because beyond that the BUY entry price·(1 − 0.3·bp) can turn negative; the horizons use 25 to 200 bp.
- SignalEngine.AlternativeScenario: the SHORT ordering and trigger are stated for buffers of at most 10000 bp, because beyond that the SHORT alternative's entry entry·(1 − 0.6·bp) can turn negative; the BUY and breakout alternatives need no bound.
