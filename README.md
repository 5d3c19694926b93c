# BTCTradingBot signal and decision logic in Dafny

This project models the decision core of `BTCTradingBot` (autotrade.py). The bot is an
Upbit KRW-BTC trading bot: it computes technical indicators, runs a KNN predictor over
recent bars, watches for a significant market change since its last language-model
consultation, and turns the advice it gets back into a market order. The Dafny model
covers the parts of that pipeline made of thresholds, integer levels, guarded state
updates and plain real arithmetic. Prices, balances and scores are exact `real`s.
Python's `int()` is modelled as truncation toward zero and `round()` as round-half-to-even.

The modules follow the bot's structure:

- `Common`: shared helpers. These are `Option` (a Python value that may be `None`, or a dictionary key that may be absent, read with `.get`), `Clip` (numpy `clip`), `Sign` (numpy `sign`), `Trunc` (`int()` on a float), and sums and means.
- `Indicators`:
  - `calculate_rsi` and `calculate_stoch_rsi`. Each is a method that fills its columns index by index in an array, proved equal to a recursive specification.
  - the EMA-ribbon level of `analyze_ema_ribbon`, the six-level Bollinger position, and the two momentum formulas.
- `Knn`:
  - `calculate_adaptive_k`, and the `argsort(distances)[:k]` neighbour selection of `find_k_nearest`.
  - the quantisation and confidence tail of `predict_next_move`.
  - the `KnnPredictor` class, which holds `last_prediction`.
- `Gate`:
  - the minimum-order gating of `generate_trading_signal`.
  - the branch logic of `execute_trade`, which returns the order as a value: `Buy(krw) | Sell(qty) | Hold`.
  - the volatility-tiered forced-check interval of `run_trading_strategy`, and its consult decision.
- `Monitor`: the market-change monitor.
  - It has a pure step for each state change:
    - `KnnStep` for `monitor_knn_changes`;
    - `StochCross` for the cross detection;
    - `MonitorMarket` for `monitor_market_conditions`.
  - The `MarketMonitor` class holds the bot's fields `last_gpt_market_state`, `last_knn_direction`, `last_knn_change_time`, `last_stoch_cross_time` and `last_stoch_cross_type`. Its methods are proved to perform exactly those steps.
  - The module also holds the baseline capture of `consult_gpt_for_trading`, and the two helpers the bot defines but never calls.
- `News`: `get_next_news_update_time` on integer seconds, and the de-duplicate / sort / format pipeline of `_process_news`.
- `AdviceLog`: the round-and-clamp of the confidence score and the investment percentage in `log_gpt_advice`.

Calls to the exchange, to the language model and to the news search become parameters:

- the current price: `Option<real>`, `None` when the lookup failed;
- balances;
- the parsed advice: `Option<Advice>`, `None` when the answer did not parse;
- the clock: `now`.

Values the source computes with `exp`, `sqrt`, `std`, `ewm` or `percentile` are also parameters:

- the EMAs and the Bollinger bands;
- the KNN distances and normalised weights;
- the sigmoid, as a function parameter;
- the sum of the four confidence sub-scores;
- the volatility ratio.

## Model

| member | source | states |
|---|---|---|
| Common.Clip | autotrade.py:1736-1739 | numpy clip: result in [lo, hi], equal to x inside, pinned to the bound it crosses outside |
| Common.ClipInt | autotrade.py:1745 | the integer clip: result in [lo, hi], x when inside, the crossed bound otherwise |
| Common.Trunc | autotrade.py:1742 | int() on a float: truncation toward zero, the floor for non-negative values, magnitude within one of the input |
| Common.Sign | autotrade.py:1799 | np.sign: -1, 0 or 1, zero exactly at 0, 1 exactly for positive input |
| Common.SumBounds | autotrade.py:1049-1050 | a sum of values in [lo, hi] lies between n*lo and n*hi (by induction) |
| Common.MeanBounds | autotrade.py:1201-1204 | the mean of values in [lo, hi] lies in [lo, hi] |
| Common.SeqMax | autotrade.py:1190 | Series.max(): an upper bound of every element that is itself an element |
| Common.SeqMin | autotrade.py:1191 | Series.min(): a lower bound of every element that is itself an element |
| Indicators.Move | autotrade.py:1030-1041 | the Pine-style gain or loss of a bar is never negative |
| Indicators.RmaStep | autotrade.py:1054-1055 | one Wilder step keeps averages non-negative, positive after a positive move, zero after zero moves |
| Indicators.RsiSeries | autotrade.py:1012-1067 | one RSI value per input bar |
| Indicators.MoveSumNonNegative | autotrade.py:1049-1050 | the sum of gains (or losses) over the first window is non-negative |
| Indicators.Rma | autotrade.py:1049-1055 | every running average of gains and of losses is non-negative |
| Indicators.RsiRawInRange | autotrade.py:1058-1061 | 100 - 100/(1+rs) with a positive average loss lies in [0, 100) |
| Indicators.RsiFromAverages | autotrade.py:1057-1067 | the RSI of two averages lies in [0, 100]; with a positive loss it is the formula unclipped; a zero loss gives 100 with a positive gain and 50 (NaN filled) with none |
| Indicators.RsiAt | autotrade.py:1025-1067 | every RSI value lies in [0, 100]; too short a series and the bars before `periods` give 50 |
| Indicators.MoveSumOnRise | autotrade.py:1030-1041 | over strictly rising bars the losses sum to 0 and the gains to a positive value |
| Indicators.MoveSumOnFall | autotrade.py:1030-1041 | over strictly falling bars the gains sum to 0 and the losses to a positive value |
| Indicators.RmaOnRise | autotrade.py:1049-1055 | on a strictly rising series the loss average is 0 and the gain average positive |
| Indicators.RmaOnFall | autotrade.py:1049-1055 | on a strictly falling series the gain average is 0 and the loss average positive |
| Indicators.RsiOfRisingSeries | autotrade.py:1049-1067 | on a strictly rising series every RSI value from index periods on is exactly 100 |
| Indicators.RsiOfFallingSeries | autotrade.py:1049-1067 | on a strictly falling series every RSI value from index periods on is exactly 0 |
| Indicators.CalculateRsi | autotrade.py:1012-1071 | same length as the input; each entry is the RSI of that bar; all in [0, 100]; all 50 for fewer than periods+1 prices; 50 before index periods |
| Indicators.FillRma | autotrade.py:1045-1055 | the in-place pass leaves the Wilder average of every bar from index periods on |
| Indicators.KRaw | autotrade.py:1188-1198 | the raw stochastic value lies in [0, 100]; it is 50 when the window is flat, 100 at the window's maximum and 0 at its minimum |
| Indicators.FractionInUnit | autotrade.py:1198 | (current - low)/(high - low) lies in [0, 1] |
| Indicators.KRawSeries | autotrade.py:1185-1198 | one raw value per bar |
| Indicators.WindowStart | autotrade.py:1201 | the min_periods=1 window starts no earlier than the first defined bar and no later than the bar itself |
| Indicators.RollingColumn | autotrade.py:1201-1204 | one rolling mean per bar |
| Indicators.SmoothedK | autotrade.py:1201 | the smoothed K column has one value per bar |
| Indicators.SmoothedD | autotrade.py:1204 | the D column has one value per bar |
| Indicators.Finish | autotrade.py:1207-1210 | ffill, fillna(50) and clip keep the column length |
| Indicators.RollingMean | autotrade.py:1201-1204 | with min_periods=1, a window of width 1 and the first defined bar each give the value itself |
| Indicators.RollingMeanBounds | autotrade.py:1201-1204 | a rolling mean of values in [lo, hi] lies in [lo, hi] |
| Indicators.StochSmoothingInRange | autotrade.py:1201-1210 | smoothed K and D already lie in [0, 100], so the final clip never changes a value |
| Indicators.CalculateStochRsi | autotrade.py:1162-1241 | K and D have the input's length; all 50 when shorter than period+smoothK+smoothD; otherwise the finished smoothed columns of the 14-period RSI; all in [0, 100]; 50 before index period |
| Indicators.FillKRaw | autotrade.py:1188-1198 | the per-index pass writes exactly the raw stochastic column |
| Indicators.FillRolling | autotrade.py:1201-1204 | the per-index pass writes exactly the rolling-mean column |
| Indicators.TrendStrength | autotrade.py:1467 | 0..2 pairwise agreements; 2 exactly when both short EMAs exceed their long partners, 0 exactly when neither does |
| Indicators.SlopeStrength | autotrade.py:1468 | 0..4 positive one-bar slopes |
| Indicators.EmaRibbonLevel | autotrade.py:1467-1482 | level in [0, 4]; at least 3 exactly when both pairs agree and price > EMA200; 4 exactly when additionally 3 or more slopes are positive; the exact conditions for levels 2 and 1 |
| Indicators.EmaStatusLabel | autotrade.py:1484-1490 | every level has a label of its own, never the neutral fallback |
| Indicators.EmaStatusLabelsDistinct | autotrade.py:1484-1490 | two different EMA levels get different labels |
| Indicators.EmaAlignedBelowTrendFilter | autotrade.py:1470-1482 | both pairs agreeing with price at or below EMA200 gives level 0 |
| Indicators.EmaLevelMonotoneInPrice | autotrade.py:1470-1482 | raising the price never lowers the ribbon level |
| Indicators.BollingerLevel | autotrade.py:1326-1341 | level in [0, 5]; 5 exactly at or above the upper band; 0 exactly below every cut point |
| Indicators.BollingerThresholdsOrdered | autotrade.py:1326-1327 | with ordered bands, lower <= lower third <= middle <= upper third <= upper |
| Indicators.BollingerMonotone | autotrade.py:1326-1341 | with ordered bands a higher price never gets a lower level |
| Indicators.BollingerExtremeLower | autotrade.py:1338-1341 | with ordered bands, level 0 exactly when the price is below the lower band |
| Indicators.BollingerLabel | autotrade.py:1344-1351 | every level has a position name of its own, never 'undefined' |
| Indicators.BollingerLabelsDistinct | autotrade.py:1344-1351 | two different Bollinger levels get different position names |
| Indicators.BollingerBlock | autotrade.py:1315-1374 | the level is absent exactly when the middle band is 0 or the bands coincide (the except branch); otherwise it is the cascade level with its label, and the band position reaches 100 exactly at level 5 |
| Indicators.RatioAtLeastOne | autotrade.py:1355 | (price - lower)/(upper - lower)*100 >= 100 exactly when price >= upper |
| Indicators.Momentum | autotrade.py:1128-1160 | 0 for a series of at most period bars; otherwise, for a positive past price, positive exactly when the price rose |
| Indicators.OneBarMomentum | autotrade.py:1376-1384 | the momentum calculate_indicators stores is calculate_momentum with period 1 |
| Knn.SizeFactor | autotrade.py:1736 | the size factor lies in [0.5, 2] |
| Knn.VolatilityFactor | autotrade.py:1739 | the volatility factor lies in [0.5, 1.5] |
| Knn.RawK | autotrade.py:1733-1742 | the unclipped product lies in [4, 48] |
| Knn.AdaptiveK | autotrade.py:1729-1752 | k lies in [8, 32] and is the clipped floor of the product |
| Knn.FloorMonotone | autotrade.py:1742 | truncation of non-negative values is monotone |
| Knn.ProductMonotone | autotrade.py:1742 | a product of non-negative factors grows with each factor |
| Knn.RawKMonotone | autotrade.py:1733-1742 | more data or less volatility never lowers the product |
| Knn.AdaptiveKMonotone | autotrade.py:1729-1752 | more data never shrinks k and more volatility never widens it |
| Knn.AdaptiveKAtMedianSize | autotrade.py:1729-1752 | 100 bars at volatility 0 give 16; the two clip bounds are reached |
| Knn.Insert | autotrade.py:1716 | one insertion step of the sort adds exactly the new index |
| Knn.InsertSorted | autotrade.py:1716 | insertion keeps the indices ordered by distance |
| Knn.InsertDistinct | autotrade.py:1716 | insertion of a new index keeps the indices distinct |
| Knn.ArgSortFrom | autotrade.py:1716 | the partial argsort holds exactly the indices lo..n-1 |
| Knn.ArgSortFromSorted | autotrade.py:1716 | the partial argsort is ordered by distance and has no repeats |
| Knn.ArgSort | autotrade.py:1716 | argsort is a permutation of 0..n-1 ordered by non-decreasing distance |
| Knn.TopK | autotrade.py:1716 | argsort(distances)[:k]: k distinct valid indices in distance order |
| Knn.TopKAreNearest | autotrade.py:1716 | no index left out of the top k is strictly nearer than any chosen one |
| Knn.Gather | autotrade.py:1717-1719 | fancy indexing: element t is xs[ids[t]] |
| Knn.FindKNearest | autotrade.py:1678-1721 | three empty arrays with fewer than k points; otherwise k labels, distances and weights aligned to the same chosen indices |
| Knn.NeighboursAreNearest | autotrade.py:1716-1721 | the returned distances ascend and no training point left out is nearer |
| Knn.Quantize | autotrade.py:1796-1805 | the value is one of 0, ±0.25, ±0.5, ±0.75, ±0.8; 0 exactly when abs(signal) < 0.25; otherwise it has the signal's sign |
| Knn.QuantizeMonotone | autotrade.py:1796-1805 | a stronger signal never gives a lower bucket |
| Knn.QuantizeOdd | autotrade.py:1796-1805 | the ladder is symmetric around 0 |
| Knn.WeightedVote | autotrade.py:1790 | with labels in [-1, 1] and non-negative weights the vote lies between minus and plus the sum of the weights |
| Knn.RawConfidence | autotrade.py:1835-1846 | for a non-negative scaled score s = 25 + 1.1 * raw score, the confidence lies in [0.8 s, 1.1025 s], and in [0.8 s, 1.05 s] without the continuity boost |
| Knn.ContinuityBoost | autotrade.py:1843-1846 | a prediction with the sign of the previous one gets exactly 1.05 times the confidence it would get without one |
| Knn.AdjustConfidence | autotrade.py:1849-1857 | the final confidence lies in [19.5, 95]; at least 30 from signal 0.45 on; at most 61.75 below 0.3; in [24, 76] between 0.3 and 0.45 |
| Knn.ConfidenceBelowThirty | autotrade.py:1849-1853 | a weak signal with a low raw score ends at 19.5 |
| Knn.Predict | autotrade.py:1772-1857 | (0, 0) exactly when the training set is smaller than the adaptive k; otherwise a bucket value that follows the squashed vote and a confidence in [19.5, 95] |
| Knn.KnnPredictor.constructor | autotrade.py:1843 | a fresh predictor has no previous prediction |
| Knn.KnnPredictor.PredictNextMove | autotrade.py:1772-1857 | returns exactly the prediction and confidence computed with the stored previous prediction; it stores the new prediction unless the neighbour search came back empty |
| Gate.GenerateTradingSignal | autotrade.py:1883-1955 | a buy signal needs a buy recommendation and a fee-adjusted balance of at least 5000; a sell signal needs a sell recommendation and a fee-adjusted coin value of at least 5000; never both; the default response on missing data, price or analysis, and when both amounts are below the minimum |
| Gate.FailedConsultationNeverSignals | autotrade.py:1930-1941 | a consultation that failed never yields a buy or a sell signal |
| Gate.BuySignalExactly | autotrade.py:1940 | with data, price and analysis, a buy signal is raised exactly when the advice says buy and the net balance reaches the minimum |
| Gate.SellSignalExactly | autotrade.py:1941 | with data, price and analysis, a sell signal is raised exactly when the advice says sell and the fee-adjusted coin value reaches the minimum |
| Gate.CoinRatio | autotrade.py:2330-2333 | the coin share times the total assets is 100 times the coin value |
| Gate.BuyAmount | autotrade.py:2347-2349 | the amount spent is at most 0.9995 of the balance and at most 0.9995 of the value still missing to reach the target share (total * target / 100 - coin value), and equals one of the two |
| Gate.ExecuteTrade | autotrade.py:2305-2449 | a buy needs the signal, a buy recommendation and confidence >= 60, and spends between 5000 and 0.9995 of the balance; a sell needs the signal, a sell recommendation, confidence >= 60 and coins held, and sells coin*pct/100 worth at least 5000 after the fee; the amount a buy spends is the buy amount for the advised percentage (10 by default); no analysis, no price or confidence below 60 means hold |
| Gate.BuyExactly | autotrade.py:2328-2352 | a buy happens exactly when signal, recommendation, confidence, ratio gap > 1 and amount >= 5000 all hold |
| Gate.SellExactly | autotrade.py:2393-2406 | a sell happens exactly when signal, sell recommendation, confidence >= 60, coins held and a fee-adjusted value of at least 5000 all hold |
| Gate.BuyNeverOvershootsTarget | autotrade.py:2330-2350 | after a buy, the coin value plus the amount spent stays within the advised share of total assets |
| Gate.SellWithinHolding | autotrade.py:2394-2396 | an advised percentage in [0, 100] never sells more coin than is held |
| Gate.GatedBuyAffordable | autotrade.py:2328-2350 | a buy reached through generate_trading_signal spends no more than the fee-adjusted balance |
| Gate.ForceCheckInterval | autotrade.py:2872-2878 | 7200 s exactly below volatility 2.35, 1800 s exactly from 3 on, 3600 s otherwise |
| Gate.ForceCheckIntervalAntitone | autotrade.py:2872-2878 | higher volatility never lengthens the interval |
| Gate.ScheduleStep | autotrade.py:2884-2940 | forced exactly when the interval has elapsed; consult exactly when the market changed or forced; the timer resets to now exactly on a consultation |
| Gate.NoConsultWithinInterval | autotrade.py:2884-2889 | a pass that does not consult is within the interval and leaves the timer alone |
| Gate.TwoHoursAlwaysForce | autotrade.py:2872-2889 | two hours without a consultation always force one |
| Monitor.AbsInt | autotrade.py:2172 | the integer absolute value |
| Monitor.KnnDirection | autotrade.py:1986-1989 | neutral exactly inside the 0.25 band, up exactly from 0.25, down exactly from -0.25 |
| Monitor.KnnStep | autotrade.py:1980-2022 | the first call only records the direction and reports nothing; later a change is reported exactly when the new direction is non-neutral and new, the 600 s cooldown has passed and the prediction moved by 0.3; the memory changes only with a reported change |
| Monitor.KnnNeutralLeavesMemory | autotrade.py:1997 | entering the neutral band never alters the stored direction and time |
| Monitor.KnnChangesSpacedByCooldown | autotrade.py:1997-2006 | two consecutive reported changes are at least 600 s apart and point different ways |
| Monitor.KnnRepeatIsQuiet | autotrade.py:1992-2006 | after any call a direction is stored, and the same prediction again reports nothing |
| Monitor.StochCross | autotrade.py:2088-2121 | an up-cross exactly when the baseline K-D is negative, the current one at least 2 and the cooldown or an opposite last cross allows it; symmetric for down; the memory is kept on no cross and replaced on a cross |
| Monitor.SameCrossSuppressed | autotrade.py:2095-2116 | a same-direction cross within 600 s of the last is suppressed |
| Monitor.OppositeCrossImmediate | autotrade.py:2095-2102 | a cross opposite to the last one is accepted at once |
| Monitor.StochSignificant | autotrade.py:2124-2133 | the group fires exactly on a cross, on K entering oversold (at most 20) or overbought (at least 80), or on K moving by more than 15; silence means K stayed between 20 and 80 or stayed on the same side |
| Monitor.Capture | autotrade.py:2663-2677 | the stored baseline has no EMA level, no base levels and no directions; it keeps the close price and the analysis' RSI, volatility, momentum, K, D and KNN value; the Bollinger level defaults to 0 |
| Monitor.PriceMovedAntitone | autotrade.py:2146-2147 | a move over a larger threshold is a move over a smaller one |
| Monitor.LevelFlip | autotrade.py:2156-2190 | a flip fires exactly when the level rose against a stored direction other than up, or fell against one other than down, and is two steps from the stored base; so it needs a level different from the stored one |
| Monitor.LevelFlipNeedsBase | autotrade.py:2156-2177 | without a stored base level a flip never fires |
| Monitor.LevelFlipCanFire | autotrade.py:2156-2190 | with a stored base level the flip does fire |
| Monitor.MomentumFlipSymmetric | autotrade.py:2193-2199 | the momentum flip is symmetric and implies a difference above 0.02 |
| Monitor.Signals | autotrade.py:2146-2199 | each of the eight sub-signals holds exactly when its own test holds |
| Monitor.MonitorMarket | autotrade.py:2024-2257 | the baseline is never changed; missing inputs, a missing Bollinger level or a missing baseline report a change and leave the memories alone |
| Monitor.MonitorIsOrOfSignals | autotrade.py:2079-2211 | with every input present, the result is exactly the OR of the eight sub-signals and the memories advance by their steps |
| Monitor.CapturedBaselineSilencesLevels | autotrade.py:2156-2190 | against a captured baseline the EMA and Bollinger sub-signals never fire |
| Monitor.UnchangedMarketIsQuiet | autotrade.py:2024-2211 | right after a consultation an unchanged market reports no change |
| Monitor.UndefinedBollingerAlwaysChanged | autotrade.py:2037-2047 | with no Bollinger level (flat bands) every call reports a change |
| Monitor.MarketMonitor.constructor | autotrade.py:76-113 | a fresh monitor has no baseline and empty memories |
| Monitor.MarketMonitor.MonitorKnnChanges | autotrade.py:1980-2022 | performs exactly one KnnStep on the two KNN fields; nothing else changes |
| Monitor.MarketMonitor.DetectStochCross | autotrade.py:2081-2121 | performs exactly one StochCross on the two cross fields; nothing else changes |
| Monitor.MarketMonitor.MonitorMarketConditions | autotrade.py:2024-2257 | returns and leaves exactly what one MonitorMarket step gives |
| Monitor.MarketMonitor.ConsultGpt | autotrade.py:2490-2687 | without a change or a forced check, or with an answer that does not parse, the hold advice and no state change; otherwise the parsed answer and the captured baseline |
| Monitor.ConsultThenMonitor | autotrade.py:2660-2677 | a consultation followed by a pass over the same market reports no change |
| Monitor.IsSignificantLevelChange | autotrade.py:1957-1978 | two steps or more always count; an unchanged level never does; a one-step change counts only from base 2 or 3 |
| Monitor.LevelChangeReduced | autotrade.py:1957-1978 | the EMA table adds exactly the move 3 to 4 to the two-step rule; the Bollinger table adds nothing |
| Monitor.CheckSignificantMarketChange | autotrade.py:2457-2488 | a missing state or a missing current Bollinger level counts as a change; otherwise, with a non-zero last price, a change is exactly a price move over 2 %, an RSI move over 10, a volatility move over 0.1 or a Bollinger level two steps from the last one; a state compared with itself is no change |
| Monitor.CheckCoarserThanMonitor | autotrade.py:2457-2488 | each price, RSI or volatility change the unused check reports is also reported by the monitor |
| News.FirstAbove | autotrade.py:351 | next(...): the default or a listed hour above x |
| News.NextSlotHour | autotrade.py:347-351 | before 20:00 the next slot hour is a multiple of 4 within four hours; from 20:00 it is 0 |
| News.NextNewsUpdateTime | autotrade.py:338-364 | the result is after t, at most four hours later, and on a slot boundary |
| News.SlotArithmetic | autotrade.py:348 | the clock hour of t and its midnight bracket t |
| News.SlotBounds | autotrade.py:353-362 | the replaced time, pushed one day when not after t, is within the next four hours on a slot boundary |
| News.NextNewsUpdateTimeIsNext | autotrade.py:338-364 | no slot boundary lies strictly between t and the result |
| News.TitleIndex | autotrade.py:583 | the first article with the title, or none has it |
| News.Dedup | autotrade.py:583 | de-duplication never lengthens the list and empties it only when it was empty |
| News.Upsert | autotrade.py:583 | a dictionary assignment: a known title keeps its place and takes the new article, a new title goes last |
| News.UpsertDistinct | autotrade.py:583 | assignment keeps titles distinct and adds exactly the new title |
| News.DedupTitles | autotrade.py:583 | de-duplication leaves one article per title and loses no title |
| News.TitleIndexAppend | autotrade.py:583 | appending an article moves no title's first position, and gives a new title the last one |
| News.DedupFirstOccurrenceOrder | autotrade.py:583 | the de-duplicated articles stand in the order of their titles' first occurrence in the input |
| News.DedupKeepsLast | autotrade.py:583 | the article kept for a title is the last one with that title |
| News.LexLessTransitive | autotrade.py:584 | string order is transitive |
| News.LexLessTotal | autotrade.py:584 | string order is total |
| News.LexLessIrreflexive | autotrade.py:584 | string order is strict |
| News.InsertNewestFirst | autotrade.py:584 | insertion adds exactly the one article |
| News.SortNewestFirst | autotrade.py:584 | sorting is a permutation |
| News.InsertKeepsSorted | autotrade.py:584 | insertion keeps the list newest first |
| News.LexNotLessAfter | autotrade.py:584 | y <= x < z gives y <= z |
| News.SortSorted | autotrade.py:584 | the sorted list is newest first |
| News.WithDate | autotrade.py:584 | the articles with one date form a sub-list |
| News.WithDateKeepsOrder | autotrade.py:584 | picking the articles of one date keeps the first-occurrence order |
| News.WithDateAppend | autotrade.py:584 | filtering by date distributes over appending one article |
| News.WithDateCons | autotrade.py:584 | filtering by date distributes over prepending one article |
| News.InsertStable | autotrade.py:584 | an inserted article goes after every article with its date |
| News.NoneDated | autotrade.py:584 | a sorted list whose newest date is below d has no article dated d |
| News.SortStable | autotrade.py:584 | articles sharing a date keep the order they had before sorting (Python's sort is stable) |
| News.NatToString | autotrade.py:592 | the number is written as a non-empty string of decimal digits |
| News.NatToStringRoundTrip | autotrade.py:592 | the written number reads back as the number |
| News.Lower | autotrade.py:589 | lower() maps each character |
| News.ContainsSpec | autotrade.py:589 | the substring test holds exactly when the keyword occurs at some position |
| News.LowerConcat | autotrade.py:589 | lower() distributes over concatenation |
| News.BitcoinInTitleIsImportant | autotrade.py:589-591 | a title containing "Bitcoin" is flagged |
| News.Entry | autotrade.py:588-593 | every entry ends with a blank line |
| News.EntryMarksImportant | autotrade.py:589-591 | an entry starts with the fire mark exactly when its title contains sec, regulation or bitcoin, in any case |
| News.Summary | autotrade.py:587-593 | the summary is empty exactly when there are no articles, and otherwise ends with a blank line |
| News.SummaryExtends | autotrade.py:587-593 | the summary of a list starts with the summary of each prefix |
| News.ProcessNews | autotrade.py:580-595 | the loop's summary is the summary of the de-duplicated articles sorted newest first |
| News.ProcessedNewsOrder | autotrade.py:583-584 | the summarised articles are newest first, a permutation of the de-duplicated ones, with the articles of one date in the order of their titles' first occurrence |
| AdviceLog.RoundHalfEven | autotrade.py:2734-2741 | round(): within one half of x, and even on a tie |
| AdviceLog.RoundIsNearest | autotrade.py:2734-2741 | an integer closer than one half is the rounded value |
| AdviceLog.RoundMonotone | autotrade.py:2734-2741 | rounding is monotone |
| AdviceLog.Clamp | autotrade.py:2747-2748 | max(0, min(100, n)) lies in [0, 100], keeps in-range values and pins the rest to the crossed bound |
| AdviceLog.RoundField | autotrade.py:2732-2744 | a number is rounded; NaN or infinity, and nothing else, makes round raise |
| AdviceLog.NormalizeScores | autotrade.py:2731-2753 | both stored scores lie in [0, 100]; if either value is NaN or infinite, both are 0 |
| AdviceLog.InRangeScoresKept | autotrade.py:2731-2748 | in-range scores are stored within one half, integers unchanged |
| AdviceLog.NormalizeIdempotent | autotrade.py:2731-2748 | normalising a stored pair again changes nothing |
| AdviceLog.OutOfRangeClamped | autotrade.py:2747-2748 | scores from 100.5 up store 100, below -0.5 store 0 |

## Left out

- streamlit_app.py: the dashboard is user interface and database reads only.
- SQLite persistence (`create_database`, `log_trade`, the news cache, the API key rotation, the insert in `log_gpt_advice`): storage, not decision logic.
- Network calls (pyupbit prices, OHLCV, balances and orders; the OpenAI request and its prompt; the news search): they become parameters. Whether an order call succeeds, and the `True`/`False` return value of `execute_trade` that depends on it, are not modelled. The decision is the returned value.
- `run_trading_strategy`'s endless loop, `time.sleep`, the thread lock and `gc`: plumbing and concurrency. Only the interval tier, the consult decision and the timer reset are modelled.
- The numerics that use `exp`, `sqrt`, `std`, `ewm` or `percentile` become inputs: the EMAs, the Bollinger bands themselves, the KNN distances and weights, the sigmoid, the four confidence sub-scores, and both volatility measures. `prepare_knn_features` and `prepare_current_features`, which produce the neighbours' features, are not part of this model. So the early `(0, 0)` returns of `predict_next_move` when feature preparation fails are not modelled either.
- `detect_divergence`, `calculate_cci`, `calculate_roc` and `normalize_volume`: they depend on pandas NaN semantics, or are never called.
- Console output, `_print_market_changes` and `get_gpt_advice_history`: formatting only.
- Times are real seconds (monitor and scheduler) or integer seconds on the local clock (news slots). Sub-second times, time zones and daylight-saving shifts of `datetime` are not modelled.
- `News.Lower`: lower-cases ASCII letters only, not the whole of Unicode.
- NaN or infinite prices, volatilities and scores in the monitor and the gate are not modelled. NaN is modelled only where the source produces and replaces it (RSI, Stochastic RSI) and where `round` rejects it (`log_gpt_advice`).
- `Knn.ArgSort`: breaks ties between equal distances by index. numpy's default argsort does not promise a tie order, so the model fixes one.
- `Monitor.MarketState`: holds only the entries the monitor reads. `ema_status`, `bollinger_position` and `knn_signal_strength` are stored by the source but never compared.
- Exceptions from `get_balance` (for example a `None` balance) are not modelled. Balances are numbers.
- The `except` branch of `calculate_indicators` for the EMA ribbon (status 2, "중립") is not modelled. The ribbon level enters the monitor as the given `emaNum`.

## Notes on the code versus its documented behaviour

Where the two disagree, the model follows the code:

- **KNN confidence.** The documented confidence range is [30, 95]. The code clips to [30, 95] before it applies the signal-strength factors (autotrade.py:1849-1857), so a weak signal can end at 19.5 (`Knn.ConfidenceBelowThirty`, `Knn.AdjustConfidence`).
- **EMA and Bollinger sub-signals.** The baseline stored after a consultation (autotrade.py:2663-2675) has no base levels and no directions. The `.get` defaults at autotrade.py:2157 and 2177 then make the EMA and Bollinger sub-signals of the monitor unable to fire (`Monitor.CapturedBaselineSilencesLevels`).
- **Flat Bollinger bands.** When the bands coincide, or the middle band is 0, the Bollinger block of `calculate_indicators` divides by zero. Its `except` branch stores no `bollinger_position_num`, so every monitor call then reports a change (`Indicators.BollingerBlock`, `Monitor.UndefinedBollingerAlwaysChanged`).
- **Unused helpers.** `is_significant_level_change` and `check_significant_market_change` are defined but never called. They are modelled as the pure functions they are.
- **Which bars are searched.** The "fewer than k points" rule applies to the training rows after the last one is dropped (autotrade.py:1773-1784). The adaptive k is computed from one more row than the neighbour search receives.
- **Booleans in `log_gpt_advice`.** A JSON boolean passes the `isinstance(..., (int, float))` test and is stored as 0 or 1 (`AdviceLog.RoundField`). NaN and infinity make `round` raise, so both scores are stored as 0 (`AdviceLog.NormalizeScores`).
