/**
 * The market-change monitor of the trading bot (autotrade.py): the KNN
 * direction memory of monitor_knn_changes, the Stochastic RSI cross
 * memory and the eight sub-signals of monitor_market_conditions, the
 * baseline captured by a successful consultation, and the two level/market
 * change helpers the bot defines but never calls.
 *
 * Each state change is first written as a pure step on a value (the
 * memory before, the outcome and the memory after); the MarketMonitor
 * class holds the same fields the bot keeps on self, and its methods are
 * proved to perform exactly those steps.
 */
module Monitor {
  import opened Common
  import Gate

  const KNN_SIGNAL_MIN_STRENGTH: real := 0.25
  const KNN_CHANGE_COOLDOWN: real := 600.0
  const KNN_DIRECTION_CHANGE_THRESHOLD: real := 0.3
  const STOCH_CROSS_COOLDOWN: real := 600.0
  const STOCH_CROSS_THRESHOLD: real := 2.0
  const MOMENTUM_THRESHOLD: real := 0.01

  /** The 'up' / 'down' / 'neutral' strings of the source. */
  datatype Direction = Up | Down | Neutral

  /** last_stoch_cross_type: 'up' or 'down'. */
  datatype CrossType = CrossUp | CrossDown

  function AbsInt(x: int): (r: nat)
    ensures r == x || r == -x
  {
    if x < 0 then -x else x
  }

  // ---------------------------------------------------------------------
  // monitor_knn_changes
  // ---------------------------------------------------------------------

  /** Neutral inside the KNN dead band, otherwise the sign of the prediction. */
  function KnnDirection(prediction: real): (d: Direction)
    ensures d == Neutral <==> Abs(prediction) < KNN_SIGNAL_MIN_STRENGTH
    ensures d == Up <==> prediction >= KNN_SIGNAL_MIN_STRENGTH
    ensures d == Down <==> prediction <= -KNN_SIGNAL_MIN_STRENGTH
  {
    if Abs(prediction) < KNN_SIGNAL_MIN_STRENGTH then Neutral
    else if prediction > 0.0 then Up
    else Down
  }

  /** last_knn_direction and last_knn_change_time. */
  datatype KnnMemory = KnnMemory(direction: Option<Direction>, changeTime: Option<real>)

  datatype KnnOutcome = KnnOutcome(changed: bool, memory: KnnMemory)

  /** No change was recorded yet, or the last one is at least the cooldown old. */
  predicate CooledDown(last: Option<real>, now: real, cooldown: real)
  {
    last.None? || now - last.value >= cooldown
  }

  /**
   * One call of monitor_knn_changes.  The first call only records the
   * direction.  Later calls report a change when the direction is new and
   * not neutral, the cooldown has passed and the prediction moved by at
   * least 0.3 from the baseline's.
   */
  function KnnStep(m: KnnMemory, current: real, last: real, now: real): (r: KnnOutcome)
    ensures m.direction.None? ==> r == KnnOutcome(false, KnnMemory(Some(KnnDirection(current)), m.changeTime))
    ensures m.direction.Some? ==>
      (r.changed <==> KnnDirection(current) != m.direction.value && KnnDirection(current) != Neutral &&
                      CooledDown(m.changeTime, now, KNN_CHANGE_COOLDOWN) &&
                      Abs(current - last) >= KNN_DIRECTION_CHANGE_THRESHOLD)
    ensures m.direction.Some? && !r.changed ==> r.memory == m
    ensures r.changed ==> r.memory == KnnMemory(Some(KnnDirection(current)), Some(now))
  {
    var direction := KnnDirection(current);
    if m.direction.None? then
      KnnOutcome(false, KnnMemory(Some(direction), m.changeTime))
    else if direction != m.direction.value && direction != Neutral
            && CooledDown(m.changeTime, now, KNN_CHANGE_COOLDOWN)
            && Abs(current - last) >= KNN_DIRECTION_CHANGE_THRESHOLD then
      KnnOutcome(true, KnnMemory(Some(direction), Some(now)))
    else
      KnnOutcome(false, m)
  }

  /** Entering the neutral band never reports a change and never alters the memory once a direction is stored. */
  lemma KnnNeutralLeavesMemory(m: KnnMemory, current: real, last: real, now: real)
    requires m.direction.Some? && Abs(current) < KNN_SIGNAL_MIN_STRENGTH
    ensures KnnStep(m, current, last, now) == KnnOutcome(false, m)
  {
  }

  /** Two reported KNN changes are always at least the cooldown apart. */
  lemma KnnChangesSpacedByCooldown(m: KnnMemory, c1: real, l1: real, t1: real, c2: real, l2: real, t2: real)
    requires KnnStep(m, c1, l1, t1).changed
    requires KnnStep(KnnStep(m, c1, l1, t1).memory, c2, l2, t2).changed
    ensures t2 - t1 >= KNN_CHANGE_COOLDOWN
    ensures KnnDirection(c2) != KnnDirection(c1)
  {
  }

  /** After the first call the memory always holds a direction, and the same prediction again reports nothing. */
  lemma KnnRepeatIsQuiet(m: KnnMemory, current: real, last: real, t1: real, t2: real)
    ensures var r1 := KnnStep(m, current, last, t1);
      r1.memory.direction == Some(KnnDirection(current)) || (r1.memory == m && m.direction.Some?)
    ensures var r1 := KnnStep(m, current, last, t1);
      r1.memory.direction == Some(KnnDirection(current)) ==> !KnnStep(r1.memory, current, last, t2).changed
  {
  }

  // ---------------------------------------------------------------------
  // Stochastic RSI cross detection
  // ---------------------------------------------------------------------

  /** last_stoch_cross_time and last_stoch_cross_type. */
  datatype StochMemory = StochMemory(crossTime: Option<real>, crossType: Option<CrossType>)

  datatype StochOutcome = StochOutcome(cross: Option<CrossType>, memory: StochMemory)

  /** A cross in this direction is allowed now: none recorded, the cooldown passed, or the last one went the other way. */
  predicate CrossAllowed(m: StochMemory, now: real, opposite: CrossType)
  {
    CooledDown(m.crossTime, now, STOCH_CROSS_COOLDOWN) || m.crossType == Some(opposite)
  }

  /**
   * The golden/dead cross test: the sign of K - D flips from the
   * baseline's, the new gap is at least 2 points, and the cooldown allows
   * it.  A flagged cross replaces the memory; otherwise it is kept.
   */
  function StochCross(m: StochMemory, lastK: real, lastD: real, currentK: real, currentD: real, now: real): (r: StochOutcome)
    ensures r.cross == Some(CrossUp) <==>
      lastK - lastD < 0.0 && currentK - currentD >= STOCH_CROSS_THRESHOLD && CrossAllowed(m, now, CrossDown)
    ensures r.cross == Some(CrossDown) <==>
      lastK - lastD > 0.0 && currentK - currentD <= -STOCH_CROSS_THRESHOLD && CrossAllowed(m, now, CrossUp)
    ensures r.cross.None? ==> r.memory == m
    ensures r.cross.Some? ==> r.memory == StochMemory(Some(now), r.cross)
  {
    var currentDiff := currentK - currentD;
    var lastDiff := lastK - lastD;
    if lastDiff < 0.0 && currentDiff > 0.0 then
      if Abs(currentDiff) >= STOCH_CROSS_THRESHOLD && CrossAllowed(m, now, CrossDown) then
        StochOutcome(Some(CrossUp), StochMemory(Some(now), Some(CrossUp)))
      else
        StochOutcome(None, m)
    else if lastDiff > 0.0 && currentDiff < 0.0 then
      if Abs(currentDiff) >= STOCH_CROSS_THRESHOLD && CrossAllowed(m, now, CrossUp) then
        StochOutcome(Some(CrossDown), StochMemory(Some(now), Some(CrossDown)))
      else
        StochOutcome(None, m)
    else
      StochOutcome(None, m)
  }

  /** A second cross in the same direction within the cooldown is suppressed. */
  lemma SameCrossSuppressed(m: StochMemory, lastK: real, lastD: real, currentK: real, currentD: real, now: real, c: CrossType)
    requires m.crossTime.Some? && now - m.crossTime.value < STOCH_CROSS_COOLDOWN && m.crossType == Some(c)
    ensures StochCross(m, lastK, lastD, currentK, currentD, now).cross != Some(c)
  {
  }

  /** A cross opposite to the last recorded one is accepted at once, whatever the time. */
  lemma OppositeCrossImmediate(m: StochMemory, lastK: real, lastD: real, currentK: real, currentD: real, now: real)
    requires m.crossType == Some(CrossDown)
    requires lastK - lastD < 0.0 && currentK - currentD >= STOCH_CROSS_THRESHOLD
    ensures StochCross(m, lastK, lastD, currentK, currentD, now) ==
            StochOutcome(Some(CrossUp), StochMemory(Some(now), Some(CrossUp)))
  {
  }

  /** The Stochastic group: a cross, entering oversold or overbought, or K moving by more than 15. */
  function StochSignificant(cross: Option<CrossType>, lastK: real, currentK: real): (r: bool)
    ensures cross.Some? ==> r
    ensures !r ==> 20.0 < currentK < 80.0 || (currentK <= 20.0 && lastK <= 20.0) || (currentK >= 80.0 && lastK >= 80.0)
    ensures r <==> cross.Some? || (currentK <= 20.0 && lastK > 20.0) || (currentK >= 80.0 && lastK < 80.0)
                   || Abs(currentK - lastK) > 15.0
  {
    var oversold := currentK <= 20.0 && lastK > 20.0;
    var overbought := currentK >= 80.0 && lastK < 80.0;
    cross.Some? || oversold || overbought || Abs(currentK - lastK) > 15.0
  }

  // ---------------------------------------------------------------------
  // Current state, baseline and the eight sub-signals
  // ---------------------------------------------------------------------

  /**
   * The entries of analysis_results the monitor and the consultation read.
   * bollingerNum is absent when the Bollinger block fell back after a
   * division by zero.
   */
  datatype Analysis = Analysis(rsi: real, volatility: real, emaNum: int, momentum: real,
                               bollingerNum: Option<int>, stochK: real, stochD: real,
                               knn: real, knnStrength: real)

  /**
   * last_gpt_market_state.  The entries the monitor reads with a default
   * are optional; price, rsi, volatility and momentum are read without one.
   */
  datatype MarketState = MarketState(price: real, rsi: real, volatility: real, momentum: real,
                                     stochK: Option<real>, stochD: Option<real>, knn: Option<real>,
                                     emaNum: Option<int>, emaBase: Option<int>, emaDirection: Option<Direction>,
                                     bollingerNum: Option<int>, bollingerBase: Option<int>,
                                     bbDirection: Option<Direction>)

  /**
   * The record a successful consultation stores as the new baseline (the
   * dictionary built before log_gpt_advice).  It has no EMA level entries,
   * no base levels and no directions; the Bollinger level defaults to 0.
   */
  function Capture(closePrice: real, a: Analysis): (b: MarketState)
    ensures b.emaBase.None? && b.bollingerBase.None? && b.emaDirection.None? && b.bbDirection.None?
    ensures b.price == closePrice && b.stochK == Some(a.stochK) && b.stochD == Some(a.stochD) && b.knn == Some(a.knn)
    ensures b.bollingerNum == Some(a.bollingerNum.GetOr(0))
    ensures b.emaNum.None? && b.rsi == a.rsi && b.volatility == a.volatility && b.momentum == a.momentum
  {
    MarketState(closePrice, a.rsi, a.volatility, a.momentum, Some(a.stochK), Some(a.stochD), Some(a.knn),
                None, None, None, Some(a.bollingerNum.GetOr(0)), None, None)
  }

  /** |current - base| / base > threshold, for a non-zero base. */
  predicate PriceMoved(current: real, base: real, threshold: real)
    requires base != 0.0
  {
    Abs(current - base) / base > threshold
  }

  /** A larger threshold is harder to cross. */
  lemma PriceMovedAntitone(current: real, base: real, t1: real, t2: real)
    requires base != 0.0 && t1 <= t2 && PriceMoved(current, base, t2)
    ensures PriceMoved(current, base, t1)
  {
  }

  /**
   * The EMA or Bollinger flip: the level's direction against the stored one
   * (up or down against the stored level, or the stored direction when the
   * level is unchanged) differs from the stored direction, and the level is
   * at least two steps from the stored base.  Every stored entry defaults
   * to the current level or to neutral.
   */
  function LevelFlip(current: int, base: Option<int>, last: Option<int>, stored: Option<Direction>): (r: bool)
    ensures r ==> AbsInt(current - base.GetOr(current)) >= 2
    ensures r ==> current != last.GetOr(current)
    ensures r <==> ((current > last.GetOr(current) && stored.GetOr(Neutral) != Up) ||
                    (current < last.GetOr(current) && stored.GetOr(Neutral) != Down)) &&
                   AbsInt(current - base.GetOr(current)) >= 2
  {
    var b := base.GetOr(current);
    var l := last.GetOr(current);
    var previous := stored.GetOr(Neutral);
    var direction := if current > l then Up else if current < l then Down else previous;
    direction != previous && AbsInt(current - b) >= 2
  }

  /** Without a stored base a flip can never fire. */
  lemma LevelFlipNeedsBase(current: int, last: Option<int>, stored: Option<Direction>)
    ensures !LevelFlip(current, None, last, stored)
  {
  }

  /** With a stored base the flip does fire: the sub-signal is not dead by construction. */
  lemma LevelFlipCanFire()
    ensures LevelFlip(4, Some(1), Some(1), None)
    ensures LevelFlip(0, Some(3), Some(2), Some(Up))
  {
  }

  /** The momentum sign flip beyond +/-0.01. */
  predicate MomentumFlip(current: real, base: real)
  {
    (current > MOMENTUM_THRESHOLD && base < -MOMENTUM_THRESHOLD) ||
    (current < -MOMENTUM_THRESHOLD && base > MOMENTUM_THRESHOLD)
  }

  lemma MomentumFlipSymmetric(current: real, base: real)
    ensures MomentumFlip(current, base) <==> MomentumFlip(base, current)
    ensures MomentumFlip(current, base) ==> Abs(current - base) > 2.0 * MOMENTUM_THRESHOLD
  {
  }

  /** The eight sub-signals of monitor_market_conditions. */
  datatype ChangeSignals = ChangeSignals(price: bool, rsi: bool, volatility: bool, ema: bool,
                                         momentum: bool, bollinger: bool, stoch: bool, knn: bool)

  function AnySignal(s: ChangeSignals): bool
  {
    s.price || s.rsi || s.volatility || s.ema || s.momentum || s.bollinger || s.stoch || s.knn
  }

  /** The sub-signals for a current state against a baseline with a non-zero price. */
  function Signals(b: MarketState, closePrice: real, a: Analysis, bollingerNum: int,
                   cross: Option<CrossType>, knnChanged: bool): (s: ChangeSignals)
    requires b.price != 0.0
    ensures s.price <==> PriceMoved(closePrice, b.price, 0.005)
    ensures s.rsi <==> Abs(a.rsi - b.rsi) > 5.0
    ensures s.volatility <==> Abs(a.volatility - b.volatility) > 0.1
    ensures s.ema <==> LevelFlip(a.emaNum, b.emaBase, b.emaNum, b.emaDirection)
    ensures s.bollinger <==> LevelFlip(bollingerNum, b.bollingerBase, b.bollingerNum, b.bbDirection)
    ensures s.stoch <==> StochSignificant(cross, b.stochK.GetOr(50.0), a.stochK)
    ensures s.knn == knnChanged && (s.momentum <==> MomentumFlip(a.momentum, b.momentum))
  {
    ChangeSignals(PriceMoved(closePrice, b.price, 0.005),
                  Abs(a.rsi - b.rsi) > 5.0,
                  Abs(a.volatility - b.volatility) > 0.1,
                  LevelFlip(a.emaNum, b.emaBase, b.emaNum, b.emaDirection),
                  MomentumFlip(a.momentum, b.momentum),
                  LevelFlip(bollingerNum, b.bollingerBase, b.bollingerNum, b.bbDirection),
                  StochSignificant(cross, b.stochK.GetOr(50.0), a.stochK),
                  knnChanged)
  }

  // ---------------------------------------------------------------------
  // monitor_market_conditions as a step on the whole monitor state
  // ---------------------------------------------------------------------

  /** Everything the monitor keeps between calls. */
  datatype MonitorState = MonitorState(baseline: Option<MarketState>, knn: KnnMemory, stoch: StochMemory)

  datatype MonitorOutcome = MonitorOutcome(changed: bool, state: MonitorState)

  /** The state of a freshly constructed bot. */
  const INITIAL_STATE: MonitorState := MonitorState(None, KnnMemory(None, None), StochMemory(None, None))

  /**
   * One call of monitor_market_conditions.  closePrice is None when the
   * data is missing or empty, analysis None when there is no analysis.
   * Missing inputs, a missing Bollinger level and a missing baseline all
   * report a change without touching the memory.  Otherwise the cross and
   * the KNN memories advance; a zero baseline price then raises in the
   * price ratio, which the handler turns into a change; else the result is
   * whether any sub-signal fired.
   */
  function MonitorMarket(s: MonitorState, closePrice: Option<real>, analysis: Option<Analysis>, now: real): (r: MonitorOutcome)
    ensures r.state.baseline == s.baseline
    ensures closePrice.None? || analysis.None? || analysis.value.bollingerNum.None? || s.baseline.None?
            ==> r == MonitorOutcome(true, s)
  {
    if closePrice.None? || analysis.None? then MonitorOutcome(true, s)
    else if analysis.value.bollingerNum.None? then MonitorOutcome(true, s)
    else if s.baseline.None? then MonitorOutcome(true, s)
    else
      var a := analysis.value;
      var b := s.baseline.value;
      var st := StochCross(s.stoch, b.stochK.GetOr(50.0), b.stochD.GetOr(50.0), a.stochK, a.stochD, now);
      var kn := KnnStep(s.knn, a.knn, b.knn.GetOr(0.0), now);
      var next := MonitorState(s.baseline, kn.memory, st.memory);
      if b.price == 0.0 then MonitorOutcome(true, next)
      else MonitorOutcome(AnySignal(Signals(b, closePrice.value, a, a.bollingerNum.value, st.cross, kn.changed)), next)
  }

  /**
   * With every input present, the monitor reports exactly the OR of its
   * eight sub-signals, and it advances the two memories by their steps.
   */
  lemma MonitorIsOrOfSignals(s: MonitorState, closePrice: real, a: Analysis, now: real)
    requires a.bollingerNum.Some? && s.baseline.Some? && s.baseline.value.price != 0.0
    ensures var b := s.baseline.value;
      var st := StochCross(s.stoch, b.stochK.GetOr(50.0), b.stochD.GetOr(50.0), a.stochK, a.stochD, now);
      var kn := KnnStep(s.knn, a.knn, b.knn.GetOr(0.0), now);
      var sig := Signals(b, closePrice, a, a.bollingerNum.value, st.cross, kn.changed);
      var r := MonitorMarket(s, Some(closePrice), Some(a), now);
      (r.changed <==> sig.price || sig.rsi || sig.volatility || sig.ema || sig.momentum ||
                      sig.bollinger || sig.stoch || sig.knn) &&
      r.state == MonitorState(s.baseline, kn.memory, st.memory)
  {
  }

  /**
   * Against a baseline captured by a consultation, the EMA and Bollinger
   * sub-signals can never fire, whatever the current state.
   */
  lemma CapturedBaselineSilencesLevels(closeAtCapture: real, captured: Analysis, closePrice: real, a: Analysis,
                                       bollingerNum: int, cross: Option<CrossType>, knnChanged: bool)
    requires closeAtCapture != 0.0
    ensures var sig := Signals(Capture(closeAtCapture, captured), closePrice, a, bollingerNum, cross, knnChanged);
      !sig.ema && !sig.bollinger
  {
    var b := Capture(closeAtCapture, captured);
    LevelFlipNeedsBase(a.emaNum, b.emaNum, b.emaDirection);
    LevelFlipNeedsBase(bollingerNum, b.bollingerNum, b.bbDirection);
  }

  /**
   * Right after a consultation, an unchanged market reports no change: the
   * same close and the same analysis fire none of the eight sub-signals,
   * whether or not the KNN memory holds a direction yet.
   */
  lemma UnchangedMarketIsQuiet(s: MonitorState, closePrice: real, a: Analysis, now: real)
    requires closePrice != 0.0 && a.bollingerNum.Some?
    ensures var s1 := MonitorState(Some(Capture(closePrice, a)), s.knn, s.stoch);
      !MonitorMarket(s1, Some(closePrice), Some(a), now).changed
  {
    var b := Capture(closePrice, a);
    var s1 := MonitorState(Some(b), s.knn, s.stoch);
    var st := StochCross(s.stoch, a.stochK, a.stochD, a.stochK, a.stochD, now);
    assert st.cross.None?;
    var kn := KnnStep(s.knn, a.knn, a.knn, now);
    assert !kn.changed;
    CapturedBaselineSilencesLevels(closePrice, a, closePrice, a, a.bollingerNum.value, st.cross, kn.changed);
    var sig := Signals(b, closePrice, a, a.bollingerNum.value, st.cross, kn.changed);
    assert !sig.price;
    assert !sig.stoch;
    assert !AnySignal(sig);
  }

  /**
   * Flat Bollinger bands leave the level undefined, so the monitor then
   * reports a change on every call.
   */
  lemma UndefinedBollingerAlwaysChanged(s: MonitorState, closePrice: real, a: Analysis, now: real)
    requires a.bollingerNum.None?
    ensures MonitorMarket(s, Some(closePrice), Some(a), now) == MonitorOutcome(true, s)
  {
  }

  // ---------------------------------------------------------------------
  // The bot's monitor fields
  // ---------------------------------------------------------------------

  /** The default advice consult_gpt_for_trading returns when it does not consult or cannot parse the answer. */
  const HOLD_ADVICE: Gate.Advice := Gate.Advice(Some(Gate.HOLD), Some(0.0), Some(50.0))

  /**
   * The monitor's fields of BTCTradingBot: the baseline of the last
   * successful consultation and the two cooldown memories.
   */
  class MarketMonitor {
    var baseline: Option<MarketState>
    var lastKnnDirection: Option<Direction>
    var lastKnnChangeTime: Option<real>
    var lastStochCrossTime: Option<real>
    var lastStochCrossType: Option<CrossType>

    function State(): MonitorState
      reads this
    {
      MonitorState(baseline, KnnMemory(lastKnnDirection, lastKnnChangeTime),
                   StochMemory(lastStochCrossTime, lastStochCrossType))
    }

    constructor ()
      ensures State() == INITIAL_STATE
    {
      baseline := None;
      lastKnnDirection := None;
      lastKnnChangeTime := None;
      lastStochCrossTime := None;
      lastStochCrossType := None;
    }

    /** monitor_knn_changes: one KnnStep on the two KNN fields; nothing else changes. */
    method MonitorKnnChanges(current: real, last: real, now: real) returns (changed: bool)
      modifies this
      ensures KnnOutcome(changed, KnnMemory(lastKnnDirection, lastKnnChangeTime)) ==
              KnnStep(KnnMemory(old(lastKnnDirection), old(lastKnnChangeTime)), current, last, now)
      ensures baseline == old(baseline) && lastStochCrossTime == old(lastStochCrossTime) &&
              lastStochCrossType == old(lastStochCrossType)
    {
      changed := false;
      var direction := KnnDirection(current);
      if lastKnnDirection.None? {
        lastKnnDirection := Some(direction);
        return;
      }
      if direction != lastKnnDirection.value && direction != Neutral {
        if CooledDown(lastKnnChangeTime, now, KNN_CHANGE_COOLDOWN) {
          if Abs(current - last) >= KNN_DIRECTION_CHANGE_THRESHOLD {
            changed := true;
            lastKnnChangeTime := Some(now);
            lastKnnDirection := Some(direction);
          }
        }
      }
    }

    /** Updates the cross fields as the cross detection of monitor_market_conditions does. */
    method DetectStochCross(lastK: real, lastD: real, currentK: real, currentD: real, now: real)
      returns (cross: Option<CrossType>)
      modifies this
      ensures StochOutcome(cross, StochMemory(lastStochCrossTime, lastStochCrossType)) ==
              StochCross(StochMemory(old(lastStochCrossTime), old(lastStochCrossType)), lastK, lastD, currentK, currentD, now)
      ensures baseline == old(baseline) && lastKnnDirection == old(lastKnnDirection) &&
              lastKnnChangeTime == old(lastKnnChangeTime)
    {
      cross := None;
      var currentDiff := currentK - currentD;
      var lastDiff := lastK - lastD;
      if lastDiff < 0.0 && currentDiff > 0.0 {
        if Abs(currentDiff) >= STOCH_CROSS_THRESHOLD {
          if lastStochCrossTime.None? || now - lastStochCrossTime.value >= STOCH_CROSS_COOLDOWN
             || lastStochCrossType == Some(CrossDown) {
            cross := Some(CrossUp);
            lastStochCrossTime := Some(now);
            lastStochCrossType := Some(CrossUp);
          }
        }
      } else if lastDiff > 0.0 && currentDiff < 0.0 {
        if Abs(currentDiff) >= STOCH_CROSS_THRESHOLD {
          if lastStochCrossTime.None? || now - lastStochCrossTime.value >= STOCH_CROSS_COOLDOWN
             || lastStochCrossType == Some(CrossUp) {
            cross := Some(CrossDown);
            lastStochCrossTime := Some(now);
            lastStochCrossType := Some(CrossDown);
          }
        }
      }
    }

    /** monitor_market_conditions: performs exactly one MonitorMarket step. */
    method MonitorMarketConditions(closePrice: Option<real>, analysis: Option<Analysis>, now: real)
      returns (changed: bool)
      modifies this
      ensures MonitorOutcome(changed, State()) == MonitorMarket(old(State()), closePrice, analysis, now)
    {
      if closePrice.None? || analysis.None? {
        return true;
      }
      var a := analysis.value;
      if a.bollingerNum.None? {
        return true;
      }
      if baseline.None? {
        return true;
      }
      var b := baseline.value;
      var lastK := b.stochK.GetOr(50.0);
      var cross := DetectStochCross(lastK, b.stochD.GetOr(50.0), a.stochK, a.stochD, now);
      var stochChange := StochSignificant(cross, lastK, a.stochK);
      var knnChange := MonitorKnnChanges(a.knn, b.knn.GetOr(0.0), now);
      if b.price == 0.0 {
        return true;
      }
      var priceChange := PriceMoved(closePrice.value, b.price, 0.005);
      var rsiChange := Abs(a.rsi - b.rsi) > 5.0;
      var volatilityChange := Abs(a.volatility - b.volatility) > 0.1;
      var emaChange := LevelFlip(a.emaNum, b.emaBase, b.emaNum, b.emaDirection);
      var bbChange := LevelFlip(a.bollingerNum.value, b.bollingerBase, b.bollingerNum, b.bbDirection);
      var momentumChange := MomentumFlip(a.momentum, b.momentum);
      changed := priceChange || rsiChange || volatilityChange || emaChange || momentumChange
                 || bbChange || stochChange || knnChange;
    }

    /**
     * consult_gpt_for_trading around the model call: without a market
     * change or a forced check it returns the hold advice untouched; an
     * answer that does not parse (None) gives the hold advice too; a parsed
     * answer is returned and its market state becomes the new baseline.
     */
    method ConsultGpt(marketChanged: bool, forceCheck: bool, answer: Option<Gate.Advice>,
                      closePrice: real, a: Analysis) returns (advice: Gate.Advice)
      modifies this
      ensures (!marketChanged && !forceCheck) || answer.None? ==> advice == HOLD_ADVICE && State() == old(State())
      ensures (marketChanged || forceCheck) && answer.Some? ==>
              advice == answer.value && State() == old(State()).(baseline := Some(Capture(closePrice, a)))
    {
      if !marketChanged && !forceCheck {
        return HOLD_ADVICE;
      }
      if answer.None? {
        return HOLD_ADVICE;
      }
      baseline := Some(Capture(closePrice, a));
      advice := answer.value;
    }
  }

  /**
   * A consultation followed by the next pass over an unchanged market does
   * not trigger another one.
   */
  method ConsultThenMonitor(m: MarketMonitor, closePrice: real, a: Analysis, answer: Gate.Advice, now: real)
    returns (changed: bool)
    requires closePrice != 0.0 && a.bollingerNum.Some?
    modifies m
    ensures !changed
  {
    var _ := m.ConsultGpt(true, false, Some(answer), closePrice, a);
    changed := m.MonitorMarketConditions(Some(closePrice), Some(a), now);
    UnchangedMarketIsQuiet(old(m.State()), closePrice, a, now);
  }

  // ---------------------------------------------------------------------
  // Helpers defined but never called by the bot
  // ---------------------------------------------------------------------

  /**
   * is_significant_level_change: two or more steps apart, or one of the
   * listed boundary moves (EMA: from 2 or 3 to 0 or 4; Bollinger: from 2
   * to 0, 4 or 5, from 3 to 0 or 5).
   */
  function IsSignificantLevelChange(current: int, base: int, isEma: bool): (r: bool)
    ensures AbsInt(current - base) >= 2 ==> r
    ensures r ==> current != base
    ensures r ==> AbsInt(current - base) <= 1 ==> 2 <= base <= 3
  {
    if AbsInt(current - base) >= 2 then true
    else if isEma then (base == 2 || base == 3) && (current == 0 || current == 4)
    else if base == 2 then current == 0 || current == 4 || current == 5
    else if base == 3 then current == 0 || current == 5
    else false
  }

  /**
   * The boundary tables add exactly one move to the two-step rule for the
   * EMA (3 to 4) and none for the Bollinger levels.
   */
  lemma LevelChangeReduced(current: int, base: int)
    ensures IsSignificantLevelChange(current, base, true) <==> AbsInt(current - base) >= 2 || (base == 3 && current == 4)
    ensures IsSignificantLevelChange(current, base, false) <==> AbsInt(current - base) >= 2
  {
  }

  /**
   * check_significant_market_change: a missing state, a zero last price or
   * a missing current Bollinger level count as a change; otherwise a
   * price move over 2 %, an RSI move over 10, a volatility move over 0.1
   * or a Bollinger level two steps from the last one (0 when absent).
   */
  function CheckSignificantMarketChange(last: Option<MarketState>, current: Option<MarketState>): (r: bool)
    ensures last.None? || current.None? ==> r
    ensures current.Some? && current.value.bollingerNum.None? ==> r
    ensures last.Some? && last == current && last.value.price != 0.0 && last.value.bollingerNum.Some? ==> !r
    ensures last.Some? && current.Some? && last.value.price != 0.0 && current.value.bollingerNum.Some? ==>
              var l, c := last.value, current.value;
              (r <==> PriceMoved(c.price, l.price, 0.02) || Abs(c.rsi - l.rsi) > 10.0 ||
                      Abs(c.volatility - l.volatility) > 0.1 ||
                      AbsInt(c.bollingerNum.value - l.bollingerNum.GetOr(0)) >= 2)
  {
    if last.None? || current.None? then true
    else
      var l, c := last.value, current.value;
      if l.price == 0.0 || c.bollingerNum.None? then true
      else
        PriceMoved(c.price, l.price, 0.02) || Abs(c.rsi - l.rsi) > 10.0 || Abs(c.volatility - l.volatility) > 0.1
        || AbsInt(c.bollingerNum.value - l.bollingerNum.GetOr(0)) >= 2
  }

  /**
   * The unused check is coarser than the monitor: each of its price, RSI
   * and volatility tests implies the monitor's matching sub-signal.
   */
  lemma CheckCoarserThanMonitor(b: MarketState, current: MarketState, closePrice: real, a: Analysis,
                                bollingerNum: int, cross: Option<CrossType>, knnChanged: bool)
    requires b.price != 0.0 && current.price == closePrice && current.rsi == a.rsi && current.volatility == a.volatility
    requires current.bollingerNum.Some? && AbsInt(current.bollingerNum.value - b.bollingerNum.GetOr(0)) < 2
    requires CheckSignificantMarketChange(Some(b), Some(current))
    ensures var sig := Signals(b, closePrice, a, bollingerNum, cross, knnChanged);
      sig.price || sig.rsi || sig.volatility
  {
    if PriceMoved(closePrice, b.price, 0.02) {
      PriceMovedAntitone(closePrice, b.price, 0.005, 0.02);
    }
  }
}
