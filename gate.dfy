/**
 * The decision gate of the trading bot: the minimum-order gating of
 * generate_trading_signal, the order decision of execute_trade, and the
 * volatility-tiered forced-check schedule of the trading loop
 * (autotrade.py).  Balances and prices, read from the exchange in the
 * source, are parameters; an order is the returned Decision, not a call.
 */
module Gate {
  import opened Common

  const TRADING_FEE_RATE: real := 0.0005
  const MIN_ORDER_AMOUNT: real := 5000.0
  /** The confidence score execute_trade needs before it places anything. */
  const MIN_CONFIDENCE: real := 60.0

  const BUY: string := "매수"
  const SELL: string := "매도"
  const HOLD: string := "관망"

  /**
   * The advice dictionary returned by the language-model consultation.
   * Each key may be absent; readers apply their own defaults.
   */
  datatype Advice = Advice(recommendation: Option<string>, percentage: Option<real>, confidence: Option<real>)

  /** default_gpt_advice of generate_trading_signal: hold, 0 %, confidence 0. */
  const DEFAULT_ADVICE: Advice := Advice(Some(HOLD), Some(0.0), Some(0.0))

  /** The four-tuple generate_trading_signal returns; analyzed is whether analysis_results is not None. */
  datatype Signal = Signal(buy: bool, sell: bool, advice: Advice, analyzed: bool)

  const DEFAULT_SIGNAL: Signal := Signal(false, false, DEFAULT_ADVICE, false)

  /** KRW left to spend after the fee. */
  function NetBalance(balance: real): real { balance * (1.0 - TRADING_FEE_RATE) }

  /** The KRW a full sell of the coin would bring after the fee. */
  function ExpectedSellValue(coin: real, price: real): real { coin * price * (1.0 - TRADING_FEE_RATE) }

  /**
   * generate_trading_signal after the exchange reads.  hasData and the
   * optional price stand for the data and price checks, analyzed for
   * calculate_indicators succeeding, advice for what the consultation
   * returned (None when it returned None or raised).  A buy signal needs a
   * buy recommendation and a fee-adjusted balance of at least the minimum
   * order; a sell signal a sell recommendation and a fee-adjusted coin
   * value of at least the minimum.  An advice without a recommendation key
   * raises KeyError and falls back to the default response.
   */
  function GenerateTradingSignal(hasData: bool, price: Option<real>, balance: real, coin: real,
                                 analyzed: bool, advice: Option<Advice>): (r: Signal)
    ensures r.buy ==> r.advice.recommendation == Some(BUY) && NetBalance(balance) >= MIN_ORDER_AMOUNT
    ensures r.sell ==> r.advice.recommendation == Some(SELL) && price.Some? && ExpectedSellValue(coin, price.value) >= MIN_ORDER_AMOUNT
    ensures !(r.buy && r.sell)
    ensures !hasData || price.None? || !analyzed ==> r == DEFAULT_SIGNAL
    ensures price.Some? && NetBalance(balance) < MIN_ORDER_AMOUNT && ExpectedSellValue(coin, price.value) < MIN_ORDER_AMOUNT
            ==> r == DEFAULT_SIGNAL
  {
    if !hasData || price.None? then DEFAULT_SIGNAL
    else
      var net := NetBalance(balance);
      var sellValue := ExpectedSellValue(coin, price.value);
      if net < MIN_ORDER_AMOUNT && sellValue < MIN_ORDER_AMOUNT then DEFAULT_SIGNAL
      else if !analyzed then DEFAULT_SIGNAL
      else
        var a := if advice.None? then DEFAULT_ADVICE else advice.value;
        if a.recommendation.None? then DEFAULT_SIGNAL
        else
          Signal(a.recommendation.value == BUY && net >= MIN_ORDER_AMOUNT,
                 a.recommendation.value == SELL && sellValue >= MIN_ORDER_AMOUNT, a, true)
  }

  /** When the consultation failed, the bot never trades on that cycle. */
  lemma FailedConsultationNeverSignals(hasData: bool, price: Option<real>, balance: real, coin: real, analyzed: bool)
    ensures var r := GenerateTradingSignal(hasData, price, balance, coin, analyzed, None);
      !r.buy && !r.sell
  {
  }

  /** A buy signal is raised exactly when the funds suffice and the advice says buy. */
  lemma BuySignalExactly(price: real, balance: real, coin: real, advice: Advice)
    ensures GenerateTradingSignal(true, Some(price), balance, coin, true, Some(advice)).buy
            <==> advice.recommendation == Some(BUY) && NetBalance(balance) >= MIN_ORDER_AMOUNT
  {
  }

  /** After a successful consultation the sell signal is the advised sell of a large enough holding. */
  lemma SellSignalExactly(price: real, balance: real, coin: real, advice: Advice)
    ensures GenerateTradingSignal(true, Some(price), balance, coin, true, Some(advice)).sell
            <==> advice.recommendation == Some(SELL) && ExpectedSellValue(coin, price) >= MIN_ORDER_AMOUNT
  {
  }

  /** The order execute_trade places, if any. */
  datatype Decision = Buy(krw: real) | Sell(qty: real) | Hold

  /** The coin's share of total assets in percent, 0 when there are no assets. */
  function CoinRatio(balance: real, coin: real, price: real): (r: real)
    ensures balance + coin * price > 0.0 ==> r * (balance + coin * price) == coin * price * 100.0
  {
    var total := balance + coin * price;
    if total > 0.0 then coin * price / total * 100.0 else 0.0
  }

  /** The KRW execute_trade spends to move the coin share up to target percent. */
  function BuyAmount(balance: real, coin: real, price: real, target: real): (r: real)
    ensures r <= balance * 0.9995
    ensures balance + coin * price > 0.0 ==> r <= ((balance + coin * price) * target / 100.0 - coin * price) * 0.9995
    ensures balance + coin * price > 0.0 ==>
              r == balance * 0.9995 || r == ((balance + coin * price) * target / 100.0 - coin * price) * 0.9995
  {
    var total := balance + coin * price;
    var additional := total * ((target - CoinRatio(balance, coin, price)) / 100.0);
    MinR(additional * 0.9995, balance * 0.9995)
  }

  /**
   * execute_trade's branch logic: analyzed and price stand for the two
   * None checks.  The confidence defaults to 0, the recommendation to hold
   * and the percentage to 10.  A buy tops the coin share up to the advised
   * percentage of total assets when it is more than one point short; a
   * sell sells the advised percentage of the coin held.  Both need
   * confidence of at least 60 and an order of at least the minimum amount.
   */
  function ExecuteTrade(buySignal: bool, sellSignal: bool, advice: Advice, analyzed: bool,
                        price: Option<real>, balance: real, coin: real): (r: Decision)
    ensures r.Buy? ==> buySignal && advice.recommendation.GetOr(HOLD) == BUY &&
                       advice.confidence.GetOr(0.0) >= MIN_CONFIDENCE &&
                       MIN_ORDER_AMOUNT <= r.krw <= balance * 0.9995 &&
                       price.Some? && r.krw == BuyAmount(balance, coin, price.value, advice.percentage.GetOr(10.0))
    ensures r.Sell? ==> sellSignal && advice.recommendation.GetOr(HOLD) == SELL &&
                        advice.confidence.GetOr(0.0) >= MIN_CONFIDENCE && coin > 0.0 &&
                        r.qty == coin * (advice.percentage.GetOr(10.0) / 100.0) && price.Some? &&
                        r.qty * price.value * (1.0 - TRADING_FEE_RATE) >= MIN_ORDER_AMOUNT
    ensures !analyzed || price.None? || advice.confidence.GetOr(0.0) < MIN_CONFIDENCE ==> r == Hold
  {
    if !analyzed || price.None? then Hold
    else
      var p := price.value;
      var confidence := advice.confidence.GetOr(0.0);
      var recommendation := advice.recommendation.GetOr(HOLD);
      if buySignal && recommendation == BUY && confidence >= MIN_CONFIDENCE then
        var target := advice.percentage.GetOr(10.0);
        var difference := target - CoinRatio(balance, coin, p);
        if difference > 1.0 then
          var amount := BuyAmount(balance, coin, p, target);
          if amount >= MIN_ORDER_AMOUNT then Buy(amount) else Hold
        else
          Hold
      else if sellSignal && recommendation == SELL && confidence >= MIN_CONFIDENCE then
        if coin > 0.0 then
          var qty := coin * (advice.percentage.GetOr(10.0) / 100.0);
          if qty * p * (1.0 - TRADING_FEE_RATE) >= MIN_ORDER_AMOUNT then Sell(qty) else Hold
        else
          Hold
      else
        Hold
  }

  /** The buy branch in full: when all its conditions hold, the decision is that buy. */
  lemma BuyExactly(buySignal: bool, sellSignal: bool, advice: Advice, price: real, balance: real, coin: real)
    ensures var target := advice.percentage.GetOr(10.0);
      var r := ExecuteTrade(buySignal, sellSignal, advice, true, Some(price), balance, coin);
      r.Buy? <==> buySignal && advice.recommendation.GetOr(HOLD) == BUY &&
                  advice.confidence.GetOr(0.0) >= MIN_CONFIDENCE &&
                  target - CoinRatio(balance, coin, price) > 1.0 &&
                  BuyAmount(balance, coin, price, target) >= MIN_ORDER_AMOUNT
  {
  }

  /**
   * A sell happens exactly when signal, recommendation, confidence, coins
   * held and a fee-adjusted value of at least 5000 all hold.  A sell
   * recommendation rules out the buy branch, so no case is excluded.
   */
  lemma SellExactly(buySignal: bool, sellSignal: bool, advice: Advice, price: real, balance: real, coin: real)
    ensures var qty := coin * (advice.percentage.GetOr(10.0) / 100.0);
      var r := ExecuteTrade(buySignal, sellSignal, advice, true, Some(price), balance, coin);
      r.Sell? <==> sellSignal && advice.recommendation.GetOr(HOLD) == SELL &&
                   advice.confidence.GetOr(0.0) >= MIN_CONFIDENCE && coin > 0.0 &&
                   qty * price * (1.0 - TRADING_FEE_RATE) >= MIN_ORDER_AMOUNT
  {
  }

  /**
   * A buy never pushes the coin's value past the advised share of total
   * assets: coin value plus the amount spent stays within target percent.
   * With no assets a buy is impossible.
   */
  lemma BuyNeverOvershootsTarget(buySignal: bool, sellSignal: bool, advice: Advice, price: real, balance: real, coin: real)
    requires ExecuteTrade(buySignal, sellSignal, advice, true, Some(price), balance, coin).Buy?
    ensures var total := balance + coin * price;
      total > 0.0 &&
      coin * price + ExecuteTrade(buySignal, sellSignal, advice, true, Some(price), balance, coin).krw
        <= total * advice.percentage.GetOr(10.0) / 100.0
  {
    var target := advice.percentage.GetOr(10.0);
    var total := balance + coin * price;
    var ratio := CoinRatio(balance, coin, price);
    var additional := total * ((target - ratio) / 100.0);
    var amount := BuyAmount(balance, coin, price, target);
    assert amount <= additional * 0.9995;
    assert additional > 0.0;
    assert total * ratio == coin * price * 100.0;
    assert additional == total * target / 100.0 - total * ratio / 100.0;
  }

  /** An advised sell of p percent of the coin sells exactly that share, never more than is held. */
  lemma SellWithinHolding(buySignal: bool, sellSignal: bool, advice: Advice, price: real, balance: real, coin: real)
    requires 0.0 <= advice.percentage.GetOr(10.0) <= 100.0
    requires ExecuteTrade(buySignal, sellSignal, advice, true, Some(price), balance, coin).Sell?
    ensures 0.0 <= ExecuteTrade(buySignal, sellSignal, advice, true, Some(price), balance, coin).qty <= coin
  {
    var s := advice.percentage.GetOr(10.0) / 100.0;
    assert 0.0 <= s <= 1.0;
    assert coin * s <= coin * 1.0;
  }

  /** The signals generate_trading_signal hands on keep execute_trade's buys within the fee-adjusted balance. */
  lemma GatedBuyAffordable(price: real, balance: real, coin: real, advice: Advice)
    requires var s := GenerateTradingSignal(true, Some(price), balance, coin, true, Some(advice));
      ExecuteTrade(s.buy, s.sell, s.advice, true, Some(price), balance, coin).Buy?
    ensures NetBalance(balance) >= MIN_ORDER_AMOUNT
    ensures ExecuteTrade(true, false, advice, true, Some(price), balance, coin).krw <= NetBalance(balance)
  {
  }

  // ---------------------------------------------------------------------
  // The forced-check schedule of the trading loop
  // ---------------------------------------------------------------------

  /** Two hours in calm markets, one hour at moderate and half an hour at high volatility. */
  function ForceCheckInterval(volatility: real): (r: real)
    ensures r == 7200.0 || r == 3600.0 || r == 1800.0
    ensures r == 7200.0 <==> volatility < 2.35
    ensures r == 1800.0 <==> volatility >= 3.0
  {
    if volatility < 2.35 then 7200.0 else if volatility < 3.0 then 3600.0 else 1800.0
  }

  /** Higher volatility never lengthens the interval. */
  lemma ForceCheckIntervalAntitone(v1: real, v2: real)
    requires v1 <= v2
    ensures ForceCheckInterval(v2) <= ForceCheckInterval(v1)
  {
  }

  /** The outcome of one loop pass: whether to consult, whether the timer forced it, and the new timer. */
  datatype Schedule = Schedule(consult: bool, forced: bool, lastForcedCheck: real)

  /**
   * should_consult_gpt is market_changed or the forced-check timer having
   * run out; every consultation resets the timer to now.
   */
  function ScheduleStep(marketChanged: bool, volatility: real, now: real, lastForcedCheck: real): (r: Schedule)
    ensures r.forced <==> now - lastForcedCheck >= ForceCheckInterval(volatility)
    ensures r.consult <==> marketChanged || r.forced
    ensures r.lastForcedCheck == if r.consult then now else lastForcedCheck
  {
    var forced := now - lastForcedCheck >= ForceCheckInterval(volatility);
    var consult := marketChanged || forced;
    Schedule(consult, forced, if consult then now else lastForcedCheck)
  }

  /** The timer is never left running longer than the interval: a pass that does not consult is within it. */
  lemma NoConsultWithinInterval(marketChanged: bool, volatility: real, now: real, lastForcedCheck: real)
    requires !ScheduleStep(marketChanged, volatility, now, lastForcedCheck).consult
    ensures now - lastForcedCheck < 1800.0 || (now - lastForcedCheck < ForceCheckInterval(volatility) && volatility < 3.0)
    ensures ScheduleStep(marketChanged, volatility, now, lastForcedCheck).lastForcedCheck == lastForcedCheck
  {
  }

  /** However calm the market, two hours without a consultation force one. */
  lemma TwoHoursAlwaysForce(marketChanged: bool, volatility: real, now: real, lastForcedCheck: real)
    requires now - lastForcedCheck >= 7200.0
    ensures ScheduleStep(marketChanged, volatility, now, lastForcedCheck).consult
  {
  }
}
