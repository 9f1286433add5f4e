/** The trade-decision strategy (src/Decision/Decision.js): filter the account's markets, score
    each one long and short from its indicators, keep the opportunities whose certainty reaches
    the threshold, bracket each with a stop and a target, and open at most one order per
    opportunity. Indicator values, exchange answers and the account snapshot are inputs; the
    exchange calls the strategy makes are its output. */
module Decision {
  import opened Common
  import ConfigLoader

  /* ---------------------------------------------------------------- settings */

  /** The fields the `Decision` constructor sets from the configuration; those an order is
      built from are grouped in `order`. */
  datatype Settings = Settings(
    uniqueTrend: string,
    certainty: real,
    adaptiveCertaintyEnabled: bool,
    certaintyAdjustStep: real,
    debugVerbose: bool,
    perfLoggingEnabled: bool,
    maxOrderOpen: real,
    feeBuffer: real,
    authorizedMarket: seq<string>,
    trailingStopEnabled: bool,
    trailingStopGap: real,
    order: OrderSettings)

  /** The settings that size an order and place its stop and target. */
  datatype OrderSettings = OrderSettings(
    fixedOrderVolume: real,
    maxPercentLoss: real,
    maxPercentProfit: real,
    minAtrPercent: real,
    stoplossAtrMultiplier: real,
    takeprofitAtrMultiplier: real,
    enableStoploss: bool)

  /** A configured number with a default: 0 counts as unset (it is falsy) and yields `d`. */
  function OrDefault(x: real, d: real): real {
    if x == 0.0 then d else x
  }

  /** The `Decision` constructor. The loaded configuration always holds an array for
      `AUTHORIZED_MARKET` and booleans for the flags, so those pass through unchanged. */
  function FromConfig(c: ConfigLoader.Config): Settings {
    Settings(
      uniqueTrend := c.uniqueTrend,
      certainty := OrDefault(c.certainty, 70.0),
      adaptiveCertaintyEnabled := c.adaptiveCertaintyEnabled,
      certaintyAdjustStep := OrDefault(c.certaintyAdjustStep, 5.0),
      debugVerbose := c.debugVerbose,
      perfLoggingEnabled := c.perfLoggingEnabled,
      maxOrderOpen := OrDefault(c.maxOrderOpen, 5.0),
      feeBuffer := OrDefault(c.feeBuffer, 0.0001),
      authorizedMarket := c.authorizedMarket,
      trailingStopEnabled := c.trailingStopEnabled,
      trailingStopGap := OrDefault(c.trailingStopGap, 0.004),
      order := OrderSettings(
        fixedOrderVolume := OrDefault(c.fixedOrderVolume, 1000.0),
        maxPercentLoss := OrDefault(c.maxPercentLoss, 0.0035),
        maxPercentProfit := OrDefault(c.maxPercentProfit, 0.016),
        minAtrPercent := OrDefault(c.minAtrPercent, 0.005),
        stoplossAtrMultiplier := OrDefault(c.stoplossAtrMultiplier, 0.7),
        takeprofitAtrMultiplier := OrDefault(c.takeprofitAtrMultiplier, 3.0),
        enableStoploss := c.enableStoploss))
  }

  /** No numeric setting is ever 0: a configured 0 (or a blank variable, which reads as 0) is
      replaced by the constructor's own default, and any other configured value is kept. The
      constructor's defaults differ from the loader's, so an unset variable gets the loader's
      value (certainty 75) while a variable set to "0" gets the constructor's (certainty 70). */
  lemma FromConfigSpec(c: ConfigLoader.Config)
    ensures var s := FromConfig(c);
      s.certainty != 0.0 && s.certaintyAdjustStep != 0.0 && s.order.fixedOrderVolume != 0.0
      && s.maxOrderOpen != 0.0 && s.feeBuffer != 0.0 && s.order.maxPercentLoss != 0.0
      && s.order.maxPercentProfit != 0.0 && s.order.minAtrPercent != 0.0 && s.order.stoplossAtrMultiplier != 0.0
      && s.order.takeprofitAtrMultiplier != 0.0 && s.trailingStopGap != 0.0
    ensures var s := FromConfig(c);
      Defaulted(c.certainty, s.certainty, 70.0)
      && Defaulted(c.certaintyAdjustStep, s.certaintyAdjustStep, 5.0)
      && Defaulted(c.fixedOrderVolume, s.order.fixedOrderVolume, 1000.0)
      && Defaulted(c.maxOrderOpen, s.maxOrderOpen, 5.0)
      && Defaulted(c.feeBuffer, s.feeBuffer, 0.0001)
      && Defaulted(c.maxPercentLoss, s.order.maxPercentLoss, 0.0035)
      && Defaulted(c.maxPercentProfit, s.order.maxPercentProfit, 0.016)
      && Defaulted(c.minAtrPercent, s.order.minAtrPercent, 0.005)
      && Defaulted(c.stoplossAtrMultiplier, s.order.stoplossAtrMultiplier, 0.7)
      && Defaulted(c.takeprofitAtrMultiplier, s.order.takeprofitAtrMultiplier, 3.0)
      && Defaulted(c.trailingStopGap, s.trailingStopGap, 0.004)
    ensures var s := FromConfig(c);
      s.uniqueTrend == c.uniqueTrend && s.authorizedMarket == c.authorizedMarket
      && s.adaptiveCertaintyEnabled == c.adaptiveCertaintyEnabled && s.order.enableStoploss == c.enableStoploss
      && s.trailingStopEnabled == c.trailingStopEnabled
      && s.debugVerbose == c.debugVerbose && s.perfLoggingEnabled == c.perfLoggingEnabled
  {
  }

  /** A setting read with a default: a configured 0 gives `d`, any other value is kept. */
  predicate Defaulted(configured: real, chosen: real, d: real) {
    (configured == 0.0 ==> chosen == d) && (configured != 0.0 ==> chosen == configured)
  }

  /** The two layers of defaults, end to end: unset gives 75, "0" gives 70. */
  lemma CertaintyDefaults(env: map<string, string>)
    ensures "CERTAINTY" !in env ==> FromConfig(ConfigLoader.LoadConfig(env)).certainty == 75.0
    ensures "CERTAINTY" in env && env["CERTAINTY"] == "0" ==>
      FromConfig(ConfigLoader.LoadConfig(env)).certainty == 70.0
  {
    if "CERTAINTY" in env && env["CERTAINTY"] == "0" {
      ConfigLoader.ParseNumberShowNat(0, 75.0);
      assert JsNumberZero: ConfigLoader.EnvValue(env, "CERTAINTY") == ConfigLoader.Text("0");
    }
  }

  /* ---------------------------------------------------------------- markets and data */

  datatype Market = Market(symbol: string, tickSize: real, decimalPrice: nat)

  /** What `calculateIndicators` yields for one time frame (its computation is not part of
      this model). `atr` is absent when the indicator could not be computed. */
  datatype Indicators = Indicators(
    ema9: real, ema21: real, rsi: real, macd: real, macdSignal: real,
    bollingerMiddle: real, vwap: real, volumeTrend: string, priceSlope: real, atr: Option<real>)

  /** The mark price and the 1-, 5- and 15-minute indicators fetched for one market. */
  datatype Sample = Sample(marketPrice: real, m1: Indicators, m5: Indicators, m15: Indicators)

  /** One dataset entry: a market and its sample. */
  datatype DataPoint = DataPoint(market: Market, sample: Sample)

  /** The filter in `getDataset`: no open position on the market, and the allow-list is empty
      or names it. */
  predicate IsTradable(m: Market, closed: seq<string>, authorized: seq<string>) {
    m.symbol !in closed && (|authorized| == 0 || m.symbol in authorized)
  }

  /** `a` is `b` with some elements left out, the rest in the same order. */
  predicate Subsequence<T(==)>(a: seq<T>, b: seq<T>)
    decreases |b|
  {
    a == [] || (b != [] &&
      if a[|a| - 1] == b[|b| - 1] then Subsequence(a[..|a| - 1], b[..|b| - 1])
      else Subsequence(a, b[..|b| - 1]))
  }

  /** The markets of the account that the strategy may trade (the filter of `getDataset`). */
  function TradableMarkets(ms: seq<Market>, closed: seq<string>, authorized: seq<string>): seq<Market> {
    if ms == [] then []
    else
      var init := TradableMarkets(ms[..|ms| - 1], closed, authorized);
      if IsTradable(ms[|ms| - 1], closed, authorized) then init + [ms[|ms| - 1]] else init
  }

  /** The filter keeps exactly the tradable markets, in their original order. */
  lemma {:induction false} TradableMarketsSpec(ms: seq<Market>, closed: seq<string>, authorized: seq<string>)
    ensures forall m :: m in TradableMarkets(ms, closed, authorized) <==> m in ms && IsTradable(m, closed, authorized)
    ensures Subsequence(TradableMarkets(ms, closed, authorized), ms)
  {
    if ms != [] {
      var init := ms[..|ms| - 1];
      TradableMarketsSpec(init, closed, authorized);
      assert ms == init + [ms[|ms| - 1]];
      var r := TradableMarkets(ms, closed, authorized);
      if IsTradable(ms[|ms| - 1], closed, authorized) {
        assert r[..|r| - 1] == TradableMarkets(init, closed, authorized);
      } else {
        SubsequenceExtend(r, init, ms[|ms| - 1]);
      }
    }
  }

  lemma {:induction false} SubsequenceExtend<T>(a: seq<T>, b: seq<T>, x: T)
    requires Subsequence(a, b)
    ensures Subsequence(a, b + [x])
    decreases |b|, 1
  {
    var bx := b + [x];
    assert bx[..|bx| - 1] == b;
    if a != [] && a[|a| - 1] == x {
      SubsequenceDropLast(a, b);
    }
  }

  lemma {:induction false} SubsequenceDropLast<T>(a: seq<T>, b: seq<T>)
    requires a != [] && Subsequence(a, b)
    ensures Subsequence(a[..|a| - 1], b)
    decreases |b|, 0
  {
    if a[|a| - 1] == b[|b| - 1] {
      SubsequenceExtend(a[..|a| - 1], b[..|b| - 1], b[|b| - 1]);
      assert b[..|b| - 1] + [b[|b| - 1]] == b;
    } else {
      SubsequenceDropLast(a, b[..|b| - 1]);
      SubsequenceExtend(a[..|a| - 1], b[..|b| - 1], b[|b| - 1]);
      assert b[..|b| - 1] + [b[|b| - 1]] == b;
    }
  }

  /** The dataset built from the filtered markets: one entry per market whose fetch succeeded;
      a market whose fetch throws is skipped and the rest still processed. */
  function Collect(ms: seq<Market>, fetch: Market -> Option<Sample>): seq<DataPoint> {
    if ms == [] then []
    else
      var init := Collect(ms[..|ms| - 1], fetch);
      match fetch(ms[|ms| - 1])
      case None => init
      case Some(x) => init + [DataPoint(ms[|ms| - 1], x)]
  }

  function MarketsOf(d: seq<DataPoint>): seq<Market> {
    seq(|d|, i requires 0 <= i < |d| => d[i].market)
  }

  /** Every dataset entry is a fetched market with the sample its fetch returned, every market
      whose fetch succeeded has its entry, and the entries keep the markets' order. */
  lemma {:induction false} CollectSpec(ms: seq<Market>, fetch: Market -> Option<Sample>)
    ensures forall k :: 0 <= k < |Collect(ms, fetch)| ==>
      Collect(ms, fetch)[k].market in ms && fetch(Collect(ms, fetch)[k].market) == Some(Collect(ms, fetch)[k].sample)
    ensures forall m :: m in ms && fetch(m).Some? ==> DataPoint(m, fetch(m).value) in Collect(ms, fetch)
    ensures Subsequence(MarketsOf(Collect(ms, fetch)), ms)
  {
    if ms != [] {
      var init := ms[..|ms| - 1];
      var last := ms[|ms| - 1];
      CollectSpec(init, fetch);
      assert ms == init + [last];
      var c := Collect(init, fetch);
      var r := Collect(ms, fetch);
      if fetch(last).Some? {
        assert r == c + [DataPoint(last, fetch(last).value)];
        assert MarketsOf(r)[..|MarketsOf(r)| - 1] == MarketsOf(c);
      } else {
        SubsequenceExtend(MarketsOf(c), init, last);
      }
    }
  }

  /** `getDataset(account, closedMarkets)`: filter the markets, then fetch each in turn. */
  method GetDataset(markets: seq<Market>, closed: seq<string>, authorized: seq<string>,
                    fetch: Market -> Option<Sample>) returns (dataset: seq<DataPoint>)
    ensures dataset == Collect(TradableMarkets(markets, closed, authorized), fetch)
  {
    var tradable := TradableMarkets(markets, closed, authorized);
    dataset := [];
    var i := 0;
    while i < |tradable|
      invariant 0 <= i <= |tradable|
      invariant dataset == Collect(tradable[..i], fetch)
    {
      var market := tradable[i];
      assert tradable[..i + 1][..i] == tradable[..i];
      match fetch(market) {
        case Some(sample) =>
          dataset := dataset + [DataPoint(market, sample)];
        case None =>
      }
      i := i + 1;
    }
    assert tradable[..i] == tradable;
  }

  /* ---------------------------------------------------------------- scoring */

  datatype Side = Long | Short

  function Point(b: bool): nat {
    if b then 1 else 0
  }

  /** The nine criteria of `scoreSide(isLong)`, counted. */
  function RawScore(d: DataPoint, isLong: bool): (n: nat)
    ensures n <= 9
  {
    var mp := d.sample.marketPrice;
    var tf1 := d.sample.m1;
    var tf5 := d.sample.m5;
    var tf15 := d.sample.m15;
    Point((tf15.ema9 > tf15.ema21) == isLong)
    + Point((tf5.ema9 > tf5.ema21) == isLong)
    + Point((isLong && tf5.rsi > 55.0) || (!isLong && tf5.rsi < 45.0))
    + Point((tf5.macd > tf5.macdSignal) == isLong)
    + Point((isLong && mp > tf1.bollingerMiddle) || (!isLong && mp < tf1.bollingerMiddle))
    + Point((isLong && mp > tf1.vwap) || (!isLong && mp < tf1.vwap))
    + Point(tf1.volumeTrend == "increasing")
    + Point((isLong && tf1.priceSlope > 0.0) || (!isLong && tf1.priceSlope < 0.0))
    + Point((isLong && tf5.rsi > 55.0 && tf5.macd > tf5.macdSignal && tf5.ema9 > tf5.ema21)
            || (!isLong && tf5.rsi < 45.0 && tf5.macd < tf5.macdSignal && tf5.ema9 < tf5.ema21))
  }

  /** Three criteria (the two EMA crosses and the MACD cross) count for exactly one side, the
      volume trend for both or neither, and the other five for at most one side; so the two raw
      scores add up to between 3 and 10. */
  lemma ScoreSum(d: DataPoint)
    ensures 3 <= RawScore(d, true) + RawScore(d, false) <= 10
  {
  }

  /** The score out of nine as a whole percentage, rounded half up. */
  function Percent(score: nat): (p: nat)
    requires score <= 9
    ensures p <= 100
    ensures (p as real) - 0.5 <= (score as real) * 100.0 / 9.0 < (p as real) + 0.5
  {
    var q := 200 * score + 9;
    var p := q / 18;
    assert 18 * p <= q < 18 * p + 18;
    assert (score as real) * 100.0 / 9.0 == ((q - 9) as real) / 18.0;
    p
  }

  /** Rounding keeps the order of scores strict: one more criterion is always a higher percentage. */
  lemma PercentStrictlyIncreasing(a: nat, b: nat)
    requires a < b <= 9
    ensures Percent(a) < Percent(b)
  {
    var pa, pb := Percent(a), Percent(b);
    assert (pb as real) + 0.5 > (b as real) * 100.0 / 9.0 >= (a as real) * 100.0 / 9.0 + 100.0 / 9.0;
    assert (a as real) * 100.0 / 9.0 >= (pa as real) - 0.5;
  }

  /** `scoreSide(isLong)`. */
  function ScoreSide(d: DataPoint, isLong: bool): (p: nat)
    ensures p <= 100
  {
    Percent(RawScore(d, isLong))
  }

  /** The opportunity object `evaluateTradeOpportunity` returns: `side`, `certainty`, the
      market's own fields and `entry`. `m15` stands for what `opp["15m"]` yields later on. */
  datatype Opportunity = Opportunity(side: Side, certainty: nat, market: Market, entry: real, m15: Option<Indicators>)

  /** `evaluateTradeOpportunity(data)`, as written: the returned object copies the market's fields
      but not the "15m" indicators, so `m15` is absent. */
  function Evaluate(d: DataPoint): Opportunity {
    var longScore := ScoreSide(d, true);
    var shortScore := ScoreSide(d, false);
    var isLong := longScore > shortScore;
    var mp := d.sample.marketPrice;
    Opportunity(
      side := if isLong then Long else Short,
      certainty := if longScore >= shortScore then longScore else shortScore,
      market := d.market,
      entry := if isLong then mp - d.market.tickSize * 10.0 else mp + d.market.tickSize * 10.0,
      m15 := None)
  }

  /** The long side wins only on a strictly higher raw score (a tie goes short), certainty is the
      larger of the two percentages and lies in [22, 100], and the entry is ten ticks inside the
      mark price on the chosen side. */
  lemma EvaluateSpec(d: DataPoint)
    ensures Evaluate(d).side == Long <==> RawScore(d, true) > RawScore(d, false)
    ensures Evaluate(d).certainty >= ScoreSide(d, true) && Evaluate(d).certainty >= ScoreSide(d, false)
    ensures Evaluate(d).certainty == ScoreSide(d, true) || Evaluate(d).certainty == ScoreSide(d, false)
    ensures 22 <= Evaluate(d).certainty <= 100
    ensures Evaluate(d).market == d.market
    ensures Evaluate(d).side == Long ==> Evaluate(d).entry == d.sample.marketPrice - 10.0 * d.market.tickSize
    ensures Evaluate(d).side == Short ==> Evaluate(d).entry == d.sample.marketPrice + 10.0 * d.market.tickSize
  {
    var l, s := RawScore(d, true), RawScore(d, false);
    if l > s { PercentStrictlyIncreasing(s, l); }
    else if s > l { PercentStrictlyIncreasing(l, s); }
    ScoreSum(d);
    var top := if l >= s then l else s;
    assert top >= 2;
    if top > 2 { PercentStrictlyIncreasing(2, top); }
    assert Percent(2) == 22;
  }

  /* ---------------------------------------------------------------- opening an order */

  /** What `openOrder` is handed: the opportunity with its bracket and volume. */
  datatype OrderRequest = OrderRequest(
    symbol: string, side: Side, certainty: nat, entry: real, stop: real, target: real, volume: real)

  /** The exchange calls the strategy makes. */
  datatype Call = CancelOpenOrders(symbol: string) | OpenOrder(request: OrderRequest)

  /** One of the market's recent open orders, with its age in minutes. */
  datatype RecentOrder = RecentOrder(minutes: real)

  /** `openOrder(orderData)` given the market's recent open orders, most relevant first. */
  function OpenOrderCalls(req: OrderRequest, recent: seq<RecentOrder>): seq<Call> {
    if |recent| > 0 && recent[0].minutes > 3.0 then [CancelOpenOrders(req.symbol), OpenOrder(req)]
    else if |recent| == 0 then [OpenOrder(req)]
    else []
  }

  /** Three cases: a first recent order older than three minutes is cancelled and the order
      placed; with no recent order the order is placed; otherwise (including exactly three
      minutes) nothing is called. */
  lemma OpenOrderSpec(req: OrderRequest, recent: seq<RecentOrder>)
    ensures |recent| > 0 && recent[0].minutes > 3.0 <==>
      OpenOrderCalls(req, recent) == [CancelOpenOrders(req.symbol), OpenOrder(req)]
    ensures |recent| == 0 <==> OpenOrderCalls(req, recent) == [OpenOrder(req)]
    ensures |recent| > 0 && recent[0].minutes <= 3.0 <==> OpenOrderCalls(req, recent) == []
  {
  }

  /* ---------------------------------------------------------------- analyze */

  /** The account snapshot `analyze` reads; `fee` may be missing. */
  datatype Account = Account(capitalAvailable: real, leverage: real, fee: Option<real>)

  /** The symbols with repeats removed: each symbol once, at its first position. */
  function Dedup(s: seq<string>): (r: seq<string>)
    ensures forall x :: x in r <==> x in s
    ensures forall i, j :: 0 <= i < j < |r| ==> r[i] != r[j]
  {
    if s == [] then []
    else
      var d := Dedup(s[..|s| - 1]);
      if s[|s| - 1] in d then d else d + [s[|s| - 1]]
  }

  /** The deduplicated list has as many entries as there are distinct symbols. */
  lemma {:induction false} DedupCount(s: seq<string>)
    ensures |Dedup(s)| == |set x | x in s|
  {
    if s != [] {
      var init := s[..|s| - 1];
      var last := s[|s| - 1];
      DedupCount(init);
      assert s == init + [last];
      assert (set x | x in s) == (set x | x in init) + {last};
      if last !in Dedup(init) {
        assert last !in (set x | x in init);
      }
    }
  }

  /** The first gate: the markets with a position or an open order already reach `MAX_ORDER_OPEN`. */
  predicate TooManyOpen(s: Settings, positionSymbols: seq<string>, openOrderSymbols: seq<string>) {
    |Dedup(positionSymbols + openOrderSymbols)| as real >= s.maxOrderOpen
  }

  /** The second gate: the order volume over the leverage, grown by the fee buffer, reaches the
      available capital. With leverage 0 the JavaScript quotient is infinite, and the comparison holds exactly when
      the product is +Infinity, that is when volume and `1 + FEE_BUFFER` are both non-zero and of
      the same sign. */
  predicate MarginShort(s: Settings, a: Account) {
    if a.leverage == 0.0 then s.order.fixedOrderVolume * (1.0 + s.feeBuffer) > 0.0
    else (s.order.fixedOrderVolume / a.leverage) * (1.0 + s.feeBuffer) >= a.capitalAvailable
  }

  /** The opportunities that reach the threshold, in dataset order. */
  function Qualifying(opps: seq<Opportunity>, threshold: real): (r: seq<Opportunity>)
    ensures forall o :: o in r <==> o in opps && o.certainty as real >= threshold
    ensures Subsequence(r, opps)
  {
    if opps == [] then []
    else
      var init := Qualifying(opps[..|opps| - 1], threshold);
      var o := opps[|opps| - 1];
      assert opps == opps[..|opps| - 1] + [o];
      if o.certainty as real >= threshold then
        assert (init + [o])[..|init + [o]| - 1] == init;
        init + [o]
      else
        SubsequenceExtend(init, opps[..|opps| - 1], o);
        init
  }

  /** One adaptive step: the threshold lowered by the step, but never below 50. */
  function AdjustedThreshold(threshold: real, step: real): (t: real)
    ensures t >= 50.0 && t >= threshold - step
    ensures t == 50.0 || t == threshold - step
  {
    if threshold - step >= 50.0 then threshold - step else 50.0
  }

  /** The order volume divided by the entry price, or nothing when the opportunity is skipped:
      the quotient is not positive, or the entry is 0 and JavaScript's quotient is not finite. */
  function Quantity(volume: real, entry: real): (q: Option<real>)
    ensures q.Some? ==> q.value > 0.0 && q.value * entry == volume
    ensures q.None? <==> entry == 0.0 || volume / entry <= 0.0
  {
    if entry == 0.0 || volume / entry <= 0.0 then None else Some(volume / entry)
  }

  /** The account's fee rate, with 0.001 when it is missing or 0. */
  function FeeRate(fee: Option<real>): real {
    if fee.Some? && fee.value != 0.0 then fee.value else 0.001
  }

  /** The 15-minute ATR of the opportunity; 0 when missing, which is falsy like 0 itself. */
  function Atr(o: Opportunity): real {
    if o.m15.Some? && o.m15.value.atr.Some? then o.m15.value.atr.value else 0.0
  }

  function Max(a: real, b: real): real {
    if a >= b then a else b
  }

  datatype Bracket = Bracket(stop: real, target: real)

  /** The stop comes from the ATR when stop-losses are enabled and the opportunity carries a
      non-zero 15-minute ATR; otherwise both levels come from the fixed percentages. */
  predicate UsesAtr(s: OrderSettings, o: Opportunity) {
    s.enableStoploss && Atr(o) != 0.0
  }

  /** The opening fee (volume times fee rate), grown by the percentage, spread over the
      quantity. */
  function FeeSpread(volume: real, feeRate: real, pct: real, quantity: real): real
    requires quantity > 0.0
  {
    var feeOpen := volume * feeRate;
    (feeOpen + feeOpen * pct) / quantity
  }

  /** How far the stop lies from the entry before the fee spread. */
  function StopDistance(s: OrderSettings, o: Opportunity): real {
    if UsesAtr(s, o) then Max(Atr(o) * o.entry * s.stoplossAtrMultiplier, o.entry * s.minAtrPercent)
    else o.entry * s.maxPercentLoss
  }

  /** How far the target lies from the entry before the fee spread. */
  function TargetDistance(s: OrderSettings, o: Opportunity): real {
    if UsesAtr(s, o) then Atr(o) * o.entry * s.takeprofitAtrMultiplier
    else o.entry * s.maxPercentProfit
  }

  /** The stop and target `analyze` sets: the stop on the losing side of the entry and the
      target on the winning side, each widened by its fee spread. */
  function BracketFor(s: OrderSettings, o: Opportunity, quantity: real, feeRate: real): Bracket
    requires quantity > 0.0
  {
    var loss := StopDistance(s, o) + FeeSpread(s.fixedOrderVolume, feeRate, s.maxPercentLoss, quantity);
    var gain := TargetDistance(s, o) + FeeSpread(s.fixedOrderVolume, feeRate, s.maxPercentProfit, quantity);
    if o.side == Long then Bracket(o.entry - loss, o.entry + gain)
    else Bracket(o.entry + loss, o.entry - gain)
  }

  /** The settings under which a bracket surrounds its entry: a positive volume, and
      non-negative fee, percentages and ATR factors. */
  predicate SaneSettings(s: OrderSettings, feeRate: real) {
    s.fixedOrderVolume > 0.0 && feeRate >= 0.0 && s.maxPercentLoss >= 0.0 && s.maxPercentProfit >= 0.0
    && s.minAtrPercent >= 0.0 && s.stoplossAtrMultiplier >= 0.0 && s.takeprofitAtrMultiplier >= 0.0
  }

  lemma FeeSpreadNonNegative(volume: real, feeRate: real, pct: real, quantity: real)
    requires volume >= 0.0 && feeRate >= 0.0 && pct >= 0.0 && quantity > 0.0
    ensures FeeSpread(volume, feeRate, pct, quantity) >= 0.0
  {
    var feeOpen := volume * feeRate;
    assert feeOpen >= 0.0;
    assert feeOpen * pct >= 0.0;
  }

  lemma ProductNonNegative(x: real, y: real, z: real)
    requires x >= 0.0 && y >= 0.0 && z >= 0.0
    ensures x * y * z >= 0.0 && y * z >= 0.0
  {
    assert x * y >= 0.0;
  }

  /** Under sane settings and a positive entry, the stop distance is at least the ATR distance
      and at least `MIN_ATR_PERCENT` of the entry, and neither distance is negative. */
  lemma DistancesNonNegative(s: OrderSettings, o: Opportunity, feeRate: real)
    requires SaneSettings(s, feeRate) && o.entry > 0.0 && Atr(o) >= 0.0
    ensures StopDistance(s, o) >= 0.0 && TargetDistance(s, o) >= 0.0
    ensures UsesAtr(s, o) ==>
      StopDistance(s, o) >= Atr(o) * o.entry * s.stoplossAtrMultiplier && StopDistance(s, o) >= o.entry * s.minAtrPercent
  {
    ProductNonNegative(Atr(o), o.entry, s.takeprofitAtrMultiplier);
    ProductNonNegative(1.0, o.entry, s.minAtrPercent);
    ProductNonNegative(1.0, o.entry, s.maxPercentLoss);
    ProductNonNegative(1.0, o.entry, s.maxPercentProfit);
  }

  /** A long is bracketed as stop <= entry <= target and a short as target <= entry <= stop, in
      both branches; in the ATR branch the stop lies at least the ATR distance and at least
      `MIN_ATR_PERCENT` of the entry away from it. */
  lemma BracketOrdered(s: OrderSettings, o: Opportunity, quantity: real, feeRate: real)
    requires SaneSettings(s, feeRate) && quantity > 0.0 && o.entry > 0.0
    requires Atr(o) >= 0.0
    ensures var b := BracketFor(s, o, quantity, feeRate);
      if o.side == Long then b.stop <= o.entry <= b.target else b.target <= o.entry <= b.stop
    ensures UsesAtr(s, o) ==>
      var gap := if o.side == Long then o.entry - BracketFor(s, o, quantity, feeRate).stop
                 else BracketFor(s, o, quantity, feeRate).stop - o.entry;
      gap >= Atr(o) * o.entry * s.stoplossAtrMultiplier && gap >= o.entry * s.minAtrPercent
  {
    FeeSpreadNonNegative(s.fixedOrderVolume, feeRate, s.maxPercentLoss, quantity);
    FeeSpreadNonNegative(s.fixedOrderVolume, feeRate, s.maxPercentProfit, quantity);
    DistancesNonNegative(s, o, feeRate);
  }

  /** One opportunity turned into the order `openOrder` is handed, or nothing when skipped. */
  function Plan(s: OrderSettings, a: Account, o: Opportunity): Option<OrderRequest> {
    match Quantity(s.fixedOrderVolume, o.entry)
    case None => None
    case Some(q) =>
      var b := BracketFor(s, o, q, FeeRate(a.fee));
      Some(OrderRequest(o.market.symbol, o.side, o.certainty, o.entry, b.stop, b.target, s.fixedOrderVolume))
  }

  /** The calls of the loop over the qualifying opportunities. */
  function PlanCalls(s: OrderSettings, a: Account, opps: seq<Opportunity>, recent: string -> seq<RecentOrder>): seq<Call> {
    if opps == [] then []
    else
      var init := PlanCalls(s, a, opps[..|opps| - 1], recent);
      match Plan(s, a, opps[|opps| - 1])
      case None => init
      case Some(req) => init + OpenOrderCalls(req, recent(req.symbol))
  }

  /** The opportunities of a dataset that reach the threshold. */
  function Opportunities(dataset: seq<DataPoint>, threshold: real): seq<Opportunity> {
    Qualifying(seq(|dataset|, i requires 0 <= i < |dataset| => Evaluate(dataset[i])), threshold)
  }

  /** Everything one `analyze()` round asks of the exchange. */
  function AnalyzeCalls(s: Settings, threshold: real, a: Account, positionSymbols: seq<string>, openOrderSymbols: seq<string>,
                        markets: seq<Market>, fetch: Market -> Option<Sample>,
                        recent: string -> seq<RecentOrder>): seq<Call> {
    if TooManyOpen(s, positionSymbols, openOrderSymbols) || MarginShort(s, a) then []
    else
      var dataset := Collect(TradableMarkets(markets, positionSymbols, s.authorizedMarket), fetch);
      PlanCalls(s.order, a, Opportunities(dataset, threshold), recent)
  }

  /** `analyze()`: the two gates, the dataset, the threshold filter (against `CERTAINTY`; the
      adjusted threshold is computed afterwards and never read), then one `openOrder` per
      opportunity with a valid quantity. */
  method Analyze(s: Settings, a: Account, positionSymbols: seq<string>, openOrderSymbols: seq<string>,
                 markets: seq<Market>, fetch: Market -> Option<Sample>, recent: string -> seq<RecentOrder>)
    returns (calls: seq<Call>)
    ensures calls == AnalyzeCalls(s, s.certainty, a, positionSymbols, openOrderSymbols, markets, fetch, recent)
  {
    calls := [];
    var openMarkers := Dedup(positionSymbols + openOrderSymbols);
    if |openMarkers| as real >= s.maxOrderOpen {
      return;
    }
    if MarginShort(s, a) {
      return;
    }
    var dataset := GetDataset(markets, positionSymbols, s.authorizedMarket, fetch);
    var certaintyThreshold := s.certainty;
    var opportunities := Opportunities(dataset, certaintyThreshold);
    if s.adaptiveCertaintyEnabled {
      certaintyThreshold := AdjustedThreshold(certaintyThreshold, s.certaintyAdjustStep);
    }
    calls := OpenOrders(s.order, a, opportunities, recent);
  }

  /** The loop of `analyze()` over the qualifying opportunities: size each, place its stop and
      target, and hand it to `openOrder`. */
  method OpenOrders(os: OrderSettings, a: Account, opportunities: seq<Opportunity>, recent: string -> seq<RecentOrder>)
    returns (calls: seq<Call>)
    ensures calls == PlanCalls(os, a, opportunities, recent)
  {
    calls := [];
    var i := 0;
    while i < |opportunities|
      invariant 0 <= i <= |opportunities|
      invariant calls == PlanCalls(os, a, opportunities[..i], recent)
    {
      var opp := opportunities[i];
      assert opportunities[..i + 1][..i] == opportunities[..i];
      var quantity := Quantity(os.fixedOrderVolume, opp.entry);
      if quantity.Some? {
        var bracket := BracketFor(os, opp, quantity.value, FeeRate(a.fee));
        var req := OrderRequest(opp.market.symbol, opp.side, opp.certainty, opp.entry,
                                bracket.stop, bracket.target, os.fixedOrderVolume);
        calls := calls + OpenOrderCalls(req, recent(req.symbol));
      }
      i := i + 1;
    }
    assert opportunities[..i] == opportunities;
  }

  /** Nothing is called when the open markets reach `MAX_ORDER_OPEN` or the margin is short. */
  lemma AnalyzeGated(s: Settings, threshold: real, a: Account, positionSymbols: seq<string>, openOrderSymbols: seq<string>,
                     markets: seq<Market>, fetch: Market -> Option<Sample>, recent: string -> seq<RecentOrder>)
    ensures |set x | x in positionSymbols + openOrderSymbols| as real >= s.maxOrderOpen ==>
      AnalyzeCalls(s, threshold, a, positionSymbols, openOrderSymbols, markets, fetch, recent) == []
    ensures MarginShort(s, a) ==> AnalyzeCalls(s, threshold, a, positionSymbols, openOrderSymbols, markets, fetch, recent) == []
  {
    DedupCount(positionSymbols + openOrderSymbols);
  }

  /** What every order placed by a round satisfies. */
  predicate Acceptable(s: Settings, threshold: real, a: Account, positionSymbols: seq<string>, req: OrderRequest) {
    req.certainty as real >= threshold
    && req.symbol !in positionSymbols
    && (|s.authorizedMarket| == 0 || req.symbol in s.authorizedMarket)
    && req.volume == s.order.fixedOrderVolume
    && (SaneSettings(s.order, FeeRate(a.fee)) ==>
          if req.side == Long then req.stop <= req.entry <= req.target else req.target <= req.entry <= req.stop)
  }

  /** Every order in `calls` is acceptable. */
  predicate AllAcceptable(s: Settings, threshold: real, a: Account, positionSymbols: seq<string>, calls: seq<Call>) {
    forall k :: 0 <= k < |calls| && calls[k].OpenOrder? ==> Acceptable(s, threshold, a, positionSymbols, calls[k].request)
  }

  /** Every cancellation in `calls` is immediately followed by an order on the same market. */
  predicate CancelThenOrder(calls: seq<Call>) {
    forall k :: 0 <= k < |calls| && calls[k].CancelOpenOrders? ==>
      k + 1 < |calls| && calls[k + 1].OpenOrder? && calls[k + 1].request.symbol == calls[k].symbol
  }

  lemma AppendCalls(s: Settings, threshold: real, a: Account, positionSymbols: seq<string>, c0: seq<Call>, req: OrderRequest,
                    recent: seq<RecentOrder>)
    requires AllAcceptable(s, threshold, a, positionSymbols, c0) && CancelThenOrder(c0)
    requires Acceptable(s, threshold, a, positionSymbols, req)
    ensures AllAcceptable(s, threshold, a, positionSymbols, c0 + OpenOrderCalls(req, recent))
    ensures CancelThenOrder(c0 + OpenOrderCalls(req, recent))
  {
    var calls := c0 + OpenOrderCalls(req, recent);
    forall k | 0 <= k < |calls| && calls[k].CancelOpenOrders?
      ensures k + 1 < |calls| && calls[k + 1].OpenOrder? && calls[k + 1].request.symbol == calls[k].symbol
    {
      if k < |c0| {
        assert c0[k] == calls[k];
      }
    }
  }

  /** Every order a round places reaches the certainty threshold, is on a market without a
      position and on the allow-list (if any), carries the fixed volume and is bracketed around
      its entry; every cancellation is immediately followed by an order on the same market. */
  lemma AnalyzeOrdersSpec(s: Settings, threshold: real, a: Account, positionSymbols: seq<string>, openOrderSymbols: seq<string>,
                          markets: seq<Market>, fetch: Market -> Option<Sample>, recent: string -> seq<RecentOrder>)
    ensures AllAcceptable(s, threshold, a, positionSymbols, AnalyzeCalls(s, threshold, a, positionSymbols, openOrderSymbols, markets, fetch, recent))
    ensures CancelThenOrder(AnalyzeCalls(s, threshold, a, positionSymbols, openOrderSymbols, markets, fetch, recent))
  {
    if !(TooManyOpen(s, positionSymbols, openOrderSymbols) || MarginShort(s, a)) {
      var tradable := TradableMarkets(markets, positionSymbols, s.authorizedMarket);
      var dataset := Collect(tradable, fetch);
      TradableMarketsSpec(markets, positionSymbols, s.authorizedMarket);
      CollectSpec(tradable, fetch);
      var evaluated := seq(|dataset|, i requires 0 <= i < |dataset| => Evaluate(dataset[i]));
      var opps := Opportunities(dataset, threshold);
      assert opps == Qualifying(evaluated, threshold);
      forall o | o in opps
        ensures o.certainty as real >= threshold && IsTradable(o.market, positionSymbols, s.authorizedMarket)
        ensures o.m15.None?
      {
        assert o in evaluated;
        var i :| 0 <= i < |dataset| && evaluated[i] == o;
        assert dataset[i].market in tradable;
      }
      PlanCallsSpec(s, threshold, a, positionSymbols, opps, recent);
    }
  }

  /** The loop over opportunities places only orders built from those opportunities. */
  lemma {:induction false} PlanCallsSpec(s: Settings, threshold: real, a: Account, positionSymbols: seq<string>,
                                         opps: seq<Opportunity>, recent: string -> seq<RecentOrder>)
    requires forall o :: o in opps ==>
      o.certainty as real >= threshold && IsTradable(o.market, positionSymbols, s.authorizedMarket) && o.m15.None?
    ensures AllAcceptable(s, threshold, a, positionSymbols, PlanCalls(s.order, a, opps, recent))
    ensures CancelThenOrder(PlanCalls(s.order, a, opps, recent))
  {
    if opps != [] {
      var init := opps[..|opps| - 1];
      var o := opps[|opps| - 1];
      assert forall p :: p in init ==> p in opps;
      PlanCallsSpec(s, threshold, a, positionSymbols, init, recent);
      var c0 := PlanCalls(s.order, a, init, recent);
      match Quantity(s.order.fixedOrderVolume, o.entry) {
        case None =>
          assert PlanCalls(s.order, a, opps, recent) == c0;
        case Some(q) =>
          var req := Plan(s.order, a, o).value;
          if SaneSettings(s.order, FeeRate(a.fee)) {
            assert o.entry > 0.0;
            BracketOrdered(s.order, o, q, FeeRate(a.fee));
          }
          assert Acceptable(s, threshold, a, positionSymbols, req);
          assert PlanCalls(s.order, a, opps, recent) == c0 + OpenOrderCalls(req, recent(req.symbol));
          AppendCalls(s, threshold, a, positionSymbols, c0, req, recent(req.symbol));
      }
    }
  }

  /* ---------------------------------------------------------------- the ATR bracket */

  /** As written, the opportunity never carries the 15-minute indicators, so the ATR branch is
      never taken: with stop-losses enabled and any non-zero ATR in the data, the stop is still
      placed at the fixed percentage. */
  lemma AtrBranchUnreachable(s: OrderSettings, d: DataPoint)
    ensures !UsesAtr(s, Evaluate(d))
    ensures StopDistance(s, Evaluate(d)) == Evaluate(d).entry * s.maxPercentLoss
    ensures TargetDistance(s, Evaluate(d)) == Evaluate(d).entry * s.maxPercentProfit
  {
  }

  /** The opportunity with the 15-minute indicators it was scored from, which is what the ATR
      branch of `analyze` reads. */
  function EvaluateWithAtr(d: DataPoint): (o: Opportunity)
    ensures o.m15 == Some(d.sample.m15)
    ensures o.side == Evaluate(d).side && o.certainty == Evaluate(d).certainty && o.entry == Evaluate(d).entry
  {
    Evaluate(d).(m15 := Some(d.sample.m15))
  }

  /** With the indicators carried along, enabling stop-losses and a non-zero ATR select the ATR
      bracket: the stop distance is the larger of the scaled ATR and `MIN_ATR_PERCENT` of the
      entry, and the target distance is the ATR scaled by its own multiplier. */
  lemma AtrBranchReached(s: OrderSettings, d: DataPoint)
    requires s.enableStoploss && d.sample.m15.atr.Some? && d.sample.m15.atr.value != 0.0
    ensures UsesAtr(s, EvaluateWithAtr(d))
    ensures var o := EvaluateWithAtr(d); var atr := d.sample.m15.atr.value;
      StopDistance(s, o) == Max(atr * o.entry * s.stoplossAtrMultiplier, o.entry * s.minAtrPercent)
      && TargetDistance(s, o) == atr * o.entry * s.takeprofitAtrMultiplier
  {
  }

  /* ---------------------------------------------------------------- the adaptive threshold */

  /** As written, the adjusted threshold is stored in a local variable and dropped, so the
      adaptive flag changes nothing: a round makes the same calls with it on or off, and every
      round filters against `CERTAINTY` itself. */
  lemma AdaptiveFlagIgnored(s: Settings, a: Account, positionSymbols: seq<string>, openOrderSymbols: seq<string>,
                            markets: seq<Market>, fetch: Market -> Option<Sample>, recent: string -> seq<RecentOrder>)
    ensures AnalyzeCalls(s.(adaptiveCertaintyEnabled := true), s.certainty, a, positionSymbols, openOrderSymbols, markets, fetch, recent)
         == AnalyzeCalls(s.(adaptiveCertaintyEnabled := false), s.certainty, a, positionSymbols, openOrderSymbols, markets, fetch, recent)
  {
    var on, off := s.(adaptiveCertaintyEnabled := true), s.(adaptiveCertaintyEnabled := false);
    assert on.order == off.order && on.authorizedMarket == off.authorizedMarket;
    assert on.maxOrderOpen == off.maxOrderOpen && on.feeBuffer == off.feeBuffer;
    assert TooManyOpen(on, positionSymbols, openOrderSymbols) == TooManyOpen(off, positionSymbols, openOrderSymbols);
    assert MarginShort(on, a) == MarginShort(off, a);
  }

  /** The threshold of round `k` (counting from 0), starting from `CERTAINTY`, when each round
      keeps the threshold it adjusts. */
  function ThresholdAt(s: Settings, k: nat): real {
    if s.adaptiveCertaintyEnabled then Lowered(s.certainty, s.certaintyAdjustStep, k) else s.certainty
  }

  /** `start` after `k` rounds of `AdjustedThreshold`. */
  function Lowered(start: real, step: real, k: nat): real {
    if k == 0 then start else AdjustedThreshold(Lowered(start, step, k - 1), step)
  }

  /** With the adjustment kept and a positive step, round `k` filters against
      `max(50, CERTAINTY - k * step)` when `CERTAINTY` starts at 50 or more: the threshold
      falls by one step a round and never drops below 50. */
  lemma ThresholdAtSpec(s: Settings, k: nat)
    requires s.adaptiveCertaintyEnabled && s.certaintyAdjustStep > 0.0 && s.certainty >= 50.0
    ensures ThresholdAt(s, k) == Max(50.0, s.certainty - (k as real) * s.certaintyAdjustStep)
  {
    LoweredSpec(s.certainty, s.certaintyAdjustStep, k);
  }

  lemma {:induction false} LoweredSpec(start: real, step: real, k: nat)
    requires step > 0.0 && start >= 50.0
    ensures Lowered(start, step, k) == Max(50.0, start - (k as real) * step)
  {
    if k > 0 {
      LoweredSpec(start, step, k - 1);
      StepDown(start, step, k);
    }
  }

  /** One more round lowers the clamped threshold by one more step. */
  lemma StepDown(c: real, d: real, k: nat)
    requires d > 0.0 && k > 0
    ensures AdjustedThreshold(Max(50.0, c - ((k - 1) as real) * d), d) == Max(50.0, c - (k as real) * d)
  {
    OneMoreStep(k, d);
    AdjustMax(c - ((k - 1) as real) * d, d);
  }

  lemma OneMoreStep(k: nat, d: real)
    requires k > 0
    ensures (k as real) * d == ((k - 1) as real) * d + d
  {
  }

  /** Lowering a threshold already clamped at 50 by a positive step is clamping the lowered one. */
  lemma AdjustMax(x: real, d: real)
    requires d > 0.0
    ensures AdjustedThreshold(Max(50.0, x), d) == Max(50.0, x - d)
  {
  }

  /** Every order placed in round `k` reaches that round's threshold, and so at least 50. */
  lemma AdaptiveRoundOrders(s: Settings, k: nat, a: Account, positionSymbols: seq<string>, openOrderSymbols: seq<string>,
                            markets: seq<Market>, fetch: Market -> Option<Sample>, recent: string -> seq<RecentOrder>)
    requires s.adaptiveCertaintyEnabled && s.certaintyAdjustStep > 0.0 && s.certainty >= 50.0
    ensures var calls := AnalyzeCalls(s, ThresholdAt(s, k), a, positionSymbols, openOrderSymbols, markets, fetch, recent);
      forall i :: 0 <= i < |calls| && calls[i].OpenOrder? ==> calls[i].request.certainty >= 50
  {
    ThresholdAtSpec(s, k);
    AnalyzeOrdersSpec(s, ThresholdAt(s, k), a, positionSymbols, openOrderSymbols, markets, fetch, recent);
  }
}
