# Grid and decision core of a Backpack futures trading bot, in Dafny

This project models three parts of a trading bot for the Backpack exchange's perpetual futures.

- **The grid bot** (`src/Grid/Grid.js`, module `GridTrading`).
  - It builds a ladder of `NUMBER_OF_GRIDS` limit orders between `LOWER_PRICE` and `UPPER_PRICE`. Levels below the mark price are bids; the others are asks.
  - On every fill or cancel order update, and on every position update, it re-places any level whose client id has no open order.
  - On every mark-price update of its market it checks the force-close test. If the position's mark price is at or above `UPPER_FORCE_CLOSE`, at or below `LOWER_FORCE_CLOSE`, or its PnL is at least `GRID_PNL`, it closes the position and starts over.
  - A 30-second tick reconnects whichever WebSocket is not OPEN.
  - `Grid` is a class whose fields are the ladder, the two sockets and the counters of sockets, timers and frames. Its methods update them in place.
  - The exchange is a second class, `Exchange`. It holds the set of client ids with open orders and a log of the calls made. Fault sets and flags say which calls throw.
  - Each looping method is proved against a recursive specification function:
    - `Placement` for `placeGridOrders`;
    - `Reconcile` for `handleOrderFill`.
- **The decision strategy** (`src/Decision/Decision.js`, module `Decision`).
  - The constructor's second layer of defaults.
  - The market filter and the dataset loop.
  - The nine-criterion long/short score, rounded to a percentage.
  - The entry price ten ticks inside the mark price.
  - The two gates of `analyze`: too many open markets, or not enough margin.
  - The certainty filter.
  - The quantity check, and the fee-widened stop and target: ATR-based or fixed-percentage.
  - `openOrder`'s cancel-then-order rule.
  - `analyze` is a method returning the calls it makes. Its loops are methods proved against the functions `Collect` and `PlanCalls`.
- **The configuration loader** (`src/configLoader.js`, module `ConfigLoader`).
  - `parseBoolean`, `parseNumber` and `loadConfig` over an environment given as a map.
  - The JavaScript builtins they rely on are modelled in their own modules:
    - `JsString`: `trim`, `split`/`join` on one character, and ASCII case mapping;
    - `JsNumber`: `Number(string)` for decimal literals.

Real numbers stand for JavaScript numbers.

- A NaN force-close bound (an unset variable) is `None`, and every comparison against it fails.
- A quotient that JavaScript would make non-finite is also `None`. Examples are a quantity with zero grids or a zero price.
- Mark prices, account snapshots, positions, fetched market data, recent orders, the request signer and the clock are parameters. In the grid bot, a mark price or account snapshot whose read throws is `None`.

## Model

| member | source | states |
|---|---|---|
| JsString.TrimStart | src/configLoader.js:19 | the result is a suffix of the input; everything dropped is white space and the result does not start with white space |
| JsString.TrimEnd | src/configLoader.js:19 | the result is a prefix of the input; everything dropped is white space and the result does not end with white space |
| JsString.Trim | src/configLoader.js:30 | the trim is no longer than the input, neither starts nor ends with white space, and is empty exactly when the input is all white space |
| JsString.TrimInfix | src/configLoader.js:30 | the trim is a contiguous piece of the input, starting where the leading white space ends |
| JsString.TrimIdempotent | src/configLoader.js:30 | trimming twice gives the same as trimming once |
| JsString.Split | src/configLoader.js:30 | splitting on a character gives one more piece than there are separators, and no piece contains the separator |
| JsString.JoinSplit | src/configLoader.js:30 | joining the pieces of a split with the separator gives back the original string |
| JsString.SplitJoin | src/configLoader.js:30 | splitting the join of separator-free pieces gives back the pieces |
| JsString.ToUpperCaseAt | src/configLoader.js:19 | upper-casing maps each character independently, and no lower-case ASCII letter survives it |
| JsString.ToLowerCaseAt | src/configLoader.js:9 | lower-casing maps each character independently |
| JsNumber.IndexOf | src/configLoader.js:13 | the first occurrence of the decimal point, or the length when there is none |
| JsNumber.UnsignedDecimal | src/configLoader.js:13 | a literal made of digits and at most one point that converts to a number converts to a non-negative one |
| JsNumber.UnsignedDecimalPoint | src/configLoader.js:13 | a literal `whole.fraction` of digits, not both empty, converts to the whole part plus the fraction divided by ten to the number of its digits |
| JsNumber.ShowNatValue | src/configLoader.js:13 | the digits of a rendered natural number read back as that number |
| JsNumber.StringToNumberShowNat | src/configLoader.js:13 | converting the decimal rendering of a natural number gives that number |
| JsNumber.BlankIsZero | src/configLoader.js:13 | a blank or all-white-space string converts to 0, not NaN |
| JsNumber.LetterIsNaN | src/configLoader.js:13 | a string starting with a lower-case ASCII letter converts to NaN |
| ConfigLoader.ParseBoolean | src/configLoader.js:6-10 | `parseBoolean` over a JavaScript value; what it returns for each kind of value is stated by `ParseBooleanSpec` |
| ConfigLoader.ParseBooleanSpec | src/configLoader.js:6-10 | booleans pass through; a string is true exactly when it spells "true" in any mix of cases with nothing around it; every other value is false |
| ConfigLoader.ParseNumber | src/configLoader.js:12-15 | `parseNumber`: the fallback when `Number` gives NaN, the converted value otherwise; its cases are stated by `ParseNumberSpec` and `ParseNumberShowNat` |
| ConfigLoader.ParseNumberSpec | src/configLoader.js:12-15 | a missing variable and text starting with a lower-case ASCII letter give the fallback; a blank string gives 0, not the fallback |
| ConfigLoader.ParseNumberShowNat | src/configLoader.js:12-15 | a variable holding the decimal rendering of n reads as n, whatever the fallback |
| ConfigLoader.LoadConfig | src/configLoader.js:17-38 | `loadConfig` over an environment map; its defaults and string normalisations are stated by `LoadConfigDefaults`, `UniqueTrendSpec` and `AuthorizedMarketSpec` |
| ConfigLoader.LoadConfigDefaults | src/configLoader.js:17-38 | with none of its variables set every key takes its default (75, 2, 150, 3, 0.001, 0.005, 0.02, 0.005, 0.7, 3.0, 0.004, all flags false, the empty list and the empty trend) |
| ConfigLoader.UniqueTrendSpec | src/configLoader.js:19 | `UNIQUE_TREND` is empty when unset; otherwise it is the value upper-cased and trimmed, holding no lower-case ASCII letter and no surrounding white space |
| ConfigLoader.UpperTrimmedHasNoLower | src/configLoader.js:19 | upper-casing and then trimming leaves no lower-case ASCII letter |
| ConfigLoader.TrimHasNoLower | src/configLoader.js:19 | trimming introduces no lower-case letter |
| ConfigLoader.AuthorizedMarketSpec | src/configLoader.js:30 | `AUTHORIZED_MARKET` is empty when unset or empty; otherwise it has one entry per comma plus one, entry i is the i-th piece trimmed, and no entry holds a comma or surrounding white space |
| ConfigLoader.TrimKeepsOut | src/configLoader.js:30 | a character absent from a piece is absent from its trim |
| ConfigLoader.AuthorizedMarketRoundTrip | src/configLoader.js:30 | a list of clean market names written comma-separated into the variable reads back as the same list |
| Decision.FromConfig | src/Decision/Decision.js:16-43 | the constructor's settings built from the loaded configuration; stated by `FromConfigSpec` |
| Decision.FromConfigSpec | src/Decision/Decision.js:16-43 | no numeric setting is ever 0: each configured 0 falls back to the constructor's own default (certainty 70, adjust step 5, order volume 1000, 5 open markets, fee buffer 0.0001, loss 0.0035, profit 0.016, ATR 0.005, stop multiplier 0.7, target multiplier 3.0, trailing gap 0.004) and any other value is kept; the trend filter, the allow-list and the boolean flags pass through unchanged |
| Decision.CertaintyDefaults | src/Decision/Decision.js:19 | end to end, an unset `CERTAINTY` gives 75 (the loader's default) while `CERTAINTY=0` gives 70 (the constructor's default) |
| Decision.TradableMarketsSpec | src/Decision/Decision.js:47-51 | the filter keeps exactly the markets without a position that are on the allow-list (or every market when the list is empty), in their original order |
| Decision.CollectSpec | src/Decision/Decision.js:57-86 | every dataset entry is a fetched market with the sample its fetch returned, every market whose fetch succeeded has its entry, and the order of markets is kept |
| Decision.GetDataset | src/Decision/Decision.js:45-94 | the loop builds exactly the dataset of the filtered markets, a failing fetch skipping only its own market |
| Decision.RawScore | src/Decision/Decision.js:100-115 | the nine criteria give a score of at most 9 per side |
| Decision.ScoreSum | src/Decision/Decision.js:104-115 | the long and short raw scores add up to between 3 and 10 |
| Decision.Percent | src/Decision/Decision.js:117 | the percentage is within half a point of score/9 times 100, so it is the rounded value, and at most 100 |
| Decision.PercentStrictlyIncreasing | src/Decision/Decision.js:117 | a higher score always gives a strictly higher percentage |
| Decision.ScoreSide | src/Decision/Decision.js:100-118 | a side's score is a percentage of at most 100 |
| Decision.Evaluate | src/Decision/Decision.js:96-135 | `evaluateTradeOpportunity`: side, certainty and entry from the two side scores; stated by `EvaluateSpec` |
| Decision.EvaluateSpec | src/Decision/Decision.js:120-134 | long wins only on a strictly higher raw score (a tie goes short); certainty is the larger percentage and lies between 22 and 100; the entry is ten ticks below the mark for a long and ten above for a short |
| Decision.OpenOrderCalls | src/Decision/Decision.js:137-158 | the calls `openOrder` makes for a request given the market's recent orders; stated by `OpenOrderSpec` |
| Decision.OpenOrderSpec | src/Decision/Decision.js:137-158 | a first recent order older than three minutes is cancelled and the order placed; with no recent order the order is placed; otherwise nothing is called (each case in both directions) |
| Decision.Dedup | src/Decision/Decision.js:168-171 | the deduplicated list holds the same symbols as its input, each once |
| Decision.DedupCount | src/Decision/Decision.js:168-171 | its length is the number of distinct symbols |
| Decision.Qualifying | src/Decision/Decision.js:200-202 | an opportunity is kept exactly when its certainty reaches the threshold, and the kept ones stay in their original order |
| Decision.AdjustedThreshold | src/Decision/Decision.js:208 | the adjusted threshold is the lowered one or 50, whichever is larger |
| Decision.Quantity | src/Decision/Decision.js:214-219 | an opportunity is skipped exactly when the entry is 0 or the quotient is not positive; otherwise the quantity is positive and times the entry gives the volume |
| Decision.DistancesNonNegative | src/Decision/Decision.js:230-253 | under sane settings the stop and target distances are non-negative, and in the ATR branch the stop distance is at least the scaled ATR and at least `MIN_ATR_PERCENT` of the entry |
| Decision.FeeSpreadNonNegative | src/Decision/Decision.js:221-224 | with non-negative fee, volume and percentage, the fee spread per unit is non-negative |
| Decision.BracketOrdered | src/Decision/Decision.js:221-253 | a long is bracketed as stop <= entry <= target and a short as target <= entry <= stop, in both branches; in the ATR branch the stop is at least the ATR and minimum-percent distances away |
| Decision.AnalyzeCalls | src/Decision/Decision.js:160-290 | the calls one `analyze` round makes at a given threshold; stated by `AnalyzeGated` and `AnalyzeOrdersSpec`, and `Analyze` is proved to make them |
| Decision.PlanCalls | src/Decision/Decision.js:212-286 | the calls of the loop over the qualifying opportunities; stated by `PlanCallsSpec`, and `OpenOrders` is proved to make them |
| Decision.Analyze | src/Decision/Decision.js:160-290 | the round makes exactly the calls of the gates, the dataset, the filter against `CERTAINTY` and one `openOrder` per opportunity with a valid quantity |
| Decision.OpenOrders | src/Decision/Decision.js:212-286 | the loop makes exactly the calls of `PlanCalls`: opportunities are sized, bracketed and handed to `openOrder` in order |
| Decision.AnalyzeGated | src/Decision/Decision.js:168-191 | nothing is called when the distinct open markets reach `MAX_ORDER_OPEN` or the required margin reaches the available capital |
| Decision.AnalyzeOrdersSpec | src/Decision/Decision.js:193-286 | every order a round places reaches the threshold, is on a market without a position and on the allow-list (if any), carries the fixed volume and is bracketed around its entry; every cancellation is immediately followed by an order on the same market |
| Decision.PlanCallsSpec | src/Decision/Decision.js:212-286 | the loop places only acceptable orders and pairs every cancellation with an order |
| Decision.AtrBranchUnreachable | src/Decision/Decision.js:129-134 | as written, the ATR branch is never taken, so stop and target always come from the fixed percentages |
| Decision.EvaluateWithAtr | src/Decision/Decision.js:96-135 | the corrected opportunity carries the 15-minute indicators and agrees with the original on side, certainty and entry |
| Decision.AtrBranchReached | src/Decision/Decision.js:230-245 | with the indicators carried along, stop-losses enabled and a non-zero ATR select the ATR bracket |
| Decision.AdaptiveFlagIgnored | src/Decision/Decision.js:196-210 | as written, a round makes the same calls with the adaptive flag on or off |
| Decision.ThresholdAtSpec | src/Decision/Decision.js:206-210 | with the adjustment kept and a positive step, round k filters against max(50, CERTAINTY - k * step) |
| Decision.LoweredSpec | src/Decision/Decision.js:208 | k adjustment steps from a start of at least 50 reach max(50, start - k * step) |
| Decision.AdjustMax | src/Decision/Decision.js:208 | lowering a threshold already clamped at 50 is clamping the lowered threshold |
| Decision.AdaptiveRoundOrders | src/Decision/Decision.js:196-210 | with the adjustment kept, every order placed in any round has certainty at least 50 |
| GridTrading.SideFor | src/Grid/Grid.js:35 | a level is a bid exactly when its price is below the reference price |
| GridTrading.GridSymbol | src/Grid/Grid.js:18 | the market is `GRID_MARKET` when set and non-empty, and `SOL_USDC_PERP` otherwise |
| GridTrading.GridStep | src/Grid/Grid.js:25 | the step times the number of grids spans the band |
| GridTrading.Ladder | src/Grid/Grid.js:31-38 | the ladder `generateGridOrders` builds; stated by `LadderSpec`, `LadderIds` and `LadderPrices` |
| GridTrading.LadderSpec | src/Grid/Grid.js:31-38 | the ladder has `numGrids` rungs (none when that is not positive); rung i has client id i, price lower + i * step, and is a bid exactly when below the reference |
| GridTrading.LadderIds | src/Grid/Grid.js:33-36 | the client ids are exactly 0 to numGrids - 1, all distinct |
| GridTrading.LadderPrices | src/Grid/Grid.js:25-36 | for a band lower < upper the prices strictly increase and stay within [lower, upper) |
| GridTrading.LadderIncreasing | src/Grid/Grid.js:34 | a positive step gives strictly increasing prices |
| GridTrading.LadderWithin | src/Grid/Grid.js:34 | with a positive step every rung lies in [lower, lower + numGrids * step) |
| GridTrading.LadderBidsBelowAsks | src/Grid/Grid.js:31-38 | all bids come before all asks on the ladder |
| GridTrading.LadderExample | src/Grid/Grid.js:31-38 | five grids over [100, 110] around 105 give 100, 102, 104 bids and 106, 108 asks |
| GridTrading.Quantity | src/Grid/Grid.js:53 | a quantity exists exactly when there are grids and the price is non-zero, and quantity times price times grids is the capital |
| GridTrading.Exchange.constructor | src/Grid/Grid.js:40-67 | the exchange starts with the given open ids, fault sets and flags, and an empty log |
| GridTrading.Exchange.GetOpenOrder | src/Grid/Grid.js:101 | the query reports whether the id has an open order, or fails for the ids set to throw |
| GridTrading.Exchange.CreateLimitOrderGrid | src/Grid/Grid.js:54-61 | the placement is logged and, unless it throws, its id has an open order afterwards |
| GridTrading.Exchange.CancelAll | src/Grid/Grid.js:40-47 | the cancel is logged and, unless it throws, no order stays open; a throw is swallowed |
| GridTrading.Exchange.Close | src/Grid/Grid.js:136 | the close is logged and reports whether it went through; open orders are untouched |
| GridTrading.Placement | src/Grid/Grid.js:49-67 | the calls of `placeGridOrders`' loop: never more than one per level, and no open id is lost; the rest is stated by `PlacementFaultFree` and `PlacementStopsAtFailure` |
| GridTrading.PlacementFaultFree | src/Grid/Grid.js:49-67 | without failures every level is placed in order, at its price, side and id with the per-grid quantity, and every level's id ends open |
| GridTrading.FirstIn | src/Grid/Grid.js:52-63 | the index of the first failing level, or the length when none fails |
| GridTrading.PlacementStopsAtFailure | src/Grid/Grid.js:49-67 | with failures, the placements are the failure-free ones cut just after the first failing level |
| GridTrading.Missing | src/Grid/Grid.js:100-102 | the missing levels are exactly those whose id has no open order |
| GridTrading.Reconcile | src/Grid/Grid.js:94-119 | the calls of `handleOrderFill`'s loop: never more than one per level, and no open id is lost; the rest is stated by `ReconcileFaultFree` and the `ReconcileStopsAt` lemmas |
| GridTrading.ReconcileFaultFree | src/Grid/Grid.js:94-119 | without failures, on distinct ids, one order is placed per missing level, in ladder order, at its price and id on the side the fresh mark price gives, and every level ends open |
| GridTrading.MissingIgnores | src/Grid/Grid.js:100-102 | opening an id outside the ladder leaves the missing levels unchanged |
| GridTrading.HeadIdUnique | src/Grid/Grid.js:100 | on distinct ids the first level's id occurs nowhere else |
| GridTrading.ReconcileAbortsEarly | src/Grid/Grid.js:94-119 | with failures, the calls are a prefix of the failure-free calls |
| GridTrading.ReconcileStopsAtQueryFailure | src/Grid/Grid.js:100-118 | a query that throws at level j ends the walk: the outcome is that of the levels before j, whatever follows |
| GridTrading.ReconcileStopsExample | src/Grid/Grid.js:100-118 | levels 0 and 2 missing and the query for level 1 throwing: only level 0 is re-placed, where a walk without failures re-places two |
| GridTrading.ReconcileStopsAtPlaceFailure | src/Grid/Grid.js:100-118 | on distinct ids, a placement that throws at missing level j ends the walk right after it: the outcome is that of the levels up to j |
| GridTrading.ReconcileQueryFailure | src/Grid/Grid.js:100-118 | a query that throws on the first level stops everything before any call |
| GridTrading.ReconcileNothingMissing | src/Grid/Grid.js:100-115 | when every level has an open order nothing is placed |
| GridTrading.ReconcileIdempotent | src/Grid/Grid.js:94-119 | after a completed reconciliation, reconciling again at any mark price places nothing |
| GridTrading.PlacementThenReconcile | src/Grid/Grid.js:49-119 | after a complete placement on a cancelled book no level needs re-placing |
| GridTrading.FindPosition | src/Grid/Grid.js:124 | a position found is one of the positions and is on the market; the rest is stated by `FindPositionSpec` |
| GridTrading.FindPositionSpec | src/Grid/Grid.js:124 | the search fails exactly when no position is on the market, and otherwise returns the first one on it |
| GridTrading.Pnl | src/Grid/Grid.js:127-133 | the PnL is realized plus unrealized, less the notional times maker plus taker fee |
| GridTrading.ShouldClose | src/Grid/Grid.js:135 | the force-close test over possibly unset (NaN) bounds; stated by `ShouldCloseSpec` |
| GridTrading.ShouldCloseSpec | src/Grid/Grid.js:135 | with all bounds set, the position stays open exactly while the mark is strictly inside the band and the PnL strictly below the target; each bound triggers; with none set, nothing triggers |
| GridTrading.Triggered | src/Grid/Grid.js:121-135 | whether `forceClose` closes: a position on the market, a readable account and a passing test; used by the contracts of `ForceClose` and `OnPublicMessage` |
| GridTrading.PrivateReconciliations | src/Grid/Grid.js:171-186 | a private frame starts at most one reconciliation, and exactly one for a position update or an order fill or cancel |
| GridTrading.TriggersForceCloseOneMarket | src/Grid/Grid.js:213 | a public frame starts a force close for one market only |
| GridTrading.PrivateSubscription | src/Grid/Grid.js:149-168 | the private subscription names exactly the streams that start reconciliations and carries the four signature fields of a `subscribe` request signed with a 10000 ms window |
| GridTrading.PublicSubscription | src/Grid/Grid.js:201-208 | the public subscription is one unsigned stream, and frames on it start the force-close check |
| GridTrading.Reconnects | src/Grid/Grid.js:79-88 | the tick reconnects a channel exactly when its socket is missing or not OPEN |
| GridTrading.Grid.constructor | src/Grid/Grid.js:17-29 | a fresh grid holds the configured market, band, grid count, close bounds and step, an empty ladder and no sockets |
| GridTrading.Grid.GenerateGridOrders | src/Grid/Grid.js:31-38 | the ladder is replaced by the one for the given reference price |
| GridTrading.Grid.CancelAllOrders | src/Grid/Grid.js:40-47 | one cancel is logged; the book is emptied unless the cancel throws |
| GridTrading.Grid.PlaceGridOrders | src/Grid/Grid.js:49-67 | nothing is placed when the capital snapshot cannot be read; otherwise the calls made and the open ids left are those of `Placement`, so the loop stops at the first throw |
| GridTrading.Grid.ConnectPrivate | src/Grid/Grid.js:146-147 | a new connecting private socket replaces the old one |
| GridTrading.Grid.ConnectPublic | src/Grid/Grid.js:198-199 | a new connecting public socket replaces the old one |
| GridTrading.Grid.Run | src/Grid/Grid.js:69-92 | nothing changes when the mark price cannot be read; otherwise the ladder is rebuilt at the mark, the cancel is made, the placements of `RunCalls` follow (none when the capital cannot be read), two new sockets are opened and one more interval is started |
| GridTrading.Grid.ValidDistinct | src/Grid/Grid.js:31-38 | the ladder's client ids are its positions, so no two levels share one, which reconciliation relies on |
| GridTrading.Grid.HandleOrderFill | src/Grid/Grid.js:94-119 | nothing when the mark price or the capital cannot be read; otherwise the calls and open ids are those of `Reconcile` over the current ladder; with no failing call, exactly the levels without an open order are re-placed, in ladder order, and every level then has an open order |
| GridTrading.Grid.ForceClose | src/Grid/Grid.js:121-144 | nothing changes unless a position exists, the account can be read and the test passes; when it does the close comes first; a close that throws, or a `run` that cannot read the mark price, leaves everything else as it was; otherwise a full `run` follows with fresh mark price and capital: new ladder, cancel and placements, two new sockets and one more interval |
| GridTrading.Grid.Tick | src/Grid/Grid.js:79-88 | exactly the sockets that are missing or not OPEN are replaced, each by a new connecting socket |
| GridTrading.Grid.SocketOpened | src/Grid/Grid.js:149-169 | the socket becomes OPEN and its subscription goes out on it, signed for the private channel |
| GridTrading.Grid.SocketClosed | src/Grid/Grid.js:188-191 | the socket is CLOSED and a reconnection of its channel is scheduled |
| GridTrading.Grid.OnPrivateMessage | src/Grid/Grid.js:171-186 | frames that start no reconciliation, or arrive when the mark price or capital cannot be read, change nothing; others reconcile the ladder once |
| GridTrading.Grid.OnPublicMessage | src/Grid/Grid.js:210-219 | only frames on the grid's own mark-price stream can close the position; when one triggers, the close comes first and the rest is as in `ForceClose`: nothing more if the close throws or the mark price cannot be read, otherwise a full `run` with two new sockets and one more interval |

## Left out

- The WebSocket transport, its URLs, and the 3-second and 30-second timers. Opening, closing and message frames are method calls; the scheduled reconnection is recorded, not executed.
- Events arriving on a socket that has since been replaced. Every `run` creates new sockets and one more interval without closing the old ones, and the model does not follow the old sockets' later events.
- Concurrency between the asynchronous handlers. Each handler runs to completion on its own.
- `JSON.parse`: a frame is either parsed or `Malformed`.
- `toFixed`: the six-decimal ladder price, and the `decimal_price` rounding of entry, stop and target. Prices are exact reals.
- `GridTrading.LevelAt` and `Decision.Evaluate` therefore do not round.
- `parseFloat` and `parseInt` of the grid's environment variables. The band and grid count are given as numbers, and an unset force-close bound is `None`, which stands for NaN.
- A NaN band or grid count is not modelled.
- `JsNumber.StringToNumber`: exponents, the `0x`, `0b` and `0o` prefixes and `Infinity` are not modelled; such strings are NaN here.
- `JsString.ToUpperCase` and `JsString.ToLowerCase` map ASCII letters only. Other characters are kept unchanged.
- Console and `Terminal` output, the debug and performance flags (which only affect logging), and the expected-profit and expected-loss text.
- The trailing-stop settings: they are read and kept but never used.
- The request signer is a function parameter; its cryptography is not part of this model.
- Indicator computation (`calculateIndicators`) and candle fetching: a fetch gives a sample or fails.
- A failing `Cache.get`, `getOpenPositions` or `getOpenOrders` in `analyze`, and the outer `catch` of `getDataset`. The snapshots are parameters.
- `Decision.Analyze` is given one account snapshot per round.
- `openOrder`'s own failures. An exception in the cancel or the placement is swallowed in the source, and the model records the calls as made.
- The string form of `AUTHORIZED_MARKET` in the `Decision` constructor: the loader always yields a list.
- `app.js`, `gridRunner.js` and `src/index.js`, which only wire the parts together, are not part of this model.
- A failing `getOpenPositions` in `forceClose` is the same as an empty position list: nothing is closed.
- A mark-price entry without a `markPrice` field (Grid.js:72 and 97): JavaScript reads it as NaN, so every level becomes an ask and the run goes on. The model only has a read that throws (`None`); a NaN reference price is not modelled.

## Findings

| source | as written | input that shows it | evidently intended | confidence | as-written member | corrected member |
|---|---|---|---|---|---|---|
| src/Decision/Decision.js:129-134,230 | the opportunity object copies the market's fields but not the "15m" indicators, so the ATR test always fails and the ATR bracket is never used | `ENABLE_STOPLOSS=true` and any market whose 15-minute ATR is non-zero: the stop is still placed at `MAX_PERCENT_LOSS` | the opportunity carries the indicators it was scored from, so enabling stop-losses selects the ATR bracket | not executed | Decision.AtrBranchUnreachable | Decision.AtrBranchReached |
| src/Decision/Decision.js:196-210 | the adjusted threshold is written to a local variable after the filter and then dropped, so `ADAPTIVE_CERTAINTY_ENABLED` changes nothing | `ADAPTIVE_CERTAINTY_ENABLED=true`, `CERTAINTY=80`, a market scoring 78 in every round: it is never traded | each round keeps the lowered threshold, down to 50 | not executed | Decision.AdaptiveFlagIgnored | Decision.ThresholdAtSpec |
