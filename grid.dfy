/** The grid-trading bot (src/Grid/Grid.js): a ladder of limit orders between two prices, kept
    complete by re-placing any level whose order is gone, closed and rebuilt when the price
    leaves its band or the profit target is reached, and driven by two exchange WebSockets.
    The exchange is a set of client ids with open orders plus a log of the calls made to it;
    mark prices, account snapshots and incoming frames are parameters. */
module GridTrading {
  import opened Common

  /* ---------------------------------------------------------------- the ladder */

  datatype Side = Bid | Ask

  /** One rung of the ladder: a limit price, a side and a client id stable across re-placements. */
  datatype Level = Level(price: real, side: Side, clientId: int)

  /** A level strictly below the reference price buys; one at or above it sells. */
  function SideFor(price: real, reference: real): (side: Side)
    ensures side == Bid <==> price < reference
  {
    if price < reference then Bid else Ask
  }

  /** The market the grid trades: `GRID_MARKET`, or `SOL_USDC_PERP` when it is unset or empty. */
  function GridSymbol(gridMarket: Option<string>): (symbol: string)
    ensures symbol != ""
    ensures gridMarket.Some? && gridMarket.value != "" ==> symbol == gridMarket.value
    ensures gridMarket.None? || gridMarket.value == "" ==> symbol == "SOL_USDC_PERP"
  {
    if gridMarket.Some? && gridMarket.value != "" then gridMarket.value else "SOL_USDC_PERP"
  }

  /** The price range split evenly over the grids. With no grids JavaScript yields a non-finite
      step, which is never read because the ladder is then empty; the model uses 0. */
  function GridStep(lower: real, upper: real, numGrids: int): (step: real)
    ensures numGrids != 0 ==> step * (numGrids as real) == upper - lower
  {
    if numGrids == 0 then 0.0 else (upper - lower) / (numGrids as real)
  }

  /** Rung `i`: priced `i` steps above the lower price, with the side the price implies. The
      six-decimal rounding of the price is abstracted. */
  function LevelAt(lower: real, step: real, reference: real, i: nat): Level {
    var price := lower + (i as real) * step;
    Level(price, SideFor(price, reference), i)
  }

  function LevelCount(numGrids: int): nat {
    if numGrids > 0 then numGrids else 0
  }

  /** The ladder `generateGridOrders(reference)` builds. */
  function Ladder(lower: real, step: real, numGrids: int, reference: real): seq<Level> {
    seq(LevelCount(numGrids), i requires 0 <= i < LevelCount(numGrids) => LevelAt(lower, step, reference, i))
  }

  /** The ladder has `numGrids` rungs (none when that is not positive); rung `i` has client id
      `i`, price `lower + i * step`, and is a bid exactly when that price is below the reference. */
  lemma LadderSpec(lower: real, step: real, numGrids: int, reference: real)
    ensures |Ladder(lower, step, numGrids, reference)| == (if numGrids > 0 then numGrids else 0)
    ensures forall i :: 0 <= i < |Ladder(lower, step, numGrids, reference)| ==>
      var l := Ladder(lower, step, numGrids, reference)[i];
      l.clientId == i && l.price == lower + (i as real) * step && (l.side == Bid <==> l.price < reference)
  {
  }

  /** The client ids of a list of levels. */
  function Ids(levels: seq<Level>): set<int> {
    set l | l in levels :: l.clientId
  }

  /** The client ids are exactly `0 .. numGrids - 1`, one per rung. */
  lemma LadderIds(lower: real, step: real, numGrids: int, reference: real)
    ensures forall x :: x in Ids(Ladder(lower, step, numGrids, reference)) <==> 0 <= x < numGrids
    ensures forall i, j :: 0 <= i < j < |Ladder(lower, step, numGrids, reference)| ==>
      Ladder(lower, step, numGrids, reference)[i].clientId != Ladder(lower, step, numGrids, reference)[j].clientId
  {
    var L := Ladder(lower, step, numGrids, reference);
    forall x | 0 <= x < numGrids
      ensures x in Ids(L)
    {
      assert L[x] in L;
    }
  }

  /** With the step of a band `lower < upper`, prices strictly increase along the ladder and
      stay within `[lower, upper)`. */
  lemma LadderPrices(lower: real, upper: real, numGrids: int, reference: real)
    requires lower < upper && numGrids > 0
    ensures var L := Ladder(lower, GridStep(lower, upper, numGrids), numGrids, reference);
      (forall i, j :: 0 <= i < j < |L| ==> L[i].price < L[j].price)
      && (forall i :: 0 <= i < |L| ==> lower <= L[i].price < upper)
  {
    var step := GridStep(lower, upper, numGrids);
    PositiveFactor(step, numGrids as real);
    LadderIncreasing(lower, step, numGrids, reference);
    LadderWithin(lower, step, numGrids, reference);
  }

  /** A positive step makes the rung prices strictly increasing. */
  lemma LadderIncreasing(lower: real, step: real, numGrids: int, reference: real)
    requires step > 0.0
    ensures var L := Ladder(lower, step, numGrids, reference);
      forall i, j :: 0 <= i < j < |L| ==> L[i].price < L[j].price
  {
    var L := Ladder(lower, step, numGrids, reference);
    forall i, j | 0 <= i < j < |L|
      ensures L[i].price < L[j].price
    {
      ScaleLess(i as real, j as real, step);
      assert L[i].price == lower + (i as real) * step;
      assert L[j].price == lower + (j as real) * step;
    }
  }

  /** With a positive step every rung lies in `[lower, lower + numGrids * step)`. */
  lemma LadderWithin(lower: real, step: real, numGrids: int, reference: real)
    requires step > 0.0
    ensures var L := Ladder(lower, step, numGrids, reference);
      forall i :: 0 <= i < |L| ==> lower <= L[i].price < lower + step * (numGrids as real)
  {
    var L := Ladder(lower, step, numGrids, reference);
    forall i | 0 <= i < |L|
      ensures lower <= L[i].price < lower + step * (numGrids as real)
    {
      ScaleLess(0.0, (i + 1) as real, step);
      ScaleLess(i as real, numGrids as real, step);
    }
  }

  lemma ScaleLess(x: real, y: real, c: real)
    requires x < y && c > 0.0
    ensures x * c < y * c && 0.0 < (y - x) * c
  {
  }

  lemma PositiveFactor(x: real, n: real)
    requires n > 0.0 && x * n > 0.0
    ensures x > 0.0
  {
  }

  /** On an increasing ladder the bids come first: every rung below a bid is a bid. */
  lemma LadderBidsBelowAsks(lower: real, upper: real, numGrids: int, reference: real)
    requires lower < upper && numGrids > 0
    ensures var L := Ladder(lower, GridStep(lower, upper, numGrids), numGrids, reference);
      forall i, j :: 0 <= i < j < |L| && L[j].side == Bid ==> L[i].side == Bid
  {
    LadderPrices(lower, upper, numGrids, reference);
  }

  /** Five rungs over [100, 110] around 105: prices 100, 102, 104, 106, 108, three bids then two asks. */
  lemma LadderExample()
    ensures Ladder(100.0, GridStep(100.0, 110.0, 5), 5, 105.0) ==
      [Level(100.0, Bid, 0), Level(102.0, Bid, 1), Level(104.0, Bid, 2), Level(106.0, Ask, 3), Level(108.0, Ask, 4)]
  {
    assert GridStep(100.0, 110.0, 5) == 2.0;
  }

  /** The capital's share per grid, divided by the price, or nothing where JavaScript's
      quotient would not be finite (no grids, or a price of 0). */
  function Quantity(capital: real, numGrids: int, price: real): (q: Option<real>)
    ensures q.Some? <==> numGrids != 0 && price != 0.0
    ensures q.Some? ==> q.value * price * (numGrids as real) == capital
  {
    if numGrids == 0 || price == 0.0 then None
    else
      var perGrid := capital / (numGrids as real);
      assert perGrid * (numGrids as real) == capital;
      Some(perGrid / price)
  }

  /* ---------------------------------------------------------------- the exchange */

  /** The calls the grid makes on the exchange. `quantity` is absent where the source would pass
      a non-finite number. */
  datatype Call =
    | CancelOpenOrders(symbol: string)
    | PlaceLimit(symbol: string, side: Side, price: real, quantity: Option<real>, clientId: int)
    | ClosePosition(symbol: string)

  /** The exchange as the grid sees it for its own market: the client ids with an open order and
      the log of calls made. Queries for ids in `queryFails` throw, placements of ids in
      `placeFails` throw, and the cancel and close calls throw when their flags are set. */
  class Exchange {
    var openIds: set<int>
    var log: seq<Call>
    const queryFails: set<int>
    const placeFails: set<int>
    const cancelFails: bool
    const closeFails: bool

    constructor (openIds: set<int>, queryFails: set<int>, placeFails: set<int>, cancelFails: bool, closeFails: bool)
      ensures this.openIds == openIds && this.log == []
      ensures this.queryFails == queryFails && this.placeFails == placeFails
      ensures this.cancelFails == cancelFails && this.closeFails == closeFails
    {
      this.openIds := openIds;
      this.log := [];
      this.queryFails := queryFails;
      this.placeFails := placeFails;
      this.cancelFails := cancelFails;
      this.closeFails := closeFails;
    }

    /** The open-order query by client id: whether the id has an open order, or
        nothing when the query throws. */
    method GetOpenOrder(clientId: int) returns (r: Option<bool>)
      ensures r == if clientId in queryFails then None else Some(clientId in openIds)
    {
      if clientId in queryFails {
        r := None;
      } else {
        r := Some(clientId in openIds);
      }
    }

    /** Placing a grid limit order: the call is logged; unless it throws, the id
        then has an open order. */
    method CreateLimitOrderGrid(symbol: string, side: Side, price: real, quantity: Option<real>, clientId: int)
      returns (ok: bool)
      modifies this
      ensures ok == (clientId !in placeFails)
      ensures log == old(log) + [PlaceLimit(symbol, side, price, quantity, clientId)]
      ensures openIds == if ok then old(openIds) + {clientId} else old(openIds)
    {
      log := log + [PlaceLimit(symbol, side, price, quantity, clientId)];
      ok := clientId !in placeFails;
      if ok {
        openIds := openIds + {clientId};
      }
    }

    /** Cancelling the market's open orders: every one of them is cancelled unless the call
        throws. */
    method CancelAll(symbol: string)
      modifies this
      ensures log == old(log) + [CancelOpenOrders(symbol)]
      ensures openIds == if cancelFails then old(openIds) else {}
    {
      log := log + [CancelOpenOrders(symbol)];
      if !cancelFails {
        openIds := {};
      }
    }

    /** Closing the position: logged; reports whether it went through. */
    method Close(symbol: string) returns (ok: bool)
      modifies this
      ensures ok == !closeFails
      ensures log == old(log) + [ClosePosition(symbol)] && openIds == old(openIds)
    {
      log := log + [ClosePosition(symbol)];
      ok := !closeFails;
    }
  }

  /** The calls a loop issues and the open ids it leaves behind. */
  datatype Outcome = Outcome(calls: seq<Call>, open: set<int>)

  /** `placeGridOrders`: one placement per level in order, each level with its own side; the
      first placement that throws ends the loop. */
  function Placement(symbol: string, levels: seq<Level>, open: set<int>, placeFails: set<int>,
                     capital: real, numGrids: int): (r: Outcome)
    ensures |r.calls| <= |levels| && open <= r.open
  {
    if levels == [] then Outcome([], open)
    else
      var l := levels[0];
      var call := PlaceLimit(symbol, l.side, l.price, Quantity(capital, numGrids, l.price), l.clientId);
      if l.clientId in placeFails then Outcome([call], open)
      else
        var rest := Placement(symbol, levels[1..], open + {l.clientId}, placeFails, capital, numGrids);
        Outcome([call] + rest.calls, rest.open)
  }

  /** Without failures every level is placed, in order, at its own price, side and id, with the
      per-grid quantity, and every level's id ends up open. */
  lemma {:induction false} PlacementFaultFree(symbol: string, levels: seq<Level>, open: set<int>,
                                              capital: real, numGrids: int)
    ensures var r := Placement(symbol, levels, open, {}, capital, numGrids);
      |r.calls| == |levels|
      && (forall k :: 0 <= k < |levels| ==>
            r.calls[k] == PlaceLimit(symbol, levels[k].side, levels[k].price,
                                     Quantity(capital, numGrids, levels[k].price), levels[k].clientId))
      && r.open == open + Ids(levels)
  {
    if levels != [] {
      var l := levels[0];
      PlacementFaultFree(symbol, levels[1..], open + {l.clientId}, capital, numGrids);
      assert levels == [l] + levels[1..];
      assert Ids(levels) == {l.clientId} + Ids(levels[1..]);
    }
  }

  /** Index of the first level whose id is in `ids`, or the number of levels. */
  function FirstIn(levels: seq<Level>, ids: set<int>): (k: nat)
    ensures k <= |levels|
    ensures forall j :: 0 <= j < k ==> levels[j].clientId !in ids
    ensures k < |levels| ==> levels[k].clientId in ids
  {
    if levels == [] || levels[0].clientId in ids then 0 else 1 + FirstIn(levels[1..], ids)
  }

  /** With failures, the placements are those of a failure-free run cut right after the first
      failing level. */
  lemma {:induction false} PlacementStopsAtFailure(symbol: string, levels: seq<Level>, open: set<int>,
                                                   placeFails: set<int>, capital: real, numGrids: int)
    ensures var k := FirstIn(levels, placeFails);
      var n := if k < |levels| then k + 1 else k;
      var faultFree := Placement(symbol, levels, open, {}, capital, numGrids).calls;
      n <= |faultFree| && Placement(symbol, levels, open, placeFails, capital, numGrids).calls == faultFree[..n]
  {
    if levels != [] {
      var l := levels[0];
      PlacementStopsAtFailure(symbol, levels[1..], open + {l.clientId}, placeFails, capital, numGrids);
      PlacementFaultFree(symbol, levels, open, capital, numGrids);
    }
  }

  /** `handleOrderFill`: walk the ladder; a level whose id has no open order is re-placed at its
      price and id, on the side the fresh mark price gives it. A query or placement that throws
      ends the walk. */
  function Reconcile(symbol: string, levels: seq<Level>, open: set<int>, queryFails: set<int>,
                     placeFails: set<int>, mark: real, capital: real, numGrids: int): (r: Outcome)
    ensures |r.calls| <= |levels| && open <= r.open
  {
    if levels == [] then Outcome([], open)
    else
      var l := levels[0];
      if l.clientId in queryFails then Outcome([], open)
      else if l.clientId in open then Reconcile(symbol, levels[1..], open, queryFails, placeFails, mark, capital, numGrids)
      else
        var call := PlaceLimit(symbol, SideFor(l.price, mark), l.price, Quantity(capital, numGrids, l.price), l.clientId);
        if l.clientId in placeFails then Outcome([call], open)
        else
          var rest := Reconcile(symbol, levels[1..], open + {l.clientId}, queryFails, placeFails, mark, capital, numGrids);
          Outcome([call] + rest.calls, rest.open)
  }

  /** The levels whose id has no open order, in ladder order. */
  function Missing(levels: seq<Level>, open: set<int>): (r: seq<Level>)
    ensures forall l :: l in r <==> l in levels && l.clientId !in open
  {
    if levels == [] then []
    else if levels[0].clientId in open then Missing(levels[1..], open)
    else [levels[0]] + Missing(levels[1..], open)
  }

  /** The re-placement of one missing level. */
  function Replacement(symbol: string, l: Level, mark: real, capital: real, numGrids: int): Call {
    PlaceLimit(symbol, SideFor(l.price, mark), l.price, Quantity(capital, numGrids, l.price), l.clientId)
  }

  predicate DistinctIds(levels: seq<Level>) {
    forall i, j :: 0 <= i < j < |levels| ==> levels[i].clientId != levels[j].clientId
  }

  lemma {:induction false} MissingIgnores(levels: seq<Level>, open: set<int>, x: int)
    requires x !in Ids(levels)
    ensures Missing(levels, open + {x}) == Missing(levels, open)
  {
    if levels != [] {
      assert levels[0] in levels;
      assert Ids(levels[1..]) <= Ids(levels) by {
        forall l | l in levels[1..] ensures l in levels { }
      }
      MissingIgnores(levels[1..], open, x);
    }
  }

  /** Without failures, on a ladder with distinct ids, reconciliation places exactly one order
      per missing level, in ladder order, with that level's price and id and the side the mark
      price gives it, and leaves every level with an open order. */
  lemma ReconcileFaultFree(symbol: string, levels: seq<Level>, open: set<int>,
                           mark: real, capital: real, numGrids: int)
    requires DistinctIds(levels)
    ensures var r := Reconcile(symbol, levels, open, {}, {}, mark, capital, numGrids);
      var m := Missing(levels, open);
      |r.calls| == |m|
      && (forall k :: 0 <= k < |m| ==> r.calls[k] == Replacement(symbol, m[k], mark, capital, numGrids))
      && r.open == open + Ids(levels)
  {
    ReconcileFaultFreeCalls(symbol, levels, open, mark, capital, numGrids);
    ReconcileFaultFreeOpen(symbol, levels, open, mark, capital, numGrids);
  }

  /** The first level's id appears nowhere else on a ladder with distinct ids. */
  lemma HeadIdUnique(levels: seq<Level>)
    requires levels != [] && DistinctIds(levels)
    ensures levels[0].clientId !in Ids(levels[1..]) && DistinctIds(levels[1..])
  {
    var rest := levels[1..];
    forall j | 0 <= j < |rest|
      ensures rest[j].clientId != levels[0].clientId
    {
      assert rest[j] == levels[j + 1];
    }
  }

  lemma {:induction false} ReconcileFaultFreeCalls(symbol: string, levels: seq<Level>, open: set<int>,
                                                   mark: real, capital: real, numGrids: int)
    requires DistinctIds(levels)
    ensures Reconcile(symbol, levels, open, {}, {}, mark, capital, numGrids).calls
         == seq(|Missing(levels, open)|, k requires 0 <= k < |Missing(levels, open)| =>
                  Replacement(symbol, Missing(levels, open)[k], mark, capital, numGrids))
  {
    if levels != [] {
      var l := levels[0];
      var rest := levels[1..];
      HeadIdUnique(levels);
      if l.clientId in open {
        ReconcileFaultFreeCalls(symbol, rest, open, mark, capital, numGrids);
      } else {
        ReconcileFaultFreeCalls(symbol, rest, open + {l.clientId}, mark, capital, numGrids);
        MissingIgnores(rest, open, l.clientId);
        var tail := Reconcile(symbol, rest, open + {l.clientId}, {}, {}, mark, capital, numGrids);
        assert Reconcile(symbol, levels, open, {}, {}, mark, capital, numGrids).calls
            == [Replacement(symbol, l, mark, capital, numGrids)] + tail.calls;
        assert Missing(levels, open) == [l] + Missing(rest, open);
      }
    }
  }

  lemma {:induction false} ReconcileFaultFreeOpen(symbol: string, levels: seq<Level>, open: set<int>,
                                                  mark: real, capital: real, numGrids: int)
    ensures Reconcile(symbol, levels, open, {}, {}, mark, capital, numGrids).open == open + Ids(levels)
  {
    if levels != [] {
      var l := levels[0];
      var rest := levels[1..];
      assert levels == [l] + rest;
      assert Ids(levels) == {l.clientId} + Ids(rest);
      if l.clientId in open {
        ReconcileFaultFreeOpen(symbol, rest, open, mark, capital, numGrids);
      } else {
        ReconcileFaultFreeOpen(symbol, rest, open + {l.clientId}, mark, capital, numGrids);
      }
    }
  }

  /** With failures, reconciliation issues a prefix of the failure-free calls: a failure only
      cuts the walk short. */
  lemma {:induction false} ReconcileAbortsEarly(symbol: string, levels: seq<Level>, open: set<int>, queryFails: set<int>,
                                                placeFails: set<int>, mark: real, capital: real, numGrids: int)
    ensures Reconcile(symbol, levels, open, queryFails, placeFails, mark, capital, numGrids).calls
         <= Reconcile(symbol, levels, open, {}, {}, mark, capital, numGrids).calls
  {
    if levels != [] {
      var l := levels[0];
      if l.clientId in open {
        ReconcileAbortsEarly(symbol, levels[1..], open, queryFails, placeFails, mark, capital, numGrids);
      } else {
        ReconcileAbortsEarly(symbol, levels[1..], open + {l.clientId}, queryFails, placeFails, mark, capital, numGrids);
      }
    }
  }

  /** A query that throws at level `j` ends the walk there: the outcome is that of the walk over
      the levels before `j`, whatever comes after. */
  lemma {:induction false} ReconcileStopsAtQueryFailure(symbol: string, levels: seq<Level>, open: set<int>,
                                                        queryFails: set<int>, placeFails: set<int>, mark: real,
                                                        capital: real, numGrids: int, j: nat)
    requires j < |levels| && levels[j].clientId in queryFails
    ensures Reconcile(symbol, levels, open, queryFails, placeFails, mark, capital, numGrids)
         == Reconcile(symbol, levels[..j], open, queryFails, placeFails, mark, capital, numGrids)
  {
    if j > 0 {
      var l := levels[0];
      assert levels[..j][0] == l && levels[..j][1..] == levels[1..][..j - 1];
      ReconcileStopsAtQueryFailure(symbol, levels[1..], open, queryFails, placeFails, mark, capital, numGrids, j - 1);
      ReconcileStopsAtQueryFailure(symbol, levels[1..], open + {l.clientId}, queryFails, placeFails, mark, capital, numGrids, j - 1);
    }
  }

  /** Levels 0 and 2 are missing and the query for level 1 throws: only level 0 is re-placed,
      while a failure-free walk would re-place both. */
  lemma ReconcileStopsExample()
    ensures var levels := [Level(100.0, Bid, 0), Level(102.0, Bid, 1), Level(104.0, Ask, 2)];
      Reconcile("SOL_USDC_PERP", levels, {1}, {1}, {}, 103.0, 300.0, 3).calls
        == [Replacement("SOL_USDC_PERP", levels[0], 103.0, 300.0, 3)]
      && |Reconcile("SOL_USDC_PERP", levels, {1}, {}, {}, 103.0, 300.0, 3).calls| == 2
  {
    var levels := [Level(100.0, Bid, 0), Level(102.0, Bid, 1), Level(104.0, Ask, 2)];
    ReconcileStopsAtQueryFailure("SOL_USDC_PERP", levels, {1}, {1}, {}, 103.0, 300.0, 3, 1);
    assert levels[..1] == [levels[0]];
    var s := "SOL_USDC_PERP";
    var rest := levels[1..];
    assert rest[0] == levels[1] && rest[1..] == [levels[2]];
    var tail := rest[1..];
    assert tail[0] == levels[2] && tail[1..] == [];
    var open := {1} + {0};
    assert tail[0].clientId !in open;
    var last := Reconcile(s, tail, open, {}, {}, 103.0, 300.0, 3);
    assert Reconcile(s, tail[1..], open + {2}, {}, {}, 103.0, 300.0, 3).calls == [];
    assert |last.calls| == 1;
    assert Reconcile(s, rest, {1} + {0}, {}, {}, 103.0, 300.0, 3) == last;
  }

  /** On a ladder with distinct ids, a placement that throws at a missing level `j` ends the walk
      right after it: the outcome is that of the walk over the levels up to and including `j`. */
  lemma {:induction false} ReconcileStopsAtPlaceFailure(symbol: string, levels: seq<Level>, open: set<int>,
                                                        queryFails: set<int>, placeFails: set<int>, mark: real,
                                                        capital: real, numGrids: int, j: nat)
    requires DistinctIds(levels)
    requires j < |levels| && levels[j].clientId !in open && levels[j].clientId in placeFails
    ensures Reconcile(symbol, levels, open, queryFails, placeFails, mark, capital, numGrids)
         == Reconcile(symbol, levels[..j + 1], open, queryFails, placeFails, mark, capital, numGrids)
  {
    var l := levels[0];
    var prefix := levels[..j + 1];
    assert prefix[0] == l && prefix[1..] == levels[1..][..j];
    if j == 0 {
      assert prefix[1..] == [];
    } else {
      HeadIdUnique(levels);
      assert levels[1..][j - 1] == levels[j];
      assert levels[j].clientId != l.clientId;
      ReconcileStopsAtPlaceFailure(symbol, levels[1..], open, queryFails, placeFails, mark, capital, numGrids, j - 1);
      ReconcileStopsAtPlaceFailure(symbol, levels[1..], open + {l.clientId}, queryFails, placeFails, mark, capital, numGrids, j - 1);
    }
  }

  /** A failing query on the first missing-or-not level stops everything: no call at all. */
  lemma ReconcileQueryFailure(symbol: string, levels: seq<Level>, open: set<int>, queryFails: set<int>,
                              placeFails: set<int>, mark: real, capital: real, numGrids: int)
    requires levels != [] && levels[0].clientId in queryFails
    ensures Reconcile(symbol, levels, open, queryFails, placeFails, mark, capital, numGrids) == Outcome([], open)
  {
  }

  /** When every level already has an open order nothing is placed. */
  lemma {:induction false} ReconcileNothingMissing(symbol: string, levels: seq<Level>, open: set<int>, queryFails: set<int>,
                                                   placeFails: set<int>, mark: real, capital: real, numGrids: int)
    requires Ids(levels) <= open
    ensures Reconcile(symbol, levels, open, queryFails, placeFails, mark, capital, numGrids).calls == []
  {
    if levels != [] {
      assert levels[0] in levels;
      assert Ids(levels[1..]) <= Ids(levels) by {
        forall l | l in levels[1..] ensures l in levels { }
      }
      ReconcileNothingMissing(symbol, levels[1..], open, queryFails, placeFails, mark, capital, numGrids);
    }
  }

  /** A completed reconciliation leaves nothing to do: reconciling again places nothing. */
  lemma ReconcileIdempotent(symbol: string, levels: seq<Level>, open: set<int>, mark: real, mark2: real,
                            capital: real, numGrids: int)
    requires DistinctIds(levels)
    ensures var r := Reconcile(symbol, levels, open, {}, {}, mark, capital, numGrids);
      Reconcile(symbol, levels, r.open, {}, {}, mark2, capital, numGrids).calls == []
  {
    ReconcileFaultFree(symbol, levels, open, mark, capital, numGrids);
    var r := Reconcile(symbol, levels, open, {}, {}, mark, capital, numGrids);
    ReconcileNothingMissing(symbol, levels, r.open, {}, {}, mark2, capital, numGrids);
  }

  /** After a complete placement of a ladder on a cancelled book, no level needs re-placing. */
  lemma PlacementThenReconcile(symbol: string, levels: seq<Level>, mark: real, capital: real, numGrids: int,
                               queryFails: set<int>, placeFails: set<int>)
    ensures var p := Placement(symbol, levels, {}, {}, capital, numGrids);
      Reconcile(symbol, levels, p.open, queryFails, placeFails, mark, capital, numGrids).calls == []
  {
    PlacementFaultFree(symbol, levels, {}, capital, numGrids);
    var p := Placement(symbol, levels, {}, {}, capital, numGrids);
    ReconcileNothingMissing(symbol, levels, p.open, queryFails, placeFails, mark, capital, numGrids);
  }

  /* ---------------------------------------------------------------- force close */

  /** The fields of an open position `forceClose` reads. */
  datatype Position = Position(symbol: string, markPrice: real, netExposureNotional: real,
                               pnlRealized: real, pnlUnrealized: real)

  /** The fields of the account snapshot the grid reads. */
  datatype Account = Account(capitalAvailable: real, makerFee: real, takerFee: real)

  /** The first position held in `symbol`, if any. */
  function FindPosition(positions: seq<Position>, symbol: string): (r: Option<Position>)
    ensures r.Some? ==> r.value in positions && r.value.symbol == symbol
  {
    if positions == [] then None
    else if positions[0].symbol == symbol then Some(positions[0])
    else FindPosition(positions[1..], symbol)
  }

  /** The search finds nothing exactly when no position is on the market, and otherwise the
      first position on it. */
  lemma {:induction false} FindPositionSpec(positions: seq<Position>, symbol: string)
    ensures FindPosition(positions, symbol).None? <==> forall p :: p in positions ==> p.symbol != symbol
    ensures FindPosition(positions, symbol).Some? ==>
      exists k :: 0 <= k < |positions| && positions[k] == FindPosition(positions, symbol).value
        && positions[k].symbol == symbol && forall j :: 0 <= j < k ==> positions[j].symbol != symbol
  {
    if positions != [] && positions[0].symbol != symbol {
      var tail := positions[1..];
      FindPositionSpec(tail, symbol);
      assert positions == [positions[0]] + tail;
      var r := FindPosition(tail, symbol);
      if r.Some? {
        var k :| 0 <= k < |tail| && tail[k] == r.value && tail[k].symbol == symbol
          && forall j :: 0 <= j < k ==> tail[j].symbol != symbol;
        assert positions[k + 1] == r.value;
        forall j | 0 <= j < k + 1
          ensures positions[j].symbol != symbol
        {
          if j > 0 { assert positions[j] == tail[j - 1]; }
        }
      }
    }
  }

  /** Realized plus unrealized PnL, less the opening and closing fees on the notional. */
  function Pnl(p: Position, a: Account): (pnl: real)
    ensures pnl == p.pnlRealized + p.pnlUnrealized - p.netExposureNotional * (a.makerFee + a.takerFee)
  {
    var closeFee := p.netExposureNotional * a.makerFee;
    var openFee := p.netExposureNotional * a.takerFee;
    var totalFee := closeFee + openFee;
    (p.pnlRealized + p.pnlUnrealized) - totalFee
  }

  /** `x >= bound` where an unset bound is JavaScript's NaN, against which every comparison fails. */
  predicate AtLeast(x: real, bound: Option<real>) {
    bound.Some? && x >= bound.value
  }

  predicate AtMost(x: real, bound: Option<real>) {
    bound.Some? && x <= bound.value
  }

  /** The force-close test: the mark price at or above the upper bound, at or below the lower
      bound, or the PnL at or above the target. */
  predicate ShouldClose(markPrice: real, pnl: real, upperClose: Option<real>, lowerClose: Option<real>,
                        gridPnl: Option<real>) {
    AtLeast(markPrice, upperClose) || AtMost(markPrice, lowerClose) || AtLeast(pnl, gridPnl)
  }

  /** With all three bounds set, the position stays open exactly while the mark price is strictly
      inside the band and the PnL strictly below the target; the bounds themselves trigger. With
      none set, nothing ever triggers. */
  lemma ShouldCloseSpec(markPrice: real, pnl: real, upperClose: Option<real>, lowerClose: Option<real>,
                        gridPnl: Option<real>)
    ensures upperClose.Some? && lowerClose.Some? && gridPnl.Some? ==>
      (!ShouldClose(markPrice, pnl, upperClose, lowerClose, gridPnl) <==>
        lowerClose.value < markPrice < upperClose.value && pnl < gridPnl.value)
    ensures upperClose.Some? ==> ShouldClose(upperClose.value, pnl, upperClose, lowerClose, gridPnl)
    ensures lowerClose.Some? ==> ShouldClose(lowerClose.value, pnl, upperClose, lowerClose, gridPnl)
    ensures gridPnl.Some? ==> ShouldClose(markPrice, gridPnl.value, upperClose, lowerClose, gridPnl)
    ensures upperClose.None? && lowerClose.None? && gridPnl.None? ==>
      !ShouldClose(markPrice, pnl, upperClose, lowerClose, gridPnl)
  {
  }

  /** Whether `forceClose` closes: a position on the market exists, the account snapshot, read
      only then, is available (`None` when reading it throws), and the position passes the test. */
  predicate Triggered(positions: seq<Position>, symbol: string, account: Option<Account>, upperClose: Option<real>,
                      lowerClose: Option<real>, gridPnl: Option<real>) {
    match FindPosition(positions, symbol)
    case None => false
    case Some(p) => account.Some? && ShouldClose(p.markPrice, Pnl(p, account.value), upperClose, lowerClose, gridPnl)
  }

  /* ---------------------------------------------------------------- frames */

  /** What an incoming WebSocket frame parses to; `Malformed` when `JSON.parse` throws. */
  datatype EventData = EventData(e: Option<string>)
  datatype Inbound = Malformed | Message(stream: Option<string>, data: Option<EventData>)

  const PositionUpdate: string := "account.positionUpdate"
  const OrderUpdate: string := "account.orderUpdate"

  /** How many reconciliations a private frame starts: the two stream tests are separate `if`s,
      but a frame has one stream, so it is never more than one. An order update without data
      throws on `event.e` and starts none. */
  function PrivateReconciliations(m: Inbound): (n: nat)
    ensures n <= 1
    ensures n == 1 <==> (m.Message? && (m.stream == Some(PositionUpdate)
      || (m.stream == Some(OrderUpdate) && m.data.Some? && m.data.value.e in {Some("orderFill"), Some("orderCancel")})))
  {
    if m.Malformed? then 0
    else
      (if m.stream == Some(PositionUpdate) then 1 else 0)
      + (if m.stream == Some(OrderUpdate) && m.data.Some?
            && (m.data.value.e == Some("orderFill") || m.data.value.e == Some("orderCancel")) then 1 else 0)
  }

  function PublicStream(symbol: string): string {
    "markPrice." + symbol
  }

  /** A public frame starts `forceClose` only on the grid's own mark-price stream. */
  predicate TriggersForceClose(m: Inbound, symbol: string) {
    m.Message? && m.stream == Some(PublicStream(symbol))
  }

  /** Streams of different markets differ, so a frame starts a force close for one market only. */
  lemma TriggersForceCloseOneMarket(m: Inbound, a: string, b: string)
    requires TriggersForceClose(m, a) && TriggersForceClose(m, b)
    ensures a == b
  {
    var n := |"markPrice."|;
    assert PublicStream(a)[n..] == a;
    assert PublicStream(b)[n..] == b;
  }

  /** The frames the grid sends. */
  datatype Frame = Subscribe(params: seq<string>, signature: seq<string>)

  /** What the request signer is asked to sign, and the four headers it returns. */
  datatype AuthRequest = AuthRequest(instruction: string, timestamp: int, window: int)
  datatype AuthHeaders = AuthHeaders(apiKey: string, signature: string, timestamp: string, window: string)

  /** The private subscription: both account streams, signed for the "subscribe" instruction
      over a 10-second window at the given time. */
  function PrivateSubscription(sign: AuthRequest -> AuthHeaders, timestamp: int): (f: Frame)
    ensures forall st :: st in f.params <==>
      PrivateReconciliations(Message(Some(st), Some(EventData(Some("orderFill"))))) == 1
    ensures var h := sign(AuthRequest("subscribe", timestamp, 10000));
      f.signature == [h.apiKey, h.signature, h.timestamp, h.window]
  {
    var h := sign(AuthRequest("subscribe", timestamp, 10000));
    Subscribe([PositionUpdate, OrderUpdate], [h.apiKey, h.signature, h.timestamp, h.window])
  }

  /** The public subscription: the market's mark-price stream, unsigned. */
  function PublicSubscription(symbol: string): (f: Frame)
    ensures |f.params| == 1 && f.signature == []
    ensures forall m: Inbound :: m.Message? && m.stream.Some? && m.stream.value in f.params ==> TriggersForceClose(m, symbol)
  {
    Subscribe([PublicStream(symbol)], [])
  }

  /* ---------------------------------------------------------------- sockets */

  datatype ReadyState = Connecting | Open | Closing | Closed
  datatype Socket = Socket(id: nat, state: ReadyState)
  datatype Channel = Private | Public

  /** A socket is live when it exists and is OPEN. */
  predicate Live(ws: Option<Socket>) {
    ws.Some? && ws.value.state == Open
  }

  /** The channels the liveness tick reconnects, private first. */
  function Reconnects(wsPrivate: Option<Socket>, wsPublic: Option<Socket>): (r: seq<Channel>)
    ensures Private in r <==> !Live(wsPrivate)
    ensures Public in r <==> !Live(wsPublic)
    ensures |r| <= 2
  {
    (if Live(wsPrivate) then [] else [Private]) + (if Live(wsPublic) then [] else [Public])
  }

  /* ---------------------------------------------------------------- the grid */

  class Grid {
    const symbol: string
    const lowerPrice: real
    const upperPrice: real
    const numGrids: int
    const upperClose: Option<real>
    const lowerClose: Option<real>
    const gridPnl: Option<real>
    const gridStep: real

    /** The current ladder. */
    var orders: seq<Level>
    var wsPrivate: Option<Socket>
    var wsPublic: Option<Socket>
    /** Sockets created so far; each new socket takes the next number as its id. */
    var socketsCreated: nat
    /** Liveness intervals started so far. */
    var timers: nat
    /** Frames sent, with the channel they went out on. */
    var sent: seq<(Channel, Frame)>
    /** Reconnections scheduled by close events. */
    var reconnectsScheduled: seq<Channel>

    /** The ladder's ids are its positions, and every socket id was handed out. */
    predicate Valid()
      reads this
    {
      (forall i :: 0 <= i < |orders| ==> orders[i].clientId == i)
      && (wsPrivate.Some? ==> wsPrivate.value.id < socketsCreated)
      && (wsPublic.Some? ==> wsPublic.value.id < socketsCreated)
    }

    /** The constructor, with the environment already converted to numbers (unset bounds are
        absent, the NaN of the source). */
    constructor (gridMarket: Option<string>, lowerPrice: real, upperPrice: real, numGrids: int,
                 upperClose: Option<real>, lowerClose: Option<real>, gridPnl: Option<real>)
      ensures Valid()
      ensures symbol == GridSymbol(gridMarket)
      ensures this.lowerPrice == lowerPrice && this.upperPrice == upperPrice && this.numGrids == numGrids
      ensures this.upperClose == upperClose && this.lowerClose == lowerClose && this.gridPnl == gridPnl
      ensures gridStep == GridStep(lowerPrice, upperPrice, numGrids)
      ensures orders == [] && wsPrivate.None? && wsPublic.None?
      ensures socketsCreated == 0 && timers == 0 && sent == [] && reconnectsScheduled == []
    {
      symbol := GridSymbol(gridMarket);
      this.lowerPrice := lowerPrice;
      this.upperPrice := upperPrice;
      this.numGrids := numGrids;
      this.upperClose := upperClose;
      this.lowerClose := lowerClose;
      this.gridPnl := gridPnl;
      gridStep := GridStep(lowerPrice, upperPrice, numGrids);
      orders := [];
      wsPrivate := None;
      wsPublic := None;
      socketsCreated := 0;
      timers := 0;
      sent := [];
      reconnectsScheduled := [];
    }

    /** `generateGridOrders(lastPrice)`: the previous ladder is discarded and a new one built. */
    method GenerateGridOrders(lastPrice: real)
      requires Valid()
      modifies this`orders
      ensures Valid()
      ensures orders == Ladder(lowerPrice, gridStep, numGrids, lastPrice)
    {
      orders := [];
      var i := 0;
      while i < numGrids
        invariant 0 <= i <= LevelCount(numGrids)
        invariant orders == Ladder(lowerPrice, gridStep, numGrids, lastPrice)[..i]
        invariant Valid()
      {
        var price := lowerPrice + (i as real) * gridStep;
        var side := if price < lastPrice then Bid else Ask;
        ghost var ladder := Ladder(lowerPrice, gridStep, numGrids, lastPrice);
        assert ladder[..i + 1] == ladder[..i] + [Level(price, side, i)];
        orders := orders + [Level(price, side, i)];
        i := i + 1;
      }
    }

    /** `cancelAllOrders()`. */
    method CancelAllOrders(ex: Exchange)
      modifies ex
      ensures ex.log == old(ex.log) + [CancelOpenOrders(symbol)]
      ensures ex.openIds == if ex.cancelFails then old(ex.openIds) else {}
    {
      ex.CancelAll(symbol);
    }

    /** `placeGridOrders()`: read the capital (`None` when the snapshot throws, which places
        nothing), then place the ladder level by level; a throw ends the loop. */
    method PlaceGridOrders(capital: Option<real>, ex: Exchange)
      modifies ex
      ensures capital.None? ==> ex.log == old(ex.log) && ex.openIds == old(ex.openIds)
      ensures capital.Some? ==>
        var r := Placement(symbol, orders, old(ex.openIds), ex.placeFails, capital.value, numGrids);
        ex.log == old(ex.log) + r.calls && ex.openIds == r.open
    {
      if capital.None? {
        return;
      }
      var available := capital.value;
      ghost var total := Placement(symbol, orders, ex.openIds, ex.placeFails, available, numGrids);
      var i := 0;
      while i < |orders|
        invariant 0 <= i <= |orders|
        invariant var rest := Placement(symbol, orders[i..], ex.openIds, ex.placeFails, available, numGrids);
          old(ex.log) + total.calls == ex.log + rest.calls && total.open == rest.open
      {
        var level := orders[i];
        assert orders[i..] == [level] + orders[i + 1..];
        var quantityPerGrid := Quantity(available, numGrids, level.price);
        var ok := ex.CreateLimitOrderGrid(symbol, level.side, level.price, quantityPerGrid, level.clientId);
        if !ok {
          return;
        }
        i := i + 1;
      }
    }

    /** The calls a `run()` at mark price `mark` makes: cancel, then place the new ladder when the
        capital can be read. */
    function RunCalls(mark: real, capital: Option<real>, cancelFails: bool, open: set<int>, placeFails: set<int>): Outcome {
      var afterCancel := if cancelFails then open else {};
      if capital.None? then Outcome([CancelOpenOrders(symbol)], afterCancel)
      else
        var p := Placement(symbol, Ladder(lowerPrice, gridStep, numGrids, mark), afterCancel, placeFails, capital.value, numGrids);
        Outcome([CancelOpenOrders(symbol)] + p.calls, p.open)
    }

    /** `connectPrivate()`: a new socket replaces the old one. */
    method ConnectPrivate()
      requires Valid()
      modifies this`wsPrivate, this`socketsCreated
      ensures Valid()
      ensures wsPrivate == Some(Socket(old(socketsCreated), Connecting)) && socketsCreated == old(socketsCreated) + 1
    {
      wsPrivate := Some(Socket(socketsCreated, Connecting));
      socketsCreated := socketsCreated + 1;
    }

    /** `connectPublic()`: a new socket replaces the old one. */
    method ConnectPublic()
      requires Valid()
      modifies this`wsPublic, this`socketsCreated
      ensures Valid()
      ensures wsPublic == Some(Socket(old(socketsCreated), Connecting)) && socketsCreated == old(socketsCreated) + 1
    {
      wsPublic := Some(Socket(socketsCreated, Connecting));
      socketsCreated := socketsCreated + 1;
    }

    /** `run()`: nothing when the mark price cannot be read; otherwise rebuild the ladder at the
        mark price, cancel, place (when the capital can be read), open both sockets afresh and
        start one more liveness interval. */
    method Run(mark: Option<real>, capital: Option<real>, ex: Exchange)
      requires Valid()
      modifies this, ex
      ensures Valid()
      ensures sent == old(sent) && reconnectsScheduled == old(reconnectsScheduled)
      ensures mark.None? ==>
        ex.log == old(ex.log) && ex.openIds == old(ex.openIds) && orders == old(orders)
        && wsPrivate == old(wsPrivate) && wsPublic == old(wsPublic)
        && socketsCreated == old(socketsCreated) && timers == old(timers)
      ensures mark.Some? ==>
        var r := RunCalls(mark.value, capital, ex.cancelFails, old(ex.openIds), ex.placeFails);
        orders == Ladder(lowerPrice, gridStep, numGrids, mark.value)
        && ex.log == old(ex.log) + r.calls && ex.openIds == r.open
        && wsPrivate == Some(Socket(old(socketsCreated), Connecting))
        && wsPublic == Some(Socket(old(socketsCreated) + 1, Connecting))
        && socketsCreated == old(socketsCreated) + 2 && timers == old(timers) + 1
    {
      if mark.None? {
        return;
      }
      var lastPrice := mark.value;
      GenerateGridOrders(lastPrice);
      CancelAllOrders(ex);
      PlaceGridOrders(capital, ex);
      ConnectPrivate();
      ConnectPublic();
      timers := timers + 1;
    }

    /** The ladder's client ids are distinct, as reconciliation needs. */
    lemma ValidDistinct()
      requires Valid()
      ensures DistinctIds(orders)
    {
    }

    /** `handleOrderFill()`: nothing when the mark price or the capital cannot be read; otherwise
        reconcile the ladder against the exchange. The ladder itself is not touched. Without
        failures, exactly the missing levels are re-placed and every level ends with an open order. */
    method HandleOrderFill(mark: Option<real>, capital: Option<real>, ex: Exchange)
      requires Valid()
      modifies ex
      ensures mark.None? || capital.None? ==> ex.log == old(ex.log) && ex.openIds == old(ex.openIds)
      ensures mark.Some? && capital.Some? ==>
        var r := Reconcile(symbol, orders, old(ex.openIds), ex.queryFails, ex.placeFails, mark.value, capital.value, numGrids);
        ex.log == old(ex.log) + r.calls && ex.openIds == r.open
      ensures mark.Some? && capital.Some? && ex.queryFails == {} && ex.placeFails == {} ==>
        var m := Missing(orders, old(ex.openIds));
        |ex.log| == |old(ex.log)| + |m|
        && (forall k :: 0 <= k < |m| ==>
              ex.log[|old(ex.log)| + k] == Replacement(symbol, m[k], mark.value, capital.value, numGrids))
        && ex.openIds == old(ex.openIds) + Ids(orders)
    {
      if mark.None? || capital.None? {
        return;
      }
      var lastPrice := mark.value;
      var available := capital.value;
      ghost var total := Reconcile(symbol, orders, ex.openIds, ex.queryFails, ex.placeFails, lastPrice, available, numGrids);
      ghost var before := ex.log;
      ghost var openBefore := ex.openIds;
      var i := 0;
      while i < |orders|
        invariant 0 <= i <= |orders|
        invariant var rest := Reconcile(symbol, orders[i..], ex.openIds, ex.queryFails, ex.placeFails, lastPrice, available, numGrids);
          before + total.calls == ex.log + rest.calls && total.open == rest.open
      {
        var order := orders[i];
        assert orders[i..] == [order] + orders[i + 1..];
        var hasOrder := ex.GetOpenOrder(order.clientId);
        if hasOrder.None? {
          break;
        }
        if !hasOrder.value {
          var side := if order.price < lastPrice then Bid else Ask;
          var quantity := Quantity(available, numGrids, order.price);
          var ok := ex.CreateLimitOrderGrid(symbol, side, order.price, quantity, order.clientId);
          if !ok {
            break;
          }
        }
        i := i + 1;
      }
      assert ex.log == before + total.calls && ex.openIds == total.open;
      if ex.queryFails == {} && ex.placeFails == {} {
        ValidDistinct();
        ReconcileFaultFree(symbol, orders, openBefore, lastPrice, available, numGrids);
      }
    }

    /** `forceClose(symbol)`: when the grid's position passes the test, close it and, if that
        went through, run the whole start-up sequence again with fresh mark price and capital
        (new sockets and one more interval included). A close that throws ends it after the
        call; otherwise nothing changes. */
    method ForceClose(positions: seq<Position>, account: Option<Account>, runMark: Option<real>,
                      runCapital: Option<real>, ex: Exchange)
      requires Valid()
      modifies this, ex
      ensures Valid()
      ensures sent == old(sent) && reconnectsScheduled == old(reconnectsScheduled)
      ensures !Triggered(positions, symbol, account, upperClose, lowerClose, gridPnl) ==>
        ex.log == old(ex.log) && ex.openIds == old(ex.openIds) && orders == old(orders)
        && wsPrivate == old(wsPrivate) && wsPublic == old(wsPublic) && timers == old(timers)
        && socketsCreated == old(socketsCreated)
      ensures Triggered(positions, symbol, account, upperClose, lowerClose, gridPnl) ==>
        |ex.log| > |old(ex.log)| && ex.log[|old(ex.log)|] == ClosePosition(symbol)
      ensures Triggered(positions, symbol, account, upperClose, lowerClose, gridPnl) && ex.closeFails ==>
        ex.log == old(ex.log) + [ClosePosition(symbol)] && ex.openIds == old(ex.openIds) && orders == old(orders)
        && wsPrivate == old(wsPrivate) && wsPublic == old(wsPublic) && timers == old(timers)
        && socketsCreated == old(socketsCreated)
      ensures Triggered(positions, symbol, account, upperClose, lowerClose, gridPnl) && !ex.closeFails && runMark.None? ==>
        ex.log == old(ex.log) + [ClosePosition(symbol)] && ex.openIds == old(ex.openIds) && orders == old(orders)
        && wsPrivate == old(wsPrivate) && wsPublic == old(wsPublic) && timers == old(timers)
        && socketsCreated == old(socketsCreated)
      ensures Triggered(positions, symbol, account, upperClose, lowerClose, gridPnl) && !ex.closeFails && runMark.Some? ==>
        var r := RunCalls(runMark.value, runCapital, ex.cancelFails, old(ex.openIds), ex.placeFails);
        ex.log == old(ex.log) + [ClosePosition(symbol)] + r.calls && ex.openIds == r.open
        && orders == Ladder(lowerPrice, gridStep, numGrids, runMark.value) && timers == old(timers) + 1
        && wsPrivate == Some(Socket(old(socketsCreated), Connecting))
        && wsPublic == Some(Socket(old(socketsCreated) + 1, Connecting))
        && socketsCreated == old(socketsCreated) + 2
    {
      var position := FindPosition(positions, symbol);
      if position.None? || account.None? {
        return;
      }
      var p := position.value;
      var pnl := Pnl(p, account.value);
      if AtLeast(p.markPrice, upperClose) || AtMost(p.markPrice, lowerClose) || AtLeast(pnl, gridPnl) {
        var ok := ex.Close(symbol);
        if ok {
          Run(runMark, runCapital, ex);
        }
      }
    }

    /** The liveness tick: reconnect exactly the sockets that are missing or not OPEN. */
    method Tick()
      requires Valid()
      modifies this`wsPrivate, this`wsPublic, this`socketsCreated
      ensures Valid()
      ensures socketsCreated == old(socketsCreated) + |Reconnects(old(wsPrivate), old(wsPublic))|
      ensures wsPrivate != old(wsPrivate) <==> Private in Reconnects(old(wsPrivate), old(wsPublic))
      ensures wsPublic != old(wsPublic) <==> Public in Reconnects(old(wsPrivate), old(wsPublic))
      ensures !Live(old(wsPrivate)) ==> wsPrivate == Some(Socket(old(socketsCreated), Connecting))
      ensures !Live(old(wsPublic)) ==> wsPublic == Some(Socket(socketsCreated - 1, Connecting))
    {
      if !(wsPrivate.Some? && wsPrivate.value.state == Open) {
        ConnectPrivate();
      }
      if !(wsPublic.Some? && wsPublic.value.state == Open) {
        ConnectPublic();
      }
    }

    /** The `open` handler of a socket: the socket is now OPEN and the subscription goes out on
        it; the private one is signed at `timestamp`. */
    method SocketOpened(channel: Channel, sign: AuthRequest -> AuthHeaders, timestamp: int)
      requires Valid()
      requires channel == Private ==> wsPrivate.Some?
      requires channel == Public ==> wsPublic.Some?
      modifies this`wsPrivate, this`wsPublic, this`sent
      ensures Valid()
      ensures channel == Private ==>
        wsPrivate == Some(old(wsPrivate).value.(state := Open)) && wsPublic == old(wsPublic)
        && sent == old(sent) + [(Private, PrivateSubscription(sign, timestamp))]
      ensures channel == Public ==>
        wsPublic == Some(old(wsPublic).value.(state := Open)) && wsPrivate == old(wsPrivate)
        && sent == old(sent) + [(Public, PublicSubscription(symbol))]
    {
      if channel == Private {
        wsPrivate := Some(wsPrivate.value.(state := Open));
        sent := sent + [(Private, PrivateSubscription(sign, timestamp))];
      } else {
        wsPublic := Some(wsPublic.value.(state := Open));
        sent := sent + [(Public, PublicSubscription(symbol))];
      }
    }

    /** The `close` handler of a socket: the socket is CLOSED and a reconnection is scheduled. */
    method SocketClosed(channel: Channel)
      requires Valid()
      requires channel == Private ==> wsPrivate.Some?
      requires channel == Public ==> wsPublic.Some?
      modifies this`wsPrivate, this`wsPublic, this`reconnectsScheduled
      ensures Valid()
      ensures reconnectsScheduled == old(reconnectsScheduled) + [channel]
      ensures channel == Private ==> wsPrivate == Some(old(wsPrivate).value.(state := Closed)) && wsPublic == old(wsPublic)
      ensures channel == Public ==> wsPublic == Some(old(wsPublic).value.(state := Closed)) && wsPrivate == old(wsPrivate)
    {
      if channel == Private {
        wsPrivate := Some(wsPrivate.value.(state := Closed));
      } else {
        wsPublic := Some(wsPublic.value.(state := Closed));
      }
      reconnectsScheduled := reconnectsScheduled + [channel];
    }

    /** The private `message` handler: at most one reconciliation per frame, and none that
        changes anything when the mark price or the capital cannot be read. */
    method OnPrivateMessage(m: Inbound, mark: Option<real>, capital: Option<real>, ex: Exchange)
      requires Valid()
      modifies ex
      ensures PrivateReconciliations(m) == 0 || mark.None? || capital.None? ==>
        ex.log == old(ex.log) && ex.openIds == old(ex.openIds)
      ensures PrivateReconciliations(m) == 1 && mark.Some? && capital.Some? ==>
        var r := Reconcile(symbol, orders, old(ex.openIds), ex.queryFails, ex.placeFails, mark.value, capital.value, numGrids);
        ex.log == old(ex.log) + r.calls && ex.openIds == r.open
    {
      if m.Malformed? {
        return;
      }
      if m.stream == Some(PositionUpdate) {
        HandleOrderFill(mark, capital, ex);
      }
      if m.stream == Some(OrderUpdate) && m.data.Some? {
        var event := m.data.value;
        if event.e == Some("orderFill") || event.e == Some("orderCancel") {
          HandleOrderFill(mark, capital, ex);
        }
      }
    }

    /** The public `message` handler: a force-close check on the grid's own mark-price stream only. */
    method OnPublicMessage(m: Inbound, positions: seq<Position>, account: Option<Account>, runMark: Option<real>,
                           runCapital: Option<real>, ex: Exchange)
      requires Valid()
      modifies this, ex
      ensures Valid()
      ensures sent == old(sent) && reconnectsScheduled == old(reconnectsScheduled)
      ensures !(TriggersForceClose(m, symbol) && Triggered(positions, symbol, account, upperClose, lowerClose, gridPnl)) ==>
        ex.log == old(ex.log) && ex.openIds == old(ex.openIds) && orders == old(orders)
        && wsPrivate == old(wsPrivate) && wsPublic == old(wsPublic) && timers == old(timers)
        && socketsCreated == old(socketsCreated)
      ensures TriggersForceClose(m, symbol) && Triggered(positions, symbol, account, upperClose, lowerClose, gridPnl)
              && (ex.closeFails || runMark.None?) ==>
        ex.log == old(ex.log) + [ClosePosition(symbol)] && ex.openIds == old(ex.openIds) && orders == old(orders)
        && wsPrivate == old(wsPrivate) && wsPublic == old(wsPublic) && timers == old(timers)
        && socketsCreated == old(socketsCreated)
      ensures TriggersForceClose(m, symbol) && Triggered(positions, symbol, account, upperClose, lowerClose, gridPnl)
              && !ex.closeFails && runMark.Some? ==>
        var r := RunCalls(runMark.value, runCapital, ex.cancelFails, old(ex.openIds), ex.placeFails);
        ex.log == old(ex.log) + [ClosePosition(symbol)] + r.calls && ex.openIds == r.open
        && orders == Ladder(lowerPrice, gridStep, numGrids, runMark.value) && timers == old(timers) + 1
        && wsPrivate == Some(Socket(old(socketsCreated), Connecting))
        && wsPublic == Some(Socket(old(socketsCreated) + 1, Connecting))
        && socketsCreated == old(socketsCreated) + 2
    {
      if m.Message? && m.stream == Some(PublicStream(symbol)) {
        ForceClose(positions, account, runMark, runCapital, ex);
      }
    }
  }
}
