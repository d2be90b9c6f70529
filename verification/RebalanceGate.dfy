/**
 What the risk gate and its exposure trackers can rely on in orders that `build_order_intents` made for the
 same market.
 */
module RebalanceGate {
  import opened Domain
  import opened Rebalance
  import opened RebalanceConverges
  import RiskGate
  import Harness
  import HarnessExposure

  /** The holdings that the sizing works on are the positions the gate sees. */
  ghost predicate SamePositions(h: Holdings, p: RiskGate.Portfolio) {
    forall secid :: Lots(h.lots, secid) == RiskGate.LotsOf(p, secid)
  }

  /** Lots within an amount cost at most that amount. */
  lemma LotsWithinFit(amount: real, lotSize: int, price: real, lots: int)
    requires lotSize > 0 && price > 0.0 && 1 <= lots <= LotsWithin(amount, lotSize, price)
    ensures Money(lots, lotSize, price) <= amount
  {
    Positive(1, lotSize, price);
    FloorQuotient(amount, Money(1, lotSize, price), lots);
    MoneyIsLinear(lots, lotSize, price);
  }

  /**
   A built order never reverses a position, confirms margin exactly when it opens or increases a short,
   states its own notional, and fits the order size limit and the minimum it was built with.
   */
  lemma BuiltOrdersFitTheGate(h: Holdings, equity: real, targets: seq<Target>, market: map<string, Observation>,
                              sizing: Sizing, secid: string, p: RiskGate.Portfolio)
    requires SamePositions(h, p) && secid in market && market[secid].instrument.secid == secid
    requires var r := OrderFor(h, equity, targets, market, sizing, secid); r.Ok? && r.value.Some?
    ensures var o := OrderFor(h, equity, targets, market, sizing, secid).value.value;
            && !RiskGate.Reverses(o, p)
            && (o.confirmMarginTrade <==> Shorts(RiskGate.Current(o, p), RiskGate.Resulting(o, p)))
            && o.notional == Money(o.lots, o.instrument.lotSize, o.limitPrice) >= sizing.minTrade
            && (sizing.maxOrder.Some? ==> o.notional <= sizing.maxOrder.value)
  {
    var i, current := market[secid].instrument, Lots(h.lots, secid);
    var wanted, price := WantedLots(equity, WeightOf(targets, secid), market[secid]), RoundPrice(i, market[secid].price);
    var n := SizedLots(current, wanted, i.lotSize, price, sizing);
    SizedLotsGetCloser(current, wanted, i.lotSize, price, sizing);
    ProductOfSigns(current, current + n);
    if sizing.maxOrder.Some? {
      LotsWithinFit(sizing.maxOrder.value, i.lotSize, price, AbsInt(n));
    }
  }

  lemma ProductOfSigns(a: int, b: int)
    requires (a >= 0 && b >= 0) || (a <= 0 && b <= 0)
    ensures a * b >= 0
  {
  }

  // ---------------------------------------------------------------- built orders and the trackers

  function Instruments(market: map<string, Observation>): map<string, Instrument> {
    map secid | secid in market :: market[secid].instrument
  }

  function Prices(market: map<string, Observation>): map<string, real> {
    map secid | secid in market :: market[secid].price
  }

  /** A built order carries the market price exactly when that price is a whole number of ticks. */
  lemma BuiltAtMarketIff(h: Holdings, equity: real, targets: seq<Target>, market: map<string, Observation>, sizing: Sizing,
                         secid: string)
    requires secid in market && market[secid].instrument.secid == secid
    requires var r := OrderFor(h, equity, targets, market, sizing, secid); r.Ok? && r.value.Some?
    ensures var o := OrderFor(h, equity, targets, market, sizing, secid).value.value;
            HarnessExposure.AtMarket(o, Instruments(market), Prices(market)) <==>
            OnTick(market[secid].price, market[secid].instrument.tickSize)
  {
    RoundingKeepsTicks(market[secid].price, market[secid].instrument.tickSize);
  }

  lemma RoundingKeepsTicks(price: real, tick: real)
    requires tick > 0.0
    ensures TickRound(price, tick) == price <==> OnTick(price, tick)
  {
    TickDownIsGreatest(price + tick / 2.0, tick);
    if OnTick(price, tick) {
      var k: int :| price == Ticks(k, tick);
      FloorQuotient(price + tick / 2.0, tick, k);
      FloorQuotient(price + tick / 2.0, tick, k + 1);
      assert (k + 1) as real * tick == k as real * tick + tick;
    }
  }

  /**
   Sizing and tracking together: with prices on the tick the loop sends a built plan, keeping every
   exposure tracker equal to the exposure recomputed from the projected positions.
   */
  lemma BuiltPlansKeepTrackersExact(h: Holdings, equity: real, targets: seq<Target>, market: map<string, Observation>,
                                    sizing: Sizing, secids: seq<string>, s: Harness.Account, g: RiskGate.Gate)
    requires Listed(h, market)
    requires HarnessExposure.Listed(s.portfolio, Instruments(market), Prices(market))
    requires HarnessExposure.Exact(s, Prices(market))
    ensures var orders := Orders(h, equity, targets, market, sizing, secids);
            && orders.Ok?
            && HarnessExposure.Exact(Harness.Run(s, g, orders.value), Prices(market))
  {
    OrdersNeverFail(h, equity, targets, market, sizing, secids);
    OrdersAreAtMarket(h, equity, targets, market, sizing, secids);
    var orders := Orders(h, equity, targets, market, sizing, secids).value;
    forall i | 0 <= i < |orders| ensures HarnessExposure.AtMarket(orders[i], Instruments(market), Prices(market)) {
      assert orders[i] in orders;
    }
    HarnessExposure.TrackersStayExact(s, g, orders, Instruments(market), Prices(market));
  }
}
