/**
 Rebalancing converges: at fixed prices on the tick, with every order filled at its limit and no fees,
 repeating `build_order_intents` conserves equity, never takes a position through zero with one order,
 brings the securities strictly closer to their targets, and stops where every gap is too small to trade.
 */
module RebalanceConverges {
  import opened Domain
  import opened Sums
  import opened Rebalance
  import Texts

  /** The positions after one order filled at its limit. */
  function Filled(h: Holdings, o: OrderIntent): Holdings {
    var n := Signed(o.side, o.lots);
    h.(cash := h.cash - Money(n, o.instrument.lotSize, o.limitPrice),
       lots := h.lots[o.instrument.secid := Lots(h.lots, o.instrument.secid) + n])
  }

  function AllFilled(h: Holdings, orders: seq<OrderIntent>): Holdings {
    if orders == [] then h else Filled(AllFilled(h, orders[..|orders| - 1]), orders[|orders| - 1])
  }

  /** Every security is listed under its own name, at a price on its tick, and nothing unlisted is held. */
  ghost predicate Listed(h: Holdings, market: map<string, Observation>) {
    && (forall secid :: secid in market ==>
                          market[secid].instrument.secid == secid
                          && RoundPrice(market[secid].instrument, market[secid].price) == market[secid].price)
    && (forall secid :: secid in h.lots ==> secid in market)
  }

  ghost predicate Distinct(secids: seq<string>) {
    forall i, j :: 0 <= i < j < |secids| ==> secids[i] != secids[j]
  }

  // ---------------------------------------------------------------- one order

  lemma Positive(lots: int, lotSize: int, price: real)
    requires lotSize > 0 && price > 0.0
    ensures lots > 0 ==> Money(lots, lotSize, price) > 0.0
    ensures Money(1, lotSize, price) > 0.0
  {
  }

  /** The zero-crossing rule and the size limit only ever shorten the way to the wanted position. */
  lemma SizedLotsGetCloser(current: int, wanted: int, lotSize: int, price: real, sizing: Sizing)
    ensures var n := SizedLots(current, wanted, lotSize, price, sizing);
            && AbsInt(current + n - wanted) == AbsInt(current - wanted) - AbsInt(n)
            && ((current >= 0 && current + n >= 0) || (current <= 0 && current + n <= 0))
  {
    if current * wanted < 0 {
      OppositeSigns(current, wanted);
    } else {
      SameSigns(current, wanted);
    }
  }

  lemma OppositeSigns(a: int, b: int)
    requires a * b < 0
    ensures (a > 0 && b < 0) || (a < 0 && b > 0)
  {
  }

  lemma SameSigns(a: int, b: int)
    requires a * b >= 0
    ensures (a >= 0 && b >= 0) || (a <= 0 && b <= 0)
  {
  }

  function Wanted(equity: real, targets: seq<Target>, market: map<string, Observation>, secid: string): int {
    if secid in market then WantedLots(equity, WeightOf(targets, secid), market[secid]) else 0
  }

  /** The signed lots that `OrderFor` orders at a price on the tick. */
  function Ordered(h: Holdings, equity: real, targets: seq<Target>, market: map<string, Observation>, sizing: Sizing,
                   secid: string): int
  {
    if secid !in market then 0
    else SizedLots(Lots(h.lots, secid), Wanted(equity, targets, market, secid), market[secid].instrument.lotSize,
                   market[secid].price, sizing)
  }

  lemma OrderForOrders(h: Holdings, equity: real, targets: seq<Target>, market: map<string, Observation>, sizing: Sizing,
                       secid: string)
    requires Listed(h, market)
    ensures var r, n := OrderFor(h, equity, targets, market, sizing, secid), Ordered(h, equity, targets, market, sizing, secid);
            && r.Ok? && (r.value.None? <==> n == 0)
            && (n != 0 ==> secid in market && r.value.value.instrument == market[secid].instrument
                           && r.value.value.limitPrice == market[secid].price
                           && Signed(r.value.value.side, r.value.value.lots) == n)
  {
    if secid in market {
      var n := Ordered(h, equity, targets, market, sizing, secid);
      Positive(AbsInt(n), market[secid].instrument.lotSize, market[secid].price);
    }
  }

  // ---------------------------------------------------------------- one round

  /** Orders at market prices on the tick are never refused. */
  lemma {:induction false} OrdersNeverFail(h: Holdings, equity: real, targets: seq<Target>, market: map<string, Observation>,
                                           sizing: Sizing, secids: seq<string>)
    requires Listed(h, market)
    ensures Orders(h, equity, targets, market, sizing, secids).Ok?
  {
    if secids != [] {
      OrdersNeverFail(h, equity, targets, market, sizing, secids[..|secids| - 1]);
      OrderForOrders(h, equity, targets, market, sizing, secids[|secids| - 1]);
    }
  }

  /** The filled orders of a round move each security by its own order. */
  lemma {:induction false} RoundMoves(h: Holdings, equity: real, targets: seq<Target>, market: map<string, Observation>,
                                      sizing: Sizing, secids: seq<string>, secid: string)
    requires Listed(h, market) && Distinct(secids)
    requires Orders(h, equity, targets, market, sizing, secids).Ok?
    ensures var after := AllFilled(h, Orders(h, equity, targets, market, sizing, secids).value);
            Lots(after.lots, secid) ==
            Lots(h.lots, secid) + if secid in secids then Ordered(h, equity, targets, market, sizing, secid) else 0
  {
    if secids != [] {
      var n := |secids| - 1;
      var before := Orders(h, equity, targets, market, sizing, secids[..n]);
      OrdersNeverFail(h, equity, targets, market, sizing, secids[..n]);
      RoundMoves(h, equity, targets, market, sizing, secids[..n], secid);
      OrderForOrders(h, equity, targets, market, sizing, secids[n]);
      var orders := Orders(h, equity, targets, market, sizing, secids).value;
      if Ordered(h, equity, targets, market, sizing, secids[n]) == 0 {
        assert orders == before.value;
      } else {
        assert orders[..|orders| - 1] == before.value;
      }
    }
  }

  /** The filled orders of a round conserve the value of cash and positions together. */
  lemma {:induction false} RoundConserves(h: Holdings, market: map<string, Observation>, orders: seq<OrderIntent>)
    requires Listed(h, market)
    requires forall i :: 0 <= i < |orders| ==>
                           orders[i].instrument.secid in market
                           && orders[i].instrument == market[orders[i].instrument.secid].instrument
                           && orders[i].limitPrice == market[orders[i].instrument.secid].price
    ensures var after := AllFilled(h, orders);
            && Listed(after, market) && after.reported == h.reported
            && after.cash + Total(Values(after.lots, market)) == h.cash + Total(Values(h.lots, market))
  {
    if orders != [] {
      var before := AllFilled(h, orders[..|orders| - 1]);
      RoundConserves(h, market, orders[..|orders| - 1]);
      FillConserves(before, market, orders[|orders| - 1]);
    }
  }

  lemma FillConserves(h: Holdings, market: map<string, Observation>, o: OrderIntent)
    requires o.instrument.secid in market && o.instrument == market[o.instrument.secid].instrument
    requires o.limitPrice == market[o.instrument.secid].price
    ensures var after := Filled(h, o);
            after.cash + Total(Values(after.lots, market)) == h.cash + Total(Values(h.lots, market))
  {
    var secid, n := o.instrument.secid, Signed(o.side, o.lots);
    var lotSize, price := o.instrument.lotSize, o.limitPrice;
    var before := Values(h.lots, market);
    var value := Money(Lots(h.lots, secid) + n, lotSize, price);
    assert Values(Filled(h, o).lots, market) == before[secid := value];
    TotalUpdate(before, secid, value);
    MoneyAdds(Lots(h.lots, secid), n, lotSize, price);
  }

  lemma MoneyAdds(a: int, b: int, lotSize: int, price: real)
    ensures Money(a + b, lotSize, price) == Money(a, lotSize, price) + Money(b, lotSize, price)
    ensures Money(0, lotSize, price) == 0.0
  {
    assert (a + b) * lotSize == a * lotSize + b * lotSize;
    var x, y := (a * lotSize) as real, (b * lotSize) as real;
    assert (x + y) * price == x * price + y * price;
  }

  lemma {:induction false} OrdersAreAtMarket(h: Holdings, equity: real, targets: seq<Target>, market: map<string, Observation>,
                                             sizing: Sizing, secids: seq<string>)
    requires Listed(h, market) && Orders(h, equity, targets, market, sizing, secids).Ok?
    ensures forall o :: o in Orders(h, equity, targets, market, sizing, secids).value ==>
                          o.instrument.secid in market && o.instrument == market[o.instrument.secid].instrument
                          && o.limitPrice == market[o.instrument.secid].price
  {
    if secids != [] {
      OrdersAreAtMarket(h, equity, targets, market, sizing, secids[..|secids| - 1]);
      OrderForOrders(h, equity, targets, market, sizing, secids[|secids| - 1]);
    }
  }

  // ---------------------------------------------------------------- the distance to the targets

  /** The sum over these securities of the lots between the position and the target. */
  function Distance(h: Holdings, equity: real, targets: seq<Target>, market: map<string, Observation>, secids: seq<string>): nat {
    if secids == [] then 0
    else
      var last := secids[|secids| - 1];
      Distance(h, equity, targets, market, secids[..|secids| - 1])
      + AbsInt(Lots(h.lots, last) - Wanted(equity, targets, market, last))
  }

  function Traded(h: Holdings, equity: real, targets: seq<Target>, market: map<string, Observation>, sizing: Sizing,
                  secids: seq<string>): nat
  {
    if secids == [] then 0
    else
      var last := secids[|secids| - 1];
      Traded(h, equity, targets, market, sizing, secids[..|secids| - 1])
      + AbsInt(Ordered(h, equity, targets, market, sizing, last))
  }

  lemma {:induction false} DistanceShrinks(h: Holdings, after: Holdings, equity: real, targets: seq<Target>,
                                           market: map<string, Observation>, sizing: Sizing, secids: seq<string>)
    requires forall secid :: secid in secids ==>
                               Lots(after.lots, secid) == Lots(h.lots, secid) + Ordered(h, equity, targets, market, sizing, secid)
    ensures Distance(after, equity, targets, market, secids) + Traded(h, equity, targets, market, sizing, secids) ==
            Distance(h, equity, targets, market, secids)
  {
    if secids != [] {
      var last := secids[|secids| - 1];
      DistanceShrinks(h, after, equity, targets, market, sizing, secids[..|secids| - 1]);
      if last in market {
        SizedLotsGetCloser(Lots(h.lots, last), Wanted(equity, targets, market, last), market[last].instrument.lotSize,
                           market[last].price, sizing);
      }
    }
  }

  lemma {:induction false} NothingTraded(h: Holdings, equity: real, targets: seq<Target>, market: map<string, Observation>,
                                         sizing: Sizing, secids: seq<string>)
    requires Listed(h, market)
    ensures Traded(h, equity, targets, market, sizing, secids) == 0 <==>
            Orders(h, equity, targets, market, sizing, secids) == Ok([])
    ensures Traded(h, equity, targets, market, sizing, secids) == 0 ==>
              forall secid :: secid in secids ==> Ordered(h, equity, targets, market, sizing, secid) == 0
  {
    if secids != [] {
      NothingTraded(h, equity, targets, market, sizing, secids[..|secids| - 1]);
      OrdersNeverFail(h, equity, targets, market, sizing, secids[..|secids| - 1]);
      OrderForOrders(h, equity, targets, market, sizing, secids[|secids| - 1]);
      var before := Orders(h, equity, targets, market, sizing, secids[..|secids| - 1]).value;
      assert before + [] == before;
    }
  }

  /** One round: the orders of the present positions, all filled. */
  function Round(h: Holdings, equity: real, targets: seq<Target>, market: map<string, Observation>, sizing: Sizing,
                 secids: seq<string>): Holdings
  {
    var orders := Orders(h, equity, targets, market, sizing, secids);
    if orders.Err? then h else AllFilled(h, orders.value)
  }

  lemma RoundKeeps(h: Holdings, equity: real, targets: seq<Target>, market: map<string, Observation>, sizing: Sizing,
                   secids: seq<string>)
    requires Listed(h, market) && Distinct(secids)
    ensures var after := Round(h, equity, targets, market, sizing, secids);
            && Listed(after, market) && Equity(after, market) == Equity(h, market)
            && Distance(after, equity, targets, market, secids) + Traded(h, equity, targets, market, sizing, secids) ==
               Distance(h, equity, targets, market, secids)
  {
    OrdersNeverFail(h, equity, targets, market, sizing, secids);
    OrdersAreAtMarket(h, equity, targets, market, sizing, secids);
    var orders := Orders(h, equity, targets, market, sizing, secids).value;
    assert forall i :: 0 <= i < |orders| ==> orders[i] in orders;
    RoundConserves(h, market, orders);
    forall secid | secid in secids
      ensures Lots(AllFilled(h, orders).lots, secid) ==
              Lots(h.lots, secid) + Ordered(h, equity, targets, market, sizing, secid)
    {
      RoundMoves(h, equity, targets, market, sizing, secids, secid);
    }
    DistanceShrinks(h, AllFilled(h, orders), equity, targets, market, sizing, secids);
  }

  /** Rebalance until nothing is ordered; every round is closer to the targets. */
  ghost function Settled(h: Holdings, targets: seq<Target>, market: map<string, Observation>, sizing: Sizing,
                         secids: seq<string>): Holdings
    requires Listed(h, market) && Distinct(secids)
    decreases Distance(h, Equity(h, market), targets, market, secids)
  {
    var equity := Equity(h, market);
    if Traded(h, equity, targets, market, sizing, secids) == 0 then h
    else
      RoundKeeps(h, equity, targets, market, sizing, secids);
      Settled(Round(h, equity, targets, market, sizing, secids), targets, market, sizing, secids)
  }

  /** The gap is closed, or there is one but all that may be traded of it at once is below the minimum. */
  predicate GapIsTooSmall(current: int, wanted: int, lotSize: int, price: real, sizing: Sizing) {
    var gap := AbsInt(AimedLots(current, wanted) - current);
    var most := MostLots(gap, lotSize, price, sizing);
    current == wanted || (0 < gap <= AbsInt(current - wanted) && (most <= 0 || Money(most, lotSize, price) < sizing.minTrade))
  }

  /** Nothing is ordered for a security exactly when its gap is too small to trade. */
  lemma NothingIsOrderedIff(current: int, wanted: int, lotSize: int, price: real, sizing: Sizing)
    ensures SizedLots(current, wanted, lotSize, price, sizing) == 0 <==> GapIsTooSmall(current, wanted, lotSize, price, sizing)
  {
    if current * wanted < 0 {
      OppositeSigns(current, wanted);
    }
  }

  ghost predicate NothingLeftToTrade(h: Holdings, targets: seq<Target>, market: map<string, Observation>, sizing: Sizing,
                                     secid: string)
  {
    secid in market ==> GapIsTooSmall(Lots(h.lots, secid), Wanted(Equity(h, market), targets, market, secid),
                                      market[secid].instrument.lotSize, market[secid].price, sizing)
  }

  /**
   Repeated rebalancing ends, with the same equity, in positions that order nothing any more: each one is
   on its target, or too little of what is left may be traded at once.
   */
  lemma {:induction false} RebalancingConverges(h: Holdings, targets: seq<Target>, market: map<string, Observation>,
                                                sizing: Sizing, secids: seq<string>)
    requires Listed(h, market) && Distinct(secids)
    ensures var e := Settled(h, targets, market, sizing, secids);
            && Listed(e, market) && Equity(e, market) == Equity(h, market)
            && Orders(e, Equity(e, market), targets, market, sizing, secids) == Ok([])
            && forall secid :: secid in secids ==> NothingLeftToTrade(e, targets, market, sizing, secid)
    decreases Distance(h, Equity(h, market), targets, market, secids)
  {
    var equity := Equity(h, market);
    NothingTraded(h, equity, targets, market, sizing, secids);
    if Traded(h, equity, targets, market, sizing, secids) != 0 {
      RoundKeeps(h, equity, targets, market, sizing, secids);
      RebalancingConverges(Round(h, equity, targets, market, sizing, secids), targets, market, sizing, secids);
    } else {
      forall secid | secid in secids ensures NothingLeftToTrade(h, targets, market, sizing, secid) {
        UntradedGapIsTooSmall(h, equity, targets, market, sizing, secid);
      }
    }
  }

  lemma UntradedGapIsTooSmall(h: Holdings, equity: real, targets: seq<Target>, market: map<string, Observation>,
                              sizing: Sizing, secid: string)
    requires equity == Equity(h, market) && Ordered(h, equity, targets, market, sizing, secid) == 0
    ensures NothingLeftToTrade(h, targets, market, sizing, secid)
  {
    if secid in market {
      NothingIsOrderedIff(Lots(h.lots, secid), Wanted(equity, targets, market, secid),
                          market[secid].instrument.lotSize, market[secid].price, sizing);
    }
  }

  // ---------------------------------------------------------------- the built plan

  lemma {:induction false} FillsListOnly(h: Holdings, orders: seq<OrderIntent>, targets: seq<Target>)
    requires forall o :: o in orders ==> o.instrument.secid in h.lots.Keys + Targeted(targets)
    ensures AllFilled(h, orders).lots.Keys - Targeted(targets) == h.lots.Keys - Targeted(targets)
  {
    if orders != [] {
      assert orders[|orders| - 1] in orders;
      FillsListOnly(h, orders[..|orders| - 1], targets);
    }
  }

  lemma {:induction false} OrdersAreForTheseSecurities(
    h: Holdings, equity: real, targets: seq<Target>, market: map<string, Observation>, sizing: Sizing, secids: seq<string>)
    requires Listed(h, market) && Orders(h, equity, targets, market, sizing, secids).Ok?
    ensures forall o :: o in Orders(h, equity, targets, market, sizing, secids).value ==> o.instrument.secid in secids
  {
    if secids != [] {
      OrdersAreForTheseSecurities(h, equity, targets, market, sizing, secids[..|secids| - 1]);
      OrderForOrders(h, equity, targets, market, sizing, secids[|secids| - 1]);
    }
  }

  /** The securities that `build_order_intents` goes through are the same in the next round. */
  lemma RoundKeepsExits(h: Holdings, equity: real, targets: seq<Target>, market: map<string, Observation>, sizing: Sizing,
                        exits: seq<string>)
    requires Listed(h, market) && AreExits(exits, h, targets)
    ensures AreExits(exits, Round(h, equity, targets, market, sizing, exits + Ranked(targets)), targets)
  {
    var secids := exits + Ranked(targets);
    OrdersNeverFail(h, equity, targets, market, sizing, secids);
    OrdersAreForTheseSecurities(h, equity, targets, market, sizing, secids);
    var orders := Orders(h, equity, targets, market, sizing, secids).value;
    forall o | o in orders ensures o.instrument.secid in h.lots.Keys + Targeted(targets) {
      if o.instrument.secid in exits {
        assert o.instrument.secid in Texts.Elements(exits);
      } else {
        RankedAreTargeted(targets, o.instrument.secid);
      }
    }
    FillsListOnly(h, orders, targets);
  }

  lemma RankedAreTargeted(targets: seq<Target>, secid: string)
    requires secid in Ranked(targets)
    ensures secid in Targeted(targets)
  {
    var i :| 0 <= i < |targets| && Ranked(targets)[i] == secid;
    assert targets[i] in targets;
  }

  /** One lot at this price may be traded. */
  predicate Tradable(lotSize: int, price: real, sizing: Sizing) {
    && sizing.minTrade <= Money(1, lotSize, price)
    && (sizing.maxOrder.Some? ==> 1 <= LotsWithin(sizing.maxOrder.value, lotSize, price))
  }

  lemma MoneyGrows(lots: int, lotSize: int, price: real)
    requires lots >= 1 && lotSize > 0 && price > 0.0
    ensures Money(1, lotSize, price) <= Money(lots, lotSize, price)
  {
    assert lots * lotSize >= lotSize;
    var x, y := (lots * lotSize) as real, lotSize as real;
    assert x * price >= y * price;
  }

  lemma TradableGapsClose(current: int, wanted: int, lotSize: int, price: real, sizing: Sizing)
    requires lotSize > 0 && price > 0.0 && Tradable(lotSize, price, sizing)
    ensures GapIsTooSmall(current, wanted, lotSize, price, sizing) <==> current == wanted
  {
    var gap := AbsInt(AimedLots(current, wanted) - current);
    if gap > 0 {
      MoneyGrows(MostLots(gap, lotSize, price, sizing), lotSize, price);
    }
  }

  /** Where single lots may be traded, the positions that rebalancing ends in are exactly the wanted ones. */
  lemma TargetsAreReached(h: Holdings, targets: seq<Target>, market: map<string, Observation>, sizing: Sizing,
                          secids: seq<string>, secid: string)
    requires Listed(h, market) && Distinct(secids) && secid in secids && secid in market
    requires Tradable(market[secid].instrument.lotSize, market[secid].price, sizing)
    ensures Lots(Settled(h, targets, market, sizing, secids).lots, secid) ==
            Wanted(Equity(h, market), targets, market, secid)
  {
    RebalancingConverges(h, targets, market, sizing, secids);
    var e := Settled(h, targets, market, sizing, secids);
    TradableGapsClose(Lots(e.lots, secid), Wanted(Equity(e, market), targets, market, secid),
                      market[secid].instrument.lotSize, market[secid].price, sizing);
  }

  /** The wanted lots are the most that the target value buys. */
  lemma WantedIsTheMostAffordable(equity: real, weight: real, o: Observation)
    requires weight >= 0.0 && equity >= 0.0
    ensures var n := WantedLots(equity, weight, o);
            && n >= 0 && Money(n, o.instrument.lotSize, o.price) <= equity * weight
            < Money(n + 1, o.instrument.lotSize, o.price)
  {
    var n, unit := WantedLots(equity, weight, o), Money(1, o.instrument.lotSize, o.price);
    Positive(1, o.instrument.lotSize, o.price);
    assert equity * weight >= 0.0;
    FloorQuotient(equity * weight, unit, n);
    FloorQuotient(equity * weight, unit, n + 1);
    FloorQuotient(equity * weight, unit, 0);
    MoneyIsLinear(n, o.instrument.lotSize, o.price);
    MoneyIsLinear(n + 1, o.instrument.lotSize, o.price);
  }

  lemma MoneyIsLinear(lots: int, lotSize: int, price: real)
    ensures Money(lots, lotSize, price) == lots as real * Money(1, lotSize, price)
  {
    assert (lots * lotSize) as real == lots as real * lotSize as real;
  }
}
