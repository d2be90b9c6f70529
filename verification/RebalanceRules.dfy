/**
 What a rebalancing order is, from the target to every field: the lots a weight of either sign asks for, the
 price to the nearest tick, the most that the size limit leaves, and when there is no order at all.
 */
module RebalanceRules {
  import opened Domain
  import opened Sums
  import opened Rebalance
  import opened RebalanceConverges

  // ---------------------------------------------------------------- money

  function Cost(lots: int, o: Observation): real {
    lots as real * (o.instrument.lotSize as real * o.price)
  }

  lemma CostMeans(lots: int, o: Observation)
    ensures Money(lots, o.instrument.lotSize, o.price) == Cost(lots, o)
    ensures Cost(1, o) > 0.0
  {
    MoneyIsLinear(lots, o.instrument.lotSize, o.price);
    Positive(1, o.instrument.lotSize, o.price);
  }

  /** The equity: cash and positions at market prices, but no more than a positive equity that the broker reports. */
  ghost predicate IsEquity(h: Holdings, market: map<string, Observation>, equity: real) {
    exists values: map<string, real> ::
      && (forall secid :: At(values, secid) ==
                          if secid in h.lots && secid in market then Cost(h.lots[secid], market[secid]) else 0.0)
      && var total := h.cash + Total(values);
         equity == if h.reported.Some? && 0.0 < h.reported.value < total then h.reported.value else total
  }

  lemma EquityMeans(h: Holdings, market: map<string, Observation>)
    ensures IsEquity(h, market, Equity(h, market))
  {
    var values := Values(h.lots, market);
    forall secid
      ensures At(values, secid) == if secid in h.lots && secid in market then Cost(h.lots[secid], market[secid]) else 0.0
    {
      if secid in values {
        CostMeans(h.lots[secid], market[secid]);
      }
    }
  }

  // ---------------------------------------------------------------- the target

  /** The weight and rationale of a security: those of its last target, or an exit. */
  ghost predicate IsTarget(targets: seq<Target>, secid: string, weight: real, rationale: string) {
    if forall t :: t in targets ==> t.secid != secid then weight == 0.0 && rationale == "exit target"
    else
      exists i :: 0 <= i < |targets| && targets[i] == Target(secid, weight, rationale)
                  && forall j :: i < j < |targets| ==> targets[j].secid != secid
  }

  lemma {:induction false} TargetMeans(targets: seq<Target>, secid: string)
    ensures IsTarget(targets, secid, WeightOf(targets, secid), RationaleOf(targets, secid))
  {
    if targets != [] {
      var n := |targets| - 1;
      var weight, rationale := WeightOf(targets, secid), RationaleOf(targets, secid);
      if targets[n].secid == secid {
        assert targets[n] == Target(secid, weight, rationale);
      } else {
        TargetMeans(targets[..n], secid);
        TargetOfMore(targets, secid, weight, rationale);
      }
    }
  }

  lemma TargetOfMore(targets: seq<Target>, secid: string, weight: real, rationale: string)
    requires targets != [] && targets[|targets| - 1].secid != secid
    requires IsTarget(targets[..|targets| - 1], secid, weight, rationale)
    ensures IsTarget(targets, secid, weight, rationale)
  {
    var n := |targets| - 1;
    assert forall t :: t in targets <==> t in targets[..n] || t == targets[n];
    if exists t :: t in targets[..n] && t.secid == secid {
      var i :| 0 <= i < n && targets[..n][i] == Target(secid, weight, rationale)
               && forall j :: i < j < n ==> targets[..n][j].secid != secid;
      assert targets[i] == Target(secid, weight, rationale);
      forall j | i < j < |targets| ensures targets[j].secid != secid {
        assert j < n ==> targets[..n][j] == targets[j];
      }
    }
  }

  /** A weight of the equity. */
  function PartOf(equity: real, weight: real): real {
    equity * weight
  }

  /** The lots that a value asks for: the most that it pays for, on its side, whatever its sign. */
  predicate IsWanted(value: real, o: Observation, n: int) {
    && (n > 0 ==> value > 0.0) && (n < 0 ==> value < 0.0)
    && Cost(AbsInt(n), o) <= Abs(value) < Cost(AbsInt(n) + 1, o)
  }

  /** The wanted lots are exactly those, for weights that are negative as well. */
  lemma WantedIff(equity: real, weight: real, o: Observation, n: int)
    ensures n == WantedLots(equity, weight, o) <==> IsWanted(PartOf(equity, weight), o, n)
  {
    var value, unit := equity * weight, Money(1, o.instrument.lotSize, o.price);
    var lots := LotsWithin(Abs(value), o.instrument.lotSize, o.price);
    CostMeans(1, o);
    LotsWithinMeans(Abs(value), o, lots);
    LotsWithinMeans(Abs(value), o, AbsInt(n));
    FloorQuotient(Abs(value), unit, 0);
    if value == 0.0 {
      FloorQuotient(0.0, unit, 1);
    }
  }

  /** The quotient is the only number of lots that the amount pays for and that leaves less than one more costs. */
  lemma LotsWithinMeans(amount: real, o: Observation, n: int)
    ensures n == LotsWithin(amount, o.instrument.lotSize, o.price) <==> Cost(n, o) <= amount < Cost(n + 1, o)
  {
    CostMeans(1, o);
    CostMeans(n, o);
    CostMeans(n + 1, o);
    FloorQuotient(amount, Cost(1, o), n);
    FloorQuotient(amount, Cost(1, o), n + 1);
  }

  // ---------------------------------------------------------------- the order

  /** The position that is aimed at: the wanted lots, or none when they are on the other side. */
  function Aim(current: int, wanted: int): int {
    if (current > 0 && wanted < 0) || (current < 0 && wanted > 0) then 0 else wanted
  }

  lemma AimMeans(current: int, wanted: int)
    ensures Aim(current, wanted) == AimedLots(current, wanted)
  {
    ProductIsNegative(current, wanted);
  }

  /** The market price to the nearest tick, the upper one of two. */
  ghost predicate IsNearest(o: Observation, price: real) {
    && OnTick(price, o.instrument.tickSize)
    && price - o.instrument.tickSize / 2.0 <= o.price < price + o.instrument.tickSize / 2.0
  }

  /** So many lots of the gap may be traded at this price: they are within the gap and the size limit. */
  predicate MayTrade(gap: int, o: Observation, sizing: Sizing, k: int) {
    1 <= k <= gap && (sizing.maxOrder.Some? ==> Cost(k, o) <= sizing.maxOrder.value)
  }

  /** The most lots that may be traded. */
  ghost predicate IsMost(gap: int, o: Observation, sizing: Sizing, n: int) {
    MayTrade(gap, o, sizing, n) && forall k :: MayTrade(gap, o, sizing, k) ==> k <= n
  }

  /** The order that moves a position by `n` lots towards its aim. */
  predicate Moves(o: OrderIntent, i: Instrument, current: int, aim: int, n: int, price: real, sizing: Sizing, rationale: string) {
    var after := if aim > current then current + n else current - n;
    && o.instrument == i && o.side == (if aim > current then Buy else Sell) && o.lots == n && o.limitPrice == price
    && o.notional == n as real * (i.lotSize as real * price) && o.orderType == "limit" && o.rationale == rationale
    && o.orderRequestId == sizing.idOf(i.secid, o.side, n)
    && (o.confirmMarginTrade <==> after < 0 && after < current)
  }

  /** What is ordered for a gap at a positive price: the most that may be traded, unless that is worth too little. */
  ghost predicate GapIsRight(r: Option<OrderIntent>, o: Observation, current: int, aim: int, sizing: Sizing, rationale: string) {
    var gap := if aim > current then aim - current else current - aim;
    match r
    case None => forall n :: IsMost(gap, o, sizing, n) ==> Cost(n, o) < sizing.minTrade
    case Some(order) =>
      && IsMost(gap, o, sizing, order.lots) && Cost(order.lots, o) >= sizing.minTrade
      && Moves(order, o.instrument, current, aim, order.lots, o.price, sizing, rationale)
  }

  lemma LimitMeans(o: Observation, sizing: Sizing, k: int)
    requires sizing.maxOrder.Some?
    ensures k <= LotsWithin(sizing.maxOrder.value, o.instrument.lotSize, o.price) <==> Cost(k, o) <= sizing.maxOrder.value
  {
    CostMeans(1, o);
    CostMeans(k, o);
    FloorQuotient(sizing.maxOrder.value, Cost(1, o), k);
  }

  lemma MostLotsMeans(gap: int, o: Observation, sizing: Sizing, k: int)
    requires gap > 0 && k >= 1
    ensures k <= MostLots(gap, o.instrument.lotSize, o.price, sizing) <==> MayTrade(gap, o, sizing, k)
  {
    if sizing.maxOrder.Some? {
      LimitMeans(o, sizing, k);
    }
  }

  lemma MostIsMost(gap: int, o: Observation, sizing: Sizing, n: int)
    requires gap > 0
    ensures IsMost(gap, o, sizing, n) <==> n >= 1 && n == MostLots(gap, o.instrument.lotSize, o.price, sizing)
  {
    var most := MostLots(gap, o.instrument.lotSize, o.price, sizing);
    forall k | k >= 1 ensures k <= most <==> MayTrade(gap, o, sizing, k) {
      MostLotsMeans(gap, o, sizing, k);
    }
    assert most >= 1 ==> MayTrade(gap, o, sizing, most);
  }

  /** The sized lots of a gap at the market price, which is on the tick: all fields of the order follow. */
  lemma SizedIsRight(o: Observation, current: int, aim: int, wanted: int, sizing: Sizing)
    requires aim == AimedLots(current, wanted) && aim != current
    ensures var n := SizedLots(current, wanted, o.instrument.lotSize, o.price, sizing);
            var gap := AbsInt(aim - current);
            && (n == 0 <==> forall k :: IsMost(gap, o, sizing, k) ==> Cost(k, o) < sizing.minTrade)
            && (n != 0 ==> && IsMost(gap, o, sizing, AbsInt(n)) && Cost(AbsInt(n), o) >= sizing.minTrade
                           && (n > 0 <==> aim > current))
  {
    var gap := AbsInt(aim - current);
    var most := MostLots(gap, o.instrument.lotSize, o.price, sizing);
    CostMeans(most, o);
    forall k ensures IsMost(gap, o, sizing, k) <==> k >= 1 && k == most {
      MostIsMost(gap, o, sizing, k);
    }
  }

  /** The order of one security, from its target to every field. */
  ghost predicate OrderIsRight(r: Result<Option<OrderIntent>>, h: Holdings, equity: real, targets: seq<Target>,
                               market: map<string, Observation>, sizing: Sizing, secid: string)
  {
    if secid !in market then r == Ok(None)
    else
      exists weight, rationale, wanted, price ::
        && IsTarget(targets, secid, weight, rationale)
        && IsWanted(PartOf(equity, weight), market[secid], wanted) && IsNearest(market[secid], price)
        && PricedIsRight(r, h, market, sizing, secid, wanted, price, rationale)
  }

  ghost predicate PricedIsRight(r: Result<Option<OrderIntent>>, h: Holdings, market: map<string, Observation>, sizing: Sizing,
                                secid: string, wanted: int, price: real, rationale: string)
    requires secid in market
  {
    var i, current := market[secid].instrument, Lots(h.lots, secid);
    var aim := Aim(current, wanted);
    if aim == current then r == Ok(None)
    else if price <= 0.0 then (if sizing.maxOrder.None? && 0.0 < sizing.minTrade then r == Ok(None) else r.Err?)
    else r.Ok? && GapIsRight(r.value, ObservationData(i, price), current, aim, sizing, rationale)
  }

  /** The order that the sized lots make, at a price on the tick. */
  function Built(o: Observation, current: int, n: int, sizing: Sizing, rationale: string): Option<OrderIntent>
    requires n != 0 ==> Money(AbsInt(n), o.instrument.lotSize, o.price) > 0.0
  {
    if n == 0 then None
    else
      var side := if n > 0 then Buy else Sell;
      Some(IntentData(sizing.idOf(o.instrument.secid, side, AbsInt(n)), o.instrument, side, AbsInt(n), o.price,
                      Money(AbsInt(n), o.instrument.lotSize, o.price), rationale, Shorts(current, current + n), "limit"))
  }

  lemma BuiltIsRight(o: Observation, current: int, wanted: int, sizing: Sizing, rationale: string)
    requires AimedLots(current, wanted) != current
    ensures var n := SizedLots(current, wanted, o.instrument.lotSize, o.price, sizing);
            && (n != 0 ==> Money(AbsInt(n), o.instrument.lotSize, o.price) > 0.0)
            && GapIsRight(Built(o, current, n, sizing, rationale), o, current, AimedLots(current, wanted), sizing, rationale)
  {
    var n := SizedLots(current, wanted, o.instrument.lotSize, o.price, sizing);
    SizedIsRight(o, current, AimedLots(current, wanted), wanted, sizing);
    CostMeans(AbsInt(n), o);
    if n != 0 {
      Positive(AbsInt(n), o.instrument.lotSize, o.price);
    }
  }

  lemma PricedOrderIsRight(h: Holdings, equity: real, targets: seq<Target>, market: map<string, Observation>, sizing: Sizing,
                           secid: string)
    requires secid in market && market[secid].instrument.secid == secid
    ensures var o := market[secid];
            PricedIsRight(OrderFor(h, equity, targets, market, sizing, secid), h, market, sizing, secid,
                          WantedLots(equity, WeightOf(targets, secid), o), RoundPrice(o.instrument, o.price),
                          RationaleOf(targets, secid))
  {
    var i, current := market[secid].instrument, Lots(h.lots, secid);
    var wanted, price := WantedLots(equity, WeightOf(targets, secid), market[secid]), RoundPrice(i, market[secid].price);
    AimMeans(current, wanted);
    if AimedLots(current, wanted) != current && price > 0.0 {
      BuiltIsRight(ObservationData(i, price), current, wanted, sizing, RationaleOf(targets, secid));
      OrderIsBuilt(h, equity, targets, market, sizing, secid);
    }
  }

  lemma OrderIsBuilt(h: Holdings, equity: real, targets: seq<Target>, market: map<string, Observation>, sizing: Sizing,
                     secid: string)
    requires secid in market && market[secid].instrument.secid == secid
    requires RoundPrice(market[secid].instrument, market[secid].price) > 0.0
    requires var o, current := market[secid], Lots(h.lots, secid);
             var wanted := WantedLots(equity, WeightOf(targets, secid), o);
             var n := SizedLots(current, wanted, o.instrument.lotSize, RoundPrice(o.instrument, o.price), sizing);
             && AimedLots(current, wanted) != current
             && (n != 0 ==> Money(AbsInt(n), o.instrument.lotSize, RoundPrice(o.instrument, o.price)) > 0.0)
    ensures var o, current := market[secid], Lots(h.lots, secid);
            var price, wanted := RoundPrice(o.instrument, o.price), WantedLots(equity, WeightOf(targets, secid), o);
            OrderFor(h, equity, targets, market, sizing, secid) ==
            Ok(Built(ObservationData(o.instrument, price), current,
                     SizedLots(current, wanted, o.instrument.lotSize, price, sizing), sizing, RationaleOf(targets, secid)))
  {
  }

  lemma EveryOrderIsRight(h: Holdings, equity: real, targets: seq<Target>, market: map<string, Observation>, sizing: Sizing,
                          secid: string)
    requires secid in market ==> market[secid].instrument.secid == secid
    ensures OrderIsRight(OrderFor(h, equity, targets, market, sizing, secid), h, equity, targets, market, sizing, secid)
  {
    if secid in market {
      var o, weight := market[secid], WeightOf(targets, secid);
      var wanted := WantedLots(equity, weight, o);
      TargetMeans(targets, secid);
      WantedIff(equity, weight, o, wanted);
      TickRoundIsNearest(o.price, o.instrument.tickSize);
      PricedOrderIsRight(h, equity, targets, market, sizing, secid);
      RightWith(OrderFor(h, equity, targets, market, sizing, secid), h, equity, targets, market, sizing, secid, weight,
                RationaleOf(targets, secid), wanted, RoundPrice(o.instrument, o.price));
    }
  }

  lemma RightWith(r: Result<Option<OrderIntent>>, h: Holdings, equity: real, targets: seq<Target>,
                  market: map<string, Observation>, sizing: Sizing, secid: string, weight: real, rationale: string,
                  wanted: int, price: real)
    requires secid in market && IsTarget(targets, secid, weight, rationale)
    requires IsWanted(PartOf(equity, weight), market[secid], wanted) && IsNearest(market[secid], price)
    requires PricedIsRight(r, h, market, sizing, secid, wanted, price, rationale)
    ensures OrderIsRight(r, h, equity, targets, market, sizing, secid)
  {
  }

  // ---------------------------------------------------------------- the plan

  /** The securities of a plan that get an order, in the order of the plan. */
  ghost predicate AreOrdered(sources: seq<nat>, secids: seq<string>) {
    && (forall k :: 0 <= k < |sources| ==> sources[k] < |secids|)
    && (forall j, k :: 0 <= j < k < |sources| ==> sources[j] < sources[k])
  }

  /** The orders are those of exactly the securities that get one. */
  ghost predicate AreTheirs(orders: seq<OrderIntent>, sources: seq<nat>, h: Holdings, equity: real, targets: seq<Target>,
                            market: map<string, Observation>, sizing: Sizing, secids: seq<string>)
    requires AreOrdered(sources, secids)
  {
    && |orders| == |sources|
    && (forall k :: 0 <= k < |orders| ==>
                      OrderFor(h, equity, targets, market, sizing, secids[sources[k]]) == Ok(Some(orders[k])))
    && (forall i: nat :: i < |secids| && i !in sources ==> OrderFor(h, equity, targets, market, sizing, secids[i]) == Ok(None))
  }

  lemma {:induction false} PlanIsComplete(h: Holdings, equity: real, targets: seq<Target>, market: map<string, Observation>,
                                          sizing: Sizing, secids: seq<string>) returns (sources: seq<nat>)
    requires Orders(h, equity, targets, market, sizing, secids).Ok?
    ensures AreOrdered(sources, secids)
    ensures AreTheirs(Orders(h, equity, targets, market, sizing, secids).value, sources, h, equity, targets, market, sizing,
                      secids)
  {
    if secids == [] {
      sources := [];
    } else {
      var before := PlanIsComplete(h, equity, targets, market, sizing, secids[..|secids| - 1]);
      sources := OneMoreSecurity(h, equity, targets, market, sizing, secids, before);
    }
  }

  lemma OneMoreSecurity(h: Holdings, equity: real, targets: seq<Target>, market: map<string, Observation>, sizing: Sizing,
                        secids: seq<string>, before: seq<nat>) returns (sources: seq<nat>)
    requires secids != [] && Orders(h, equity, targets, market, sizing, secids).Ok?
    requires AreOrdered(before, secids[..|secids| - 1])
    requires AreTheirs(Orders(h, equity, targets, market, sizing, secids[..|secids| - 1]).value, before, h, equity, targets,
                       market, sizing, secids[..|secids| - 1])
    ensures AreOrdered(sources, secids)
    ensures AreTheirs(Orders(h, equity, targets, market, sizing, secids).value, sources, h, equity, targets, market, sizing,
                      secids)
  {
    var n := |secids| - 1;
    assert forall i :: 0 <= i < n ==> secids[..n][i] == secids[i];
    if OrderFor(h, equity, targets, market, sizing, secids[n]).value.None? {
      sources := before;
    } else {
      sources := before + [n];
      assert sources[|before|] == n;
      assert forall i :: i in sources <==> i in before || i == n;
    }
  }

  /** A plan fails exactly if one of its orders does. */
  lemma {:induction false} PlanFailsIff(h: Holdings, equity: real, targets: seq<Target>, market: map<string, Observation>,
                                        sizing: Sizing, secids: seq<string>)
    ensures Orders(h, equity, targets, market, sizing, secids).Err? <==>
            exists i :: 0 <= i < |secids| && OrderFor(h, equity, targets, market, sizing, secids[i]).Err?
  {
    if secids != [] {
      var n := |secids| - 1;
      PlanFailsIff(h, equity, targets, market, sizing, secids[..n]);
      assert forall i :: 0 <= i < n ==> secids[..n][i] == secids[i];
    }
  }
}
