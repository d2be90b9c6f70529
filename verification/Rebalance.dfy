/**
 Order sizing of src/moex_bot/execution.py: `build_order_intents` turns target weights into orders that
 never take a position through zero, and repeating it converges.
 */
module Rebalance {
  import opened Domain
  import opened Sums
  import Texts

  datatype Target = Target(secid: string, weight: real, rationale: string)

  datatype ObservationData = ObservationData(instrument: Instrument, price: real)

  type Observation = o: ObservationData | o.price > 0.0
    witness ObservationData(InstrumentData("S", "U", 1, 1.0, "RUB", "I", "S", "C", "share", false), 1.0)

  /** Cash including blocked cash, signed lots by security, and what the broker reports as equity. */
  datatype Holdings = Holdings(cash: real, lots: map<string, int>, reported: Option<real>)

  /** The limits of a run and the identity of its orders. */
  datatype Sizing = Sizing(minTrade: real, maxOrder: Option<real>, idOf: (string, Side, int) -> string)

  function Money(lots: int, lotSize: int, price: real): real {
    (lots * lotSize) as real * price
  }

  function Values(lots: map<string, int>, market: map<string, Observation>): map<string, real> {
    map secid | secid in lots && secid in market ::
      Money(lots[secid], market[secid].instrument.lotSize, market[secid].price)
  }

  /** `PortfolioSnapshot.equity` */
  ghost function Equity(h: Holdings, market: map<string, Observation>): real {
    var total := h.cash + Total(Values(h.lots, market));
    if h.reported.Some? && h.reported.value > 0.0 then Min(total, h.reported.value) else total
  }

  /** `round_price`: to the nearest tick, halves up. */
  function RoundPrice(i: Instrument, price: real): real {
    TickRound(price, i.tickSize)
  }

  /** The lots a target weight asks for, before the zero-crossing rule. */
  function WantedLots(equity: real, weight: real, o: Observation): int {
    var value := equity * weight;
    var lots := LotsWithin(Abs(value), o.instrument.lotSize, o.price);
    if value < 0.0 then -lots else lots
  }

  /** `int(amount // (lot_size * price))` */
  function LotsWithin(amount: real, lotSize: int, price: real): int {
    if Money(1, lotSize, price) <= 0.0 then 0 else (amount / Money(1, lotSize, price)).Floor
  }

  /** A position of the other sign is closed first. */
  function AimedLots(current: int, wanted: int): int {
    if current * wanted < 0 then 0 else wanted
  }

  /** The lots of a gap that one order may trade. */
  function MostLots(gap: int, lotSize: int, price: real, sizing: Sizing): int {
    if sizing.maxOrder.None? then gap else MinInt(gap, LotsWithin(sizing.maxOrder.value, lotSize, price))
  }

  /** The signed lots of the order, zero for none; `price` is the rounded price. */
  function SizedLots(current: int, wanted: int, lotSize: int, price: real, sizing: Sizing): int {
    var delta := AimedLots(current, wanted) - current;
    var lots := MostLots(AbsInt(delta), lotSize, price, sizing);
    if delta == 0 || lots <= 0 || Money(lots, lotSize, price) < sizing.minTrade then 0
    else if delta > 0 then lots else -lots
  }

  function WeightOf(targets: seq<Target>, secid: string): real {
    if targets == [] then 0.0
    else if targets[|targets| - 1].secid == secid then targets[|targets| - 1].weight
    else WeightOf(targets[..|targets| - 1], secid)
  }

  function RationaleOf(targets: seq<Target>, secid: string): string {
    if targets == [] then "exit target"
    else if targets[|targets| - 1].secid == secid then targets[|targets| - 1].rationale
    else RationaleOf(targets[..|targets| - 1], secid)
  }

  /** The order for one security, if any. A price that rounds to zero is an error unless the order is too small anyway. */
  function OrderFor(h: Holdings, equity: real, targets: seq<Target>, market: map<string, Observation>, sizing: Sizing,
                    secid: string): Result<Option<OrderIntent>>
  {
    if secid !in market then Ok(None)
    else
      var o := market[secid];
      var i := o.instrument;
      var current := Lots(h.lots, secid);
      var wanted := WantedLots(equity, WeightOf(targets, secid), o);
      var price := RoundPrice(i, o.price);
      if AimedLots(current, wanted) == current then Ok(None)
      else if price <= 0.0 then
        if sizing.maxOrder.None? && 0.0 < sizing.minTrade then Ok(None) else Err("price rounds to zero")
      else
        var n := SizedLots(current, wanted, i.lotSize, price, sizing);
        if n == 0 then Ok(None)
        else if Money(AbsInt(n), i.lotSize, price) <= 0.0 then Err("price and notional must be positive")
        else
          var side := if n > 0 then Buy else Sell;
          Ok(Some(IntentData(sizing.idOf(secid, side, AbsInt(n)), i, side, AbsInt(n), price,
                             Money(AbsInt(n), i.lotSize, price), RationaleOf(targets, secid),
                             Shorts(current, current + n), "limit")))
  }

  /** The orders for these securities in this order, or the first error. */
  function Orders(h: Holdings, equity: real, targets: seq<Target>, market: map<string, Observation>, sizing: Sizing,
                  secids: seq<string>): Result<seq<OrderIntent>>
  {
    if secids == [] then Ok([])
    else
      var before := Orders(h, equity, targets, market, sizing, secids[..|secids| - 1]);
      var last := OrderFor(h, equity, targets, market, sizing, secids[|secids| - 1]);
      if before.Err? then before
      else if last.Err? then Err(last.error)
      else Ok(before.value + if last.value.None? then [] else [last.value.value])
  }

  // ---------------------------------------------------------------- equity and exits

  ghost predicate Unpriced(h: Holdings, market: map<string, Observation>) {
    exists secid :: secid in h.lots && secid !in market
  }

  /** `PortfolioSnapshot.equity`, which needs a price for every position */
  method EquityOf(h: Holdings, market: map<string, Observation>) returns (r: Result<real>)
    ensures r.Err? <==> Unpriced(h, market)
    ensures r.Ok? ==> r.value == Equity(h, market)
  {
    var total := h.cash;
    var rest := h.lots.Keys;
    ghost var seen: map<string, real> := map[];
    while rest != {}
      invariant rest <= h.lots.Keys
      invariant forall secid :: secid in h.lots && secid !in rest ==> secid in market
      invariant seen == map secid | secid in Values(h.lots, market) && secid !in rest :: Values(h.lots, market)[secid]
      invariant total == h.cash + Total(seen)
      decreases rest
    {
      var secid :| secid in rest;
      if secid !in market {
        return Err("missing price for position");
      }
      var value := Money(h.lots[secid], market[secid].instrument.lotSize, market[secid].price);
      TotalUpdate(seen, secid, value);
      seen := seen[secid := value];
      total := total + value;
      rest := rest - {secid};
    }
    assert seen == Values(h.lots, market);
    return Ok(if h.reported.Some? && h.reported.value > 0.0 then Min(total, h.reported.value) else total);
  }

  function Targeted(targets: seq<Target>): set<string> {
    set t | t in targets :: t.secid
  }

  /** The positions without a target, by name. */
  ghost predicate AreExits(exits: seq<string>, h: Holdings, targets: seq<Target>) {
    Texts.Ascending(exits) && Texts.Elements(exits) == h.lots.Keys - Targeted(targets)
  }

  lemma ExitsAreUnique(a: seq<string>, b: seq<string>, h: Holdings, targets: seq<Target>)
    requires AreExits(a, h, targets) && AreExits(b, h, targets)
    ensures a == b
  {
    Texts.AscendingIsUnique(a, b);
  }

  /**
   `build_order_intents`: fails when a position has no price, and otherwise makes the orders of the exits
   by name, followed by the ranked targets.
   */
  method BuildOrderIntents(h: Holdings, targets: seq<Target>, market: map<string, Observation>, sizing: Sizing)
    returns (r: Result<seq<OrderIntent>>)
    ensures Unpriced(h, market) ==> r.Err?
    ensures !Unpriced(h, market) ==>
              exists exits :: AreExits(exits, h, targets)
                              && r == Orders(h, Equity(h, market), targets, market, sizing, exits + Ranked(targets))
  {
    var equity := EquityOf(h, market);
    if equity.Err? {
      return Err(equity.error);
    }
    var exits := Texts.Sorted(h.lots.Keys - Targeted(targets));
    r := BuildOrders(h, equity.value, targets, market, sizing, exits + Ranked(targets));
    assert AreExits(exits, h, targets);
  }

  /** The loop over the securities. */
  method BuildOrders(h: Holdings, equity: real, targets: seq<Target>, market: map<string, Observation>,
                     sizing: Sizing, secids: seq<string>) returns (r: Result<seq<OrderIntent>>)
    ensures r == Orders(h, equity, targets, market, sizing, secids)
  {
    var intents: seq<OrderIntent> := [];
    for k := 0 to |secids|
      invariant Orders(h, equity, targets, market, sizing, secids[..k]) == Ok(intents)
    {
      assert secids[..k + 1][..k] == secids[..k];
      var order := OrderFor(h, equity, targets, market, sizing, secids[k]);
      if order.Err? {
        ErrorStays(h, equity, targets, market, sizing, secids, k + 1);
        return Err(order.error);
      }
      assert intents + [] == intents;
      if order.value.Some? {
        intents := intents + [order.value.value];
      }
    }
    assert secids[..|secids|] == secids;
    return Ok(intents);
  }

  function Ranked(targets: seq<Target>): (secids: seq<string>)
    ensures |secids| == |targets| && forall i :: 0 <= i < |targets| ==> secids[i] == targets[i].secid
  {
    seq(|targets|, i requires 0 <= i < |targets| => targets[i].secid)
  }

  lemma {:induction false} ErrorStays(h: Holdings, equity: real, targets: seq<Target>, market: map<string, Observation>,
                                      sizing: Sizing, secids: seq<string>, k: nat)
    requires k <= |secids| && Orders(h, equity, targets, market, sizing, secids[..k]).Err?
    ensures Orders(h, equity, targets, market, sizing, secids) == Orders(h, equity, targets, market, sizing, secids[..k])
    decreases |secids| - k
  {
    if k == |secids| {
      assert secids[..k] == secids;
    } else {
      assert secids[..k + 1][..k] == secids[..k];
      ErrorStays(h, equity, targets, market, sizing, secids, k + 1);
    }
  }
}
