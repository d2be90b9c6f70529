/**
 The projection loop of `TradingHarness.run` (src/moex_bot/harness.py): accepted orders move the projected
 portfolio and four kinds of exposure trackers, one order at a time.
 */
module Harness {
  import opened Domain
  import opened Sums
  import opened RiskGate

  datatype Account = Account(portfolio: Portfolio, trackers: Trackers, accepted: seq<OrderIntent>)

  /** The position after an accepted order; a closed one disappears. */
  function NextPositions(o: OrderIntent, p: Portfolio): map<string, Position>
    requires !Reverses(o, p) && Unblocked(o, p)
  {
    var secid := o.instrument.secid;
    var lots := Resulting(o, p);
    if lots == 0 then p.positions - {secid}
    else
      BlockedLotsStay(o, p);
      var current := if secid in p.positions then p.positions[secid] else PositionData(o.instrument, 0, 0);
      p.positions[secid := PositionData(current.instrument, lots, current.blocked)]
  }

  /** The constructor's check on blocked lots cannot fail for an order that passed the gate. */
  lemma BlockedLotsStay(o: OrderIntent, p: Portfolio)
    requires !Reverses(o, p) && Unblocked(o, p)
    ensures o.instrument.secid in p.positions ==>
              p.positions[o.instrument.secid].blocked <= AbsInt(Resulting(o, p))
  {
    SignsAgree(Current(o, p), Resulting(o, p));
  }

  lemma SignsAgree(a: int, b: int)
    requires a * b >= 0
    ensures a > 0 ==> b >= 0
    ensures a < 0 ==> b <= 0
  {
  }

  function NextSource(source: string): string {
    if "t_invest" <= source then "projected:" + source else source
  }

  function NextPortfolio(o: OrderIntent, p: Portfolio, t: Trackers, g: Gate): Portfolio
    requires Allowed(o, p, t, g)
  {
    p.(cash := if o.side == Buy then p.cash - o.notional else p.cash + o.notional,
       positions := NextPositions(o, p),
       dailyTurnover := p.dailyTurnover + o.notional,
       openOrders := p.openOrders + 1,
       source := NextSource(p.source))
  }

  function NextTrackers(o: OrderIntent, p: Portfolio, t: Trackers): Trackers {
    var sector, cluster := o.instrument.sector, o.instrument.riskCluster;
    Trackers(
      Projected(o, p, t, Everything), Projected(o, p, t, ShortSide),
      t.sectors[sector := Projected(o, p, t, Sector(sector))],
      t.clusters[cluster := Projected(o, p, t, Cluster(cluster))])
  }

  function Step(s: Account, g: Gate, o: OrderIntent): Account {
    if Allowed(o, s.portfolio, s.trackers, g) then
      Account(NextPortfolio(o, s.portfolio, s.trackers, g), NextTrackers(o, s.portfolio, s.trackers), s.accepted + [o])
    else s
  }

  function Run(s: Account, g: Gate, plan: seq<OrderIntent>): Account {
    if plan == [] then s else Step(Run(s, g, plan[..|plan| - 1]), g, plan[|plan| - 1])
  }

  /** The loop itself. */
  method RunPlan(portfolio: Portfolio, trackers: Trackers, g: Gate, plan: seq<OrderIntent>)
    returns (projected: Portfolio, tracked: Trackers, orders: seq<OrderIntent>, rejected: nat)
    ensures Account(projected, tracked, orders) == Run(Account(portfolio, trackers, []), g, plan)
    ensures |orders| + rejected == |plan|
  {
    projected, tracked, orders, rejected := portfolio, trackers, [], 0;
    for k := 0 to |plan|
      invariant Account(projected, tracked, orders) == Run(Account(portfolio, trackers, []), g, plan[..k])
      invariant |orders| + rejected == k
    {
      assert plan[..k + 1][..k] == plan[..k];
      var reasons := EvaluateIntent(plan[k], projected, tracked, g);
      if reasons != [] {
        rejected := rejected + 1;
      } else {
        orders := orders + [plan[k]];
        projected, tracked := Accept(plan[k], projected, tracked, g);
      }
    }
    assert plan[..|plan|] == plan;
  }

  /** The updates after an accepted order. */
  method Accept(o: OrderIntent, p: Portfolio, t: Trackers, g: Gate) returns (next: Portfolio, tracked: Trackers)
    requires Allowed(o, p, t, g)
    ensures next == NextPortfolio(o, p, t, g) && tracked == NextTrackers(o, p, t)
  {
    var i := o.instrument;
    var current, resulting := Current(o, p), Resulting(o, p);
    var positions := p.positions;
    if resulting == 0 {
      positions := positions - {i.secid};
    } else {
      var position := if i.secid in positions then positions[i.secid] else PositionData(i, 0, 0);
      BlockedLotsStay(o, p);
      positions := positions[i.secid := PositionData(position.instrument, resulting, position.blocked)];
    }
    var currentAbs := Worth(current, i.lotSize, o.limitPrice);
    var resultingAbs := Worth(resulting, i.lotSize, o.limitPrice);
    var currentShort := if current < 0 then currentAbs else 0.0;
    var resultingShort := if resulting < 0 then resultingAbs else 0.0;
    tracked := Trackers(
      Max(0.0, t.gross + resultingAbs - currentAbs),
      Max(0.0, t.short + resultingShort - currentShort),
      t.sectors[i.sector := Max(0.0, At(t.sectors, i.sector) + resultingAbs - currentAbs)],
      t.clusters[i.riskCluster := Max(0.0, At(t.clusters, i.riskCluster) + resultingAbs - currentAbs)]);
    next := p.(
      cash := if o.side == Buy then p.cash - o.notional else p.cash + o.notional,
      positions := positions, dailyTurnover := p.dailyTurnover + o.notional, openOrders := p.openOrders + 1,
      source := NextSource(p.source));
  }
}
