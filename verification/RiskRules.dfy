/**
 The rules of the risk gate one by one, as conditions on the account before and after an order. An order
 is allowed exactly when none of them stands against it, and everything a whole plan accepts obeys them.
 */
module RiskRules {
  import opened Domain
  import opened Sums
  import opened RiskGate
  import opened Harness
  import opened HarnessTheorems

  // ---------------------------------------------------------------- before and after

  function Before(o: OrderIntent, p: Portfolio): int {
    if o.instrument.secid in p.positions then p.positions[o.instrument.secid].lots else 0
  }

  function AfterOrder(o: OrderIntent, p: Portfolio): int {
    if o.side == Buy then Before(o, p) + o.lots else Before(o, p) - o.lots
  }

  /** Closer to zero, and not beyond. */
  predicate Closes(before: int, after: int) {
    0 <= after < before || before < after <= 0
  }

  /** Through zero to the other side. */
  predicate Crosses(before: int, after: int) {
    (before > 0 && after < 0) || (before < 0 && after > 0)
  }

  predicate OpensShort(o: OrderIntent, p: Portfolio) {
    AfterOrder(o, p) < 0 && AfterOrder(o, p) < Before(o, p)
  }

  /** The lots of the order's security that may not be traded. */
  function BlockedLots(o: OrderIntent, p: Portfolio): int {
    if o.instrument.secid in p.positions then p.positions[o.instrument.secid].blocked else 0
  }

  /** The worth of lots at the limit price of an order. */
  function Value(o: OrderIntent, lots: int): real {
    (if lots < 0 then -lots * o.instrument.lotSize else lots * o.instrument.lotSize) as real * o.limitPrice
  }

  function ShortValue(o: OrderIntent, lots: int): real {
    if lots < 0 then Value(o, lots) else 0.0
  }

  /** An exposure that the order adds to is above its share of the equity. */
  predicate Exceeds(o: OrderIntent, p: Portfolio, exposure: real, weight: real, equity: real) {
    equity > 0.0 && !Closes(Before(o, p), AfterOrder(o, p)) && Max(0.0, exposure) / equity > weight
  }

  // ---------------------------------------------------------------- the rules

  predicate Stands(reason: Reason, o: OrderIntent, p: Portfolio, t: Trackers, g: Gate) {
    match reason
    case GeoBlocked => o.instrument.secid in g.blocked && !Closes(Before(o, p), AfterOrder(o, p))
    case NotionalLimit => o.notional > g.config.maxOrderNotional
    case TurnoverLimit => p.dailyTurnover + o.notional > g.config.maxDailyTurnover
    case OpenOrderLimit => p.openOrders + 1 > g.config.maxOpenOrders
    case UnreconciledOrders => p.openOrders >= 1 && "t_invest" <= p.source
    case Reversal => Crosses(Before(o, p), AfterOrder(o, p))
    case ShortingDisabled => OpensShort(o, p) && !(g.config.shortsEnabled && g.config.allowMargin)
    case NotShortEnabled => OpensShort(o, p) && !o.instrument.shortEnabled
    case MarginUnconfirmed => OpensShort(o, p) && !o.confirmMarginTrade
    case MarginNotNeeded => !OpensShort(o, p) && o.confirmMarginTrade
    case LongIsBlocked => BlockedLots(o, p) > 0 && o.side == Sell && Before(o, p) > 0 && AfterOrder(o, p) < BlockedLots(o, p)
    case ShortIsBlocked => BlockedLots(o, p) > 0 && o.side == Buy && Before(o, p) < 0 && -AfterOrder(o, p) < BlockedLots(o, p)
    case InsufficientCash =>
      o.side == Buy && (p.cash - o.notional < 0.0 || p.cash - o.notional < g.config.minCashReserve * g.equity)
    case NoEquity => g.equity <= 0.0
    case CriticalMode => g.equity > 0.0 && g.critical && Value(o, AfterOrder(o, p)) > Value(o, Before(o, p))
    case PositionLimit =>
      Exceeds(o, p, Value(o, AfterOrder(o, p)),
              if AfterOrder(o, p) < 0 then g.config.maxShortPositionWeight else g.config.maxPositionWeight, g.equity)
    case GrossLimit =>
      Exceeds(o, p, t.gross + Value(o, AfterOrder(o, p)) - Value(o, Before(o, p)), g.config.maxGrossExposure, g.equity)
    case ShortLimit =>
      Exceeds(o, p, t.short + ShortValue(o, AfterOrder(o, p)) - ShortValue(o, Before(o, p)), g.config.maxShortGross, g.equity)
    case SectorLimit =>
      Exceeds(o, p, At(t.sectors, o.instrument.sector) + Value(o, AfterOrder(o, p)) - Value(o, Before(o, p)),
              g.config.maxSectorWeight, g.equity)
    case ClusterLimit =>
      Exceeds(o, p, At(t.clusters, o.instrument.riskCluster) + Value(o, AfterOrder(o, p)) - Value(o, Before(o, p)),
              g.config.maxClusterWeight, g.equity)
  }

  // ---------------------------------------------------------------- the gate checks these rules

  lemma LotsMean(o: OrderIntent, p: Portfolio)
    ensures Before(o, p) == Current(o, p) && AfterOrder(o, p) == Resulting(o, p)
    ensures Closes(Before(o, p), AfterOrder(o, p)) <==> Reduces(Current(o, p), Resulting(o, p))
    ensures OpensShort(o, p) <==> Shorts(Current(o, p), Resulting(o, p))
    ensures Reverses(o, p) <==> Crosses(Before(o, p), AfterOrder(o, p))
  {
    ProductIsNegative(Current(o, p), Resulting(o, p));
  }

  lemma ValueMeans(o: OrderIntent, lots: int)
    ensures Value(o, lots) == Worth(lots, o.instrument.lotSize, o.limitPrice) >= 0.0
    ensures ShortValue(o, lots) == Part(ShortSide, o.instrument, lots, o.limitPrice)
  {
    AbsScales(lots, o.instrument.lotSize);
    WorthIsNotNegative(lots, o.instrument.lotSize, o.limitPrice);
  }

  /** Comparing a quotient with a weight is comparing with the share of the equity. */
  lemma QuotientMeans(x: real, equity: real, weight: real)
    requires equity > 0.0
    ensures x / equity > weight <==> x > Share(weight, equity)
  {
    var q := x / equity;
    assert q * equity == x;
    if q > weight {
      assert q * equity > weight * equity;
    } else {
      assert q * equity <= weight * equity;
    }
  }

  lemma BudgetsMean(o: OrderIntent, p: Portfolio, t: Trackers, g: Gate, x: Reason)
    requires x.NotionalLimit? || x.TurnoverLimit? || x.OpenOrderLimit? || x.UnreconciledOrders?
    ensures FoundBudget(x, o, p, g) <==> Stands(x, o, p, t, g)
  {
  }

  lemma ShortsMean(o: OrderIntent, p: Portfolio, t: Trackers, g: Gate, x: Reason)
    requires x.ShortingDisabled? || x.NotShortEnabled? || x.MarginUnconfirmed? || x.MarginNotNeeded?
    ensures FoundShort(x, o, p, g.config) <==> Stands(x, o, p, t, g)
  {
    LotsMean(o, p);
  }

  lemma BlockedMeans(o: OrderIntent, p: Portfolio, t: Trackers, g: Gate, x: Reason)
    requires x.LongIsBlocked? || x.ShortIsBlocked?
    ensures FoundBlocked(x, o, p) <==> Stands(x, o, p, t, g)
  {
  }

  lemma CashMeans(o: OrderIntent, p: Portfolio, t: Trackers, g: Gate)
    ensures !CashOk(o, p, g) <==> Stands(InsufficientCash, o, p, t, g)
  {
    ReserveMeans(o.notional, p.cash, g.config.minCashReserve * g.equity);
  }

  lemma ReserveMeans(notional: real, cash: real, share: real)
    requires notional > 0.0
    ensures notional > Max(0.0, cash - Max(0.0, share)) <==> cash - notional < 0.0 || cash - notional < share
  {
  }

  lemma ExposureMeans(o: OrderIntent, p: Portfolio, t: Trackers, g: Gate, group: Group, exposure: real)
    requires g.equity > 0.0 && Projected(o, p, t, group) == Max(0.0, exposure)
    ensures !ExposureOk(o, p, t, g, group) <==> Exceeds(o, p, exposure, Cap(g.config, group), g.equity)
  {
    LotsMean(o, p);
    QuotientMeans(Max(0.0, exposure), g.equity, Cap(g.config, group));
  }

  lemma PositionMeans(o: OrderIntent, p: Portfolio, t: Trackers, g: Gate)
    requires g.equity > 0.0
    ensures !PositionOk(o, p, g) <==> Stands(PositionLimit, o, p, t, g)
  {
    LotsMean(o, p);
    ValueMeans(o, AfterOrder(o, p));
    QuotientMeans(Value(o, AfterOrder(o, p)), g.equity,
                  if AfterOrder(o, p) < 0 then g.config.maxShortPositionWeight else g.config.maxPositionWeight);
  }

  lemma ExposuresMean(o: OrderIntent, p: Portfolio, t: Trackers, g: Gate, x: Reason)
    requires x.CriticalMode? || x.PositionLimit? || x.GrossLimit? || x.ShortLimit? || x.SectorLimit? || x.ClusterLimit?
    ensures g.equity > 0.0 && FoundExposure(x, o, p, t, g) <==> Stands(x, o, p, t, g)
  {
    LotsMean(o, p);
    var a, b := Before(o, p), AfterOrder(o, p);
    ValueMeans(o, a);
    ValueMeans(o, b);
    if g.equity > 0.0 {
      PositionMeans(o, p, t, g);
      ExposureMeans(o, p, t, g, Everything, t.gross + Value(o, b) - Value(o, a));
      ExposureMeans(o, p, t, g, ShortSide, t.short + ShortValue(o, b) - ShortValue(o, a));
      ExposureMeans(o, p, t, g, Sector(o.instrument.sector), At(t.sectors, o.instrument.sector) + Value(o, b) - Value(o, a));
      ExposureMeans(o, p, t, g, Cluster(o.instrument.riskCluster),
                    At(t.clusters, o.instrument.riskCluster) + Value(o, b) - Value(o, a));
    }
  }

  /** Each reason is given by one check of the gate. */
  lemma BudgetReasons(x: Reason, o: OrderIntent, p: Portfolio, t: Trackers, g: Gate)
    requires !Blocked(o, p, g) && (x.NotionalLimit? || x.TurnoverLimit? || x.OpenOrderLimit? || x.UnreconciledOrders?)
    ensures Found(x, o, p, t, g) <==> FoundBudget(x, o, p, g)
  {
  }

  lemma ShortReasons(x: Reason, o: OrderIntent, p: Portfolio, t: Trackers, g: Gate)
    requires !Blocked(o, p, g) && (x.ShortingDisabled? || x.NotShortEnabled? || x.MarginUnconfirmed? || x.MarginNotNeeded?)
    ensures Found(x, o, p, t, g) <==> FoundShort(x, o, p, g.config)
  {
  }

  lemma BlockedReasons(x: Reason, o: OrderIntent, p: Portfolio, t: Trackers, g: Gate)
    requires !Blocked(o, p, g) && (x.LongIsBlocked? || x.ShortIsBlocked?)
    ensures Found(x, o, p, t, g) <==> FoundBlocked(x, o, p)
  {
  }

  lemma ExposureReasons(x: Reason, o: OrderIntent, p: Portfolio, t: Trackers, g: Gate)
    requires !Blocked(o, p, g)
    requires x.CriticalMode? || x.PositionLimit? || x.GrossLimit? || x.ShortLimit? || x.SectorLimit? || x.ClusterLimit?
    ensures Found(x, o, p, t, g) <==> g.equity > 0.0 && FoundExposure(x, o, p, t, g)
  {
  }

  lemma FoundMeans(x: Reason, o: OrderIntent, p: Portfolio, t: Trackers, g: Gate)
    requires !Blocked(o, p, g)
    ensures Found(x, o, p, t, g) <==> x != GeoBlocked && Stands(x, o, p, t, g)
  {
    match x
    case NotionalLimit | TurnoverLimit | OpenOrderLimit | UnreconciledOrders =>
      BudgetReasons(x, o, p, t, g);
      BudgetsMean(o, p, t, g, x);
    case ShortingDisabled | NotShortEnabled | MarginUnconfirmed | MarginNotNeeded =>
      ShortReasons(x, o, p, t, g);
      ShortsMean(o, p, t, g, x);
    case LongIsBlocked | ShortIsBlocked =>
      BlockedReasons(x, o, p, t, g);
      BlockedMeans(o, p, t, g, x);
    case CriticalMode | PositionLimit | GrossLimit | ShortLimit | SectorLimit | ClusterLimit =>
      ExposureReasons(x, o, p, t, g);
      ExposuresMean(o, p, t, g, x);
    case InsufficientCash => CashMeans(o, p, t, g);
    case Reversal => LotsMean(o, p);
    case GeoBlocked =>
    case NoEquity =>
  }

  /** The gate gives exactly the reasons that stand, or the geopolitical one alone. */
  lemma FoundIff(reason: Reason, o: OrderIntent, p: Portfolio, t: Trackers, g: Gate)
    ensures Found(reason, o, p, t, g) <==>
            Stands(reason, o, p, t, g) && (reason == GeoBlocked || !Stands(GeoBlocked, o, p, t, g))
  {
    LotsMean(o, p);
    if !Blocked(o, p, g) {
      FoundMeans(reason, o, p, t, g);
    }
  }

  /** An order is allowed exactly when no rule stands against it. */
  lemma AllowedIff(o: OrderIntent, p: Portfolio, t: Trackers, g: Gate)
    ensures Allowed(o, p, t, g) <==> forall reason :: !Stands(reason, o, p, t, g)
  {
    AllowedWithoutReason(o, p, t, g);
    forall reason ensures Found(reason, o, p, t, g) <==>
                          Stands(reason, o, p, t, g) && (reason == GeoBlocked || !Stands(GeoBlocked, o, p, t, g))
    {
      FoundIff(reason, o, p, t, g);
    }
  }

  // ---------------------------------------------------------------- a whole plan

  /** What an accepted order does to the portfolio, and to nothing else of it. */
  ghost predicate Moves(o: OrderIntent, p: Portfolio, next: Portfolio) {
    && next.cash == (if o.side == Buy then p.cash - o.notional else p.cash + o.notional)
    && next.dailyTurnover == p.dailyTurnover + o.notional && next.openOrders == p.openOrders + 1
    && next.blockedCash == p.blockedCash && next.reportedEquity == p.reportedEquity
    && (next.source == p.source || ("t_invest" <= p.source && next.source == "projected:" + p.source))
    && (next.source == p.source ==> !("t_invest" <= p.source))
    && (forall secid :: secid != o.instrument.secid ==> (secid in next.positions <==> secid in p.positions))
    && (forall secid :: secid in p.positions && secid != o.instrument.secid ==> next.positions[secid] == p.positions[secid])
    && (o.instrument.secid in next.positions <==> AfterOrder(o, p) != 0)
    && (AfterOrder(o, p) != 0 ==>
          next.positions[o.instrument.secid] ==
          PositionData(if o.instrument.secid in p.positions then p.positions[o.instrument.secid].instrument else o.instrument,
                       AfterOrder(o, p), BlockedLots(o, p)))
  }

  /** One order of a plan: refused without a trace if a rule stands, and otherwise accepted and projected. */
  lemma StepObeysTheRules(s: Account, g: Gate, o: OrderIntent)
    ensures OrderIsRight(s, g, o, Step(s, g, o))
  {
    AllowedIff(o, s.portfolio, s.trackers, g);
    LotsMean(o, s.portfolio);
    assert ("projected:" + s.portfolio.source)[0] == 'p' && "t_invest"[0] == 't';
  }

  /** What one order does to an account: nothing if a rule stands against it, and otherwise it is accepted. */
  ghost predicate OrderIsRight(s: Account, g: Gate, o: OrderIntent, next: Account) {
    if exists reason :: Stands(reason, o, s.portfolio, s.trackers, g) then next == s
    else next.accepted == s.accepted + [o] && Moves(o, s.portfolio, next.portfolio)
  }

  /** Every order of a plan in turn, on the account that the orders before it left. */
  lemma EveryOrderIsRight(s: Account, g: Gate, plan: seq<OrderIntent>, k: nat)
    requires k < |plan|
    ensures Run(s, g, []) == s && OrderIsRight(Run(s, g, plan[..k]), g, plan[k], Run(s, g, plan[..k + 1]))
  {
    assert plan[..k + 1][..k] == plan[..k];
    StepObeysTheRules(Run(s, g, plan[..k]), g, plan[k]);
  }

  /** What holds of every order that a gate accepts, whatever came before it. */
  predicate Obeys(o: OrderIntent, g: Gate) {
    && o.notional <= g.config.maxOrderNotional && g.equity > 0.0
    && (o.confirmMarginTrade ==>
          && o.side == Sell && o.instrument.shortEnabled && g.config.shortsEnabled && g.config.allowMargin
          && o.instrument.secid !in g.blocked)
  }

  lemma AcceptedObeys(s: Account, g: Gate, o: OrderIntent)
    requires Allowed(o, s.portfolio, s.trackers, g)
    ensures Obeys(o, g)
  {
    AllowedIff(o, s.portfolio, s.trackers, g);
    var p, t := s.portfolio, s.trackers;
    assert !Stands(NotionalLimit, o, p, t, g) && !Stands(NoEquity, o, p, t, g) && !Stands(MarginNotNeeded, o, p, t, g);
    assert !Stands(ShortingDisabled, o, p, t, g) && !Stands(NotShortEnabled, o, p, t, g) && !Stands(GeoBlocked, o, p, t, g);
  }

  /** Every order that a whole plan adds is within the order limit, and a short only where shorts are enabled. */
  lemma {:induction false} WholePlanObeys(s: Account, g: Gate, plan: seq<OrderIntent>)
    ensures var accepted := Run(s, g, plan).accepted;
            s.accepted <= accepted && forall o :: o in accepted[|s.accepted|..] ==> o in plan && Obeys(o, g)
  {
    if plan != [] {
      var n := |plan| - 1;
      WholePlanObeys(s, g, plan[..n]);
      var before := Run(s, g, plan[..n]);
      if Allowed(plan[n], before.portfolio, before.trackers, g) {
        AcceptedObeys(before, g, plan[n]);
        assert (before.accepted + [plan[n]])[|s.accepted|..] == before.accepted[|s.accepted|..] + [plan[n]];
      }
    }
  }
}
