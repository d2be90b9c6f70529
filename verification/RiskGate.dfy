/**
 The risk gate of src/moex_bot/risk.py: which order of a plan may be accepted, given the projected
 portfolio and the exposures tracked so far.
 */
module RiskGate {
  import opened Domain
  import opened Sums

  datatype PositionData = PositionData(instrument: Instrument, lots: int, blocked: int)

  type Position = p: PositionData | 0 <= p.blocked <= AbsInt(p.lots)
    witness PositionData(InstrumentData("S", "U", 1, 1.0, "RUB", "I", "S", "C", "share", false), 0, 0)

  datatype PortfolioData = PortfolioData(
    cash: real, positions: map<string, Position>, dailyTurnover: real, openOrders: int, blockedCash: real,
    reportedEquity: Option<real>, source: string)

  type Portfolio = p: PortfolioData | p.cash >= 0.0 && p.blockedCash >= 0.0 && p.openOrders >= 0
    witness PortfolioData(0.0, map[], 0.0, 0, 0.0, None, "file")

  datatype Config = Config(
    maxPositionWeight: real, maxShortPositionWeight: real, maxOrderNotional: real, maxDailyTurnover: real,
    maxOpenOrders: int, maxGrossExposure: real, maxShortGross: real, maxSectorWeight: real, maxClusterWeight: real,
    minCashReserve: real, allowMargin: bool, shortsEnabled: bool)

  /** What a whole plan is judged by. */
  datatype Gate = Gate(config: Config, critical: bool, blocked: set<string>, equity: real)

  /** The four kinds of exposure that are capped. */
  datatype Group = Everything | ShortSide | Sector(sector: string) | Cluster(cluster: string)

  datatype Trackers = Trackers(gross: real, short: real, sectors: map<string, real>, clusters: map<string, real>)

  function Tracked(t: Trackers, group: Group): real {
    match group
    case Everything => t.gross
    case ShortSide => t.short
    case Sector(name) => At(t.sectors, name)
    case Cluster(name) => At(t.clusters, name)
  }

  function Cap(config: Config, group: Group): real {
    match group
    case Everything => config.maxGrossExposure
    case ShortSide => config.maxShortGross
    case Sector(_) => config.maxSectorWeight
    case Cluster(_) => config.maxClusterWeight
  }

  function Worth(lots: int, lotSize: int, price: real): real {
    AbsInt(lots * lotSize) as real * price
  }

  /** A weight of the equity. Comparing `x / equity` with a weight is comparing `x` with this. */
  function Share(weight: real, equity: real): real {
    weight * equity
  }

  predicate InGroup(group: Group, i: Instrument, lots: int) {
    match group
    case Everything => true
    case ShortSide => lots < 0
    case Sector(name) => i.sector == name
    case Cluster(name) => i.riskCluster == name
  }

  /** What a position of `lots` contributes to an exposure. */
  function Part(group: Group, i: Instrument, lots: int, price: real): real {
    if InGroup(group, i, lots) then Worth(lots, i.lotSize, price) else 0.0
  }

  function LotsOf(p: Portfolio, secid: string): int {
    if secid in p.positions then p.positions[secid].lots else 0
  }

  function Current(o: OrderIntent, p: Portfolio): int {
    LotsOf(p, o.instrument.secid)
  }

  function Resulting(o: OrderIntent, p: Portfolio): int {
    Current(o, p) + Signed(o.side, o.lots)
  }

  /** The exposure of a group after the order, clamped at zero. */
  function Projected(o: OrderIntent, p: Portfolio, t: Trackers, group: Group): real {
    Max(0.0, Tracked(t, group) + Part(group, o.instrument, Resulting(o, p), o.limitPrice)
             - Part(group, o.instrument, Current(o, p), o.limitPrice))
  }

  predicate ShortRulesOk(o: OrderIntent, p: Portfolio, config: Config) {
    if Shorts(Current(o, p), Resulting(o, p)) then
      config.shortsEnabled && config.allowMargin && o.instrument.shortEnabled && o.confirmMarginTrade
    else !o.confirmMarginTrade
  }

  /** A closing order leaves the blocked lots of the position alone. */
  predicate Unblocked(o: OrderIntent, p: Portfolio) {
    o.instrument.secid in p.positions ==>
      var position := p.positions[o.instrument.secid];
      var free := MaxInt(0, AbsInt(position.lots) - position.blocked);
      position.blocked != 0 ==>
        && (o.side == Sell && position.lots > 0 ==> o.lots <= free)
        && (o.side == Buy && position.lots < 0 ==> o.lots <= free)
  }

  function Reserve(g: Gate): real {
    Max(0.0, Share(g.config.minCashReserve, g.equity))
  }

  function PositionCap(o: OrderIntent, p: Portfolio, config: Config): real {
    if Resulting(o, p) < 0 then config.maxShortPositionWeight else config.maxPositionWeight
  }

  predicate ExposureOk(o: OrderIntent, p: Portfolio, t: Trackers, g: Gate, group: Group) {
    Reduces(Current(o, p), Resulting(o, p)) || Projected(o, p, t, group) <= Share(Cap(g.config, group), g.equity)
  }

  predicate PositionOk(o: OrderIntent, p: Portfolio, g: Gate) {
    || Reduces(Current(o, p), Resulting(o, p))
    || Worth(Resulting(o, p), o.instrument.lotSize, o.limitPrice) <= Share(PositionCap(o, p, g.config), g.equity)
  }

  predicate Grows(o: OrderIntent, p: Portfolio) {
    Worth(Resulting(o, p), o.instrument.lotSize, o.limitPrice) > Worth(Current(o, p), o.instrument.lotSize, o.limitPrice)
  }

  predicate ExposuresOk(o: OrderIntent, p: Portfolio, t: Trackers, g: Gate) {
    && (g.critical ==> !Grows(o, p)) && PositionOk(o, p, g)
    && ExposureOk(o, p, t, g, Everything) && ExposureOk(o, p, t, g, ShortSide)
    && ExposureOk(o, p, t, g, Sector(o.instrument.sector)) && ExposureOk(o, p, t, g, Cluster(o.instrument.riskCluster))
  }

  predicate Reverses(o: OrderIntent, p: Portfolio) {
    Current(o, p) * Resulting(o, p) < 0
  }

  predicate BudgetsOk(o: OrderIntent, p: Portfolio, g: Gate) {
    && o.notional <= g.config.maxOrderNotional
    && p.dailyTurnover + o.notional <= g.config.maxDailyTurnover
    && p.openOrders < g.config.maxOpenOrders
    && !("t_invest" <= p.source && p.openOrders > 0)
  }

  predicate CashOk(o: OrderIntent, p: Portfolio, g: Gate) {
    o.side == Buy ==> o.notional <= Max(0.0, p.cash - Reserve(g))
  }

  predicate Blocked(o: OrderIntent, p: Portfolio, g: Gate) {
    !Reduces(Current(o, p), Resulting(o, p)) && o.instrument.secid in g.blocked
  }

  /** `evaluate_intent` finds no reason against the order. */
  predicate Allowed(o: OrderIntent, p: Portfolio, t: Trackers, g: Gate) {
    && !Blocked(o, p, g) && BudgetsOk(o, p, g)
    && !Reverses(o, p) && ShortRulesOk(o, p, g.config) && Unblocked(o, p)
    && CashOk(o, p, g) && g.equity > 0.0 && ExposuresOk(o, p, t, g)
  }

  /** The reasons against an order, in the order of the checks. */
  datatype Reason =
    | GeoBlocked | NotionalLimit | TurnoverLimit | OpenOrderLimit | UnreconciledOrders | Reversal
    | ShortingDisabled | NotShortEnabled | MarginUnconfirmed | MarginNotNeeded | LongIsBlocked | ShortIsBlocked
    | InsufficientCash | NoEquity | CriticalMode
    | PositionLimit | GrossLimit | ShortLimit | SectorLimit | ClusterLimit

  /** The checks of `evaluate_intent`, by the reason they give. */
  predicate Found(reason: Reason, o: OrderIntent, p: Portfolio, t: Trackers, g: Gate) {
    if Blocked(o, p, g) then reason == GeoBlocked
    else
      || FoundBudget(reason, o, p, g)
      || (reason == Reversal && Reverses(o, p))
      || FoundShort(reason, o, p, g.config)
      || FoundBlocked(reason, o, p)
      || (reason == InsufficientCash && !CashOk(o, p, g))
      || (reason == NoEquity && g.equity <= 0.0)
      || (g.equity > 0.0 && FoundExposure(reason, o, p, t, g))
  }

  predicate FoundBudget(reason: Reason, o: OrderIntent, p: Portfolio, g: Gate) {
    || (reason == NotionalLimit && o.notional > g.config.maxOrderNotional)
    || (reason == TurnoverLimit && p.dailyTurnover + o.notional > g.config.maxDailyTurnover)
    || (reason == OpenOrderLimit && p.openOrders >= g.config.maxOpenOrders)
    || (reason == UnreconciledOrders && "t_invest" <= p.source && p.openOrders > 0)
  }

  predicate FoundShort(reason: Reason, o: OrderIntent, p: Portfolio, config: Config) {
    if Shorts(Current(o, p), Resulting(o, p)) then
      || (reason == ShortingDisabled && (!config.shortsEnabled || !config.allowMargin))
      || (reason == NotShortEnabled && !o.instrument.shortEnabled)
      || (reason == MarginUnconfirmed && !o.confirmMarginTrade)
    else reason == MarginNotNeeded && o.confirmMarginTrade
  }

  predicate FoundBlocked(reason: Reason, o: OrderIntent, p: Portfolio) {
    o.instrument.secid in p.positions &&
    var position := p.positions[o.instrument.secid];
    var free := MaxInt(0, AbsInt(position.lots) - position.blocked);
    position.blocked != 0 && o.lots > free
    && ((reason == LongIsBlocked && o.side == Sell && position.lots > 0)
        || (reason == ShortIsBlocked && o.side == Buy && position.lots < 0))
  }

  predicate FoundExposure(reason: Reason, o: OrderIntent, p: Portfolio, t: Trackers, g: Gate) {
    || (reason == CriticalMode && g.critical && Grows(o, p))
    || (reason == PositionLimit && !PositionOk(o, p, g))
    || (reason == GrossLimit && !ExposureOk(o, p, t, g, Everything))
    || (reason == ShortLimit && !ExposureOk(o, p, t, g, ShortSide))
    || (reason == SectorLimit && !ExposureOk(o, p, t, g, Sector(o.instrument.sector)))
    || (reason == ClusterLimit && !ExposureOk(o, p, t, g, Cluster(o.instrument.riskCluster)))
  }

  /** `if bad: reasons.append(reason)` */
  function Noted(reasons: seq<Reason>, bad: bool, reason: Reason): (r: seq<Reason>)
    ensures forall x :: x in r <==> x in reasons || (bad && x == reason)
  {
    if bad then reasons + [reason] else reasons
  }

  /** `evaluate_intent`: every reason against the order, none exactly when it is allowed. */
  method EvaluateIntent(o: OrderIntent, p: Portfolio, t: Trackers, g: Gate) returns (reasons: seq<Reason>)
    ensures forall x :: x in reasons <==> Found(x, o, p, t, g)
    ensures reasons == [] <==> Allowed(o, p, t, g)
  {
    AllowedWithoutReason(o, p, t, g);
    if Blocked(o, p, g) {
      return [GeoBlocked];
    }
    reasons := EvaluateBudgets(o, p, g);
    reasons := Noted(reasons, Reverses(o, p), Reversal);
    reasons := EvaluateShorts(o, p, g.config, reasons);
    reasons := EvaluateUnblocked(o, p, reasons);
    reasons := Noted(reasons, !CashOk(o, p, g), InsufficientCash);
    if g.equity <= 0.0 {
      reasons := Noted(reasons, true, NoEquity);
    } else {
      reasons := EvaluateExposures(o, p, t, g, reasons);
    }
    if reasons != [] {
      assert reasons[0] in reasons;
    }
  }

  lemma AllowedWithoutReason(o: OrderIntent, p: Portfolio, t: Trackers, g: Gate)
    ensures Allowed(o, p, t, g) <==> forall x :: !Found(x, o, p, t, g)
  {
    if !BudgetsOk(o, p, g) {
      NoBudgetReason(o, p, g);
      var x :| FoundBudget(x, o, p, g);
      assert Found(x, o, p, t, g) || Found(GeoBlocked, o, p, t, g);
    } else if !ShortRulesOk(o, p, g.config) {
      NoShortReason(o, p, g.config);
      var x :| FoundShort(x, o, p, g.config);
      assert Found(x, o, p, t, g) || Found(GeoBlocked, o, p, t, g);
    } else if !Unblocked(o, p) {
      NoBlockedReason(o, p);
      var x :| FoundBlocked(x, o, p);
      assert Found(x, o, p, t, g) || Found(GeoBlocked, o, p, t, g);
    } else if g.equity > 0.0 && !ExposuresOk(o, p, t, g) {
      NoExposureReason(o, p, t, g);
      var x :| FoundExposure(x, o, p, t, g);
      assert Found(x, o, p, t, g) || Found(GeoBlocked, o, p, t, g);
    } else if !Allowed(o, p, t, g) {
      assert Found(GeoBlocked, o, p, t, g) || Found(Reversal, o, p, t, g) || Found(InsufficientCash, o, p, t, g)
             || Found(NoEquity, o, p, t, g);
    }
  }

  lemma NoBudgetReason(o: OrderIntent, p: Portfolio, g: Gate)
    ensures BudgetsOk(o, p, g) || exists x :: FoundBudget(x, o, p, g)
  {
    if !BudgetsOk(o, p, g) {
      assert FoundBudget(NotionalLimit, o, p, g) || FoundBudget(TurnoverLimit, o, p, g) || FoundBudget(OpenOrderLimit, o, p, g)
             || FoundBudget(UnreconciledOrders, o, p, g);
    }
  }

  lemma NoShortReason(o: OrderIntent, p: Portfolio, config: Config)
    ensures ShortRulesOk(o, p, config) || exists x :: FoundShort(x, o, p, config)
  {
    if !ShortRulesOk(o, p, config) {
      assert FoundShort(ShortingDisabled, o, p, config) || FoundShort(NotShortEnabled, o, p, config)
             || FoundShort(MarginUnconfirmed, o, p, config) || FoundShort(MarginNotNeeded, o, p, config);
    }
  }

  lemma NoBlockedReason(o: OrderIntent, p: Portfolio)
    ensures Unblocked(o, p) || exists x :: FoundBlocked(x, o, p)
  {
    if !Unblocked(o, p) {
      assert FoundBlocked(LongIsBlocked, o, p) || FoundBlocked(ShortIsBlocked, o, p);
    }
  }

  lemma NoExposureReason(o: OrderIntent, p: Portfolio, t: Trackers, g: Gate)
    ensures ExposuresOk(o, p, t, g) || exists x :: FoundExposure(x, o, p, t, g)
  {
    if !ExposuresOk(o, p, t, g) {
      assert FoundExposure(CriticalMode, o, p, t, g) || FoundExposure(PositionLimit, o, p, t, g)
             || FoundExposure(GrossLimit, o, p, t, g) || FoundExposure(ShortLimit, o, p, t, g)
             || FoundExposure(SectorLimit, o, p, t, g) || FoundExposure(ClusterLimit, o, p, t, g);
    }
  }

  method EvaluateBudgets(o: OrderIntent, p: Portfolio, g: Gate) returns (reasons: seq<Reason>)
    ensures forall x :: x in reasons <==> FoundBudget(x, o, p, g)
  {
    reasons := Noted([], o.notional > g.config.maxOrderNotional, NotionalLimit);
    reasons := Noted(reasons, p.dailyTurnover + o.notional > g.config.maxDailyTurnover, TurnoverLimit);
    reasons := Noted(reasons, p.openOrders >= g.config.maxOpenOrders, OpenOrderLimit);
    reasons := Noted(reasons, "t_invest" <= p.source && p.openOrders > 0, UnreconciledOrders);
  }

  /** What opening or increasing a short needs. */
  method EvaluateShorts(o: OrderIntent, p: Portfolio, config: Config, before: seq<Reason>) returns (reasons: seq<Reason>)
    ensures forall x :: x in reasons <==> x in before || FoundShort(x, o, p, config)
  {
    if Shorts(Current(o, p), Resulting(o, p)) {
      reasons := Noted(before, !config.shortsEnabled || !config.allowMargin, ShortingDisabled);
      reasons := Noted(reasons, !o.instrument.shortEnabled, NotShortEnabled);
      reasons := Noted(reasons, !o.confirmMarginTrade, MarginUnconfirmed);
    } else {
      reasons := Noted(before, o.confirmMarginTrade, MarginNotNeeded);
    }
  }

  /** Blocked lots can be neither sold nor covered. */
  method EvaluateUnblocked(o: OrderIntent, p: Portfolio, before: seq<Reason>) returns (reasons: seq<Reason>)
    ensures forall x :: x in reasons <==> x in before || FoundBlocked(x, o, p)
  {
    reasons := before;
    if o.instrument.secid in p.positions && p.positions[o.instrument.secid].blocked != 0 {
      var position := p.positions[o.instrument.secid];
      if o.side == Sell && position.lots > 0 {
        reasons := Noted(reasons, o.lots > MaxInt(0, position.lots - position.blocked), LongIsBlocked);
      }
      if o.side == Buy && position.lots < 0 {
        reasons := Noted(reasons, o.lots > MaxInt(0, AbsInt(position.lots) - position.blocked), ShortIsBlocked);
      }
    }
  }

  /** The checks that need a positive equity, appended to the reasons so far. */
  method EvaluateExposures(o: OrderIntent, p: Portfolio, t: Trackers, g: Gate, before: seq<Reason>)
    returns (reasons: seq<Reason>)
    requires g.equity > 0.0
    ensures forall x :: x in reasons <==> x in before || FoundExposure(x, o, p, t, g)
  {
    reasons := Noted(before, g.critical && Grows(o, p), CriticalMode);
    if !Reduces(Current(o, p), Resulting(o, p)) {
      reasons := Noted(reasons, !PositionOk(o, p, g), PositionLimit);
      reasons := Noted(reasons, !ExposureOk(o, p, t, g, Everything), GrossLimit);
      reasons := Noted(reasons, !ExposureOk(o, p, t, g, ShortSide), ShortLimit);
      reasons := Noted(reasons, !ExposureOk(o, p, t, g, Sector(o.instrument.sector)), SectorLimit);
      reasons := Noted(reasons, !ExposureOk(o, p, t, g, Cluster(o.instrument.riskCluster)), ClusterLimit);
    }
  }
}
