/**
 What the projection loop keeps over a whole plan: the caps, the cash reserve, the direction of positions,
 and the agreement of the incremental trackers with exposures recomputed from scratch.
 */
module HarnessTheorems {
  import opened Domain
  import opened RiskGate
  import opened Harness

  // ---------------------------------------------------------------- worth

  lemma WorthIsNotNegative(lots: int, lotSize: int, price: real)
    requires price > 0.0
    ensures Worth(lots, lotSize, price) >= 0.0 && Worth(0, lotSize, price) == 0.0
  {
  }

  lemma AbsScales(lots: int, lotSize: int)
    requires lotSize > 0
    ensures AbsInt(lots * lotSize) == AbsInt(lots) * lotSize
  {
  }

  lemma MoreLotsAreWorthMore(a: int, b: int, lotSize: int, price: real)
    requires lotSize > 0 && price > 0.0
    ensures Worth(a, lotSize, price) < Worth(b, lotSize, price) <==> AbsInt(a) < AbsInt(b)
  {
    AbsScales(a, lotSize);
    AbsScales(b, lotSize);
    ScaledOrder(AbsInt(a), AbsInt(b), lotSize, price);
  }

  lemma ScaledOrder(a: int, b: int, lotSize: int, price: real)
    requires lotSize > 0 && price > 0.0 && a >= 0 && b >= 0
    ensures (a * lotSize) as real * price < (b * lotSize) as real * price <==> a < b
  {
    var x, y := (a * lotSize) as real, (b * lotSize) as real;
    if a < b {
      assert a * lotSize < b * lotSize;
      assert x * price < y * price;
    } else {
      assert a * lotSize >= b * lotSize;
      assert x * price >= y * price;
    }
  }

  /** A reducing order lowers, or leaves, what its position contributes to every exposure. */
  lemma ReducingLowersEveryPart(group: Group, i: Instrument, a: int, b: int, price: real)
    requires Reduces(a, b) && price > 0.0
    ensures Part(group, i, b, price) <= Part(group, i, a, price)
  {
    MoreLotsAreWorthMore(b, a, i.lotSize, price);
    WorthIsNotNegative(a, i.lotSize, price);
    WorthIsNotNegative(b, i.lotSize, price);
    SignsAgree(a, b);
  }

  // ---------------------------------------------------------------- caps of the whole plan

  lemma NextTrackedOfOthers(o: OrderIntent, p: Portfolio, t: Trackers, group: Group)
    ensures Tracked(NextTrackers(o, p, t), group) ==
            if group == Everything || group == ShortSide || group == Sector(o.instrument.sector)
               || group == Cluster(o.instrument.riskCluster) then Projected(o, p, t, group) else Tracked(t, group)
  {
  }

  lemma StepKeepsCap(s: Account, g: Gate, o: OrderIntent, group: Group)
    requires Tracked(s.trackers, group) >= 0.0
    ensures 0.0 <= Tracked(Step(s, g, o).trackers, group)
            <= Max(Tracked(s.trackers, group), Share(Cap(g.config, group), g.equity))
  {
    var p, t := s.portfolio, s.trackers;
    if Allowed(o, p, t, g) {
      NextTrackedOfOthers(o, p, t, group);
      if Reduces(Current(o, p), Resulting(o, p)) {
        ReducingLowersEveryPart(group, o.instrument, Current(o, p), Resulting(o, p), o.limitPrice);
      }
    }
  }

  /**
   At the end of a plan every gross, short, sector and cluster exposure is at most its cap, or what it
   was before the plan if that was already above.
   */
  lemma {:induction false} WholePlanCaps(s: Account, g: Gate, plan: seq<OrderIntent>, group: Group)
    requires Tracked(s.trackers, group) >= 0.0
    ensures 0.0 <= Tracked(Run(s, g, plan).trackers, group)
            <= Max(Tracked(s.trackers, group), Share(Cap(g.config, group), g.equity))
  {
    if plan != [] {
      WholePlanCaps(s, g, plan[..|plan| - 1], group);
      StepKeepsCap(Run(s, g, plan[..|plan| - 1]), g, plan[|plan| - 1], group);
    }
  }

  /** Cash never falls below the reserve, or below the initial cash if that was less; budgets hold. */
  lemma {:induction false} WholePlanBudgets(s: Account, g: Gate, plan: seq<OrderIntent>)
    ensures var e := Run(s, g, plan);
            && e.portfolio.cash >= Min(s.portfolio.cash, Reserve(g))
            && (e.accepted != s.accepted ==> e.portfolio.dailyTurnover <= g.config.maxDailyTurnover
                                             && e.portfolio.openOrders <= g.config.maxOpenOrders)
            && |e.accepted| - |s.accepted| == e.portfolio.openOrders - s.portfolio.openOrders
  {
    if plan != [] {
      WholePlanBudgets(s, g, plan[..|plan| - 1]);
    }
  }

  // ---------------------------------------------------------------- positions

  /** `b` lies between zero and `a`. */
  predicate Towards(a: int, b: int) {
    (0 <= b <= a) || (a <= b <= 0)
  }

  lemma StepLots(s: Account, g: Gate, o: OrderIntent, secid: string)
    ensures LotsOf(Step(s, g, o).portfolio, secid) ==
            LotsOf(s.portfolio, secid)
            + if Allowed(o, s.portfolio, s.trackers, g) && o.instrument.secid == secid then Signed(o.side, o.lots) else 0
  {
  }

  /** No accepted order crosses zero, and in CRITICAL mode every accepted order shrinks its position. */
  lemma StepDirection(s: Account, g: Gate, o: OrderIntent)
    requires Allowed(o, s.portfolio, s.trackers, g)
    ensures var a, b := Current(o, s.portfolio), Resulting(o, s.portfolio);
            && ((a >= 0 && b >= 0) || (a <= 0 && b <= 0))
            && (g.critical ==> Towards(a, b) && AbsInt(b) < AbsInt(a))
  {
    var a, b := Current(o, s.portfolio), Resulting(o, s.portfolio);
    SignsAgree(a, b);
    SignsAgree(b, a);
    if g.critical {
      MoreLotsAreWorthMore(a, b, o.instrument.lotSize, o.limitPrice);
    }
  }

  /** In CRITICAL mode a whole plan only moves positions towards zero. */
  lemma {:induction false} CriticalPlansOnlyShrink(s: Account, g: Gate, plan: seq<OrderIntent>, secid: string)
    requires g.critical
    ensures Towards(LotsOf(s.portfolio, secid), LotsOf(Run(s, g, plan).portfolio, secid))
  {
    if plan != [] {
      var before, o := Run(s, g, plan[..|plan| - 1]), plan[|plan| - 1];
      CriticalPlansOnlyShrink(s, g, plan[..|plan| - 1], secid);
      StepLots(before, g, o, secid);
      if Allowed(o, before.portfolio, before.trackers, g) {
        StepDirection(before, g, o);
      }
    }
  }

  ghost predicate UniqueSecurities(plan: seq<OrderIntent>) {
    forall i, j :: 0 <= i < j < |plan| ==> plan[i].instrument.secid != plan[j].instrument.secid
  }

  lemma {:induction false} UntouchedLots(s: Account, g: Gate, plan: seq<OrderIntent>, secid: string)
    requires forall i :: 0 <= i < |plan| ==> plan[i].instrument.secid != secid
    ensures LotsOf(Run(s, g, plan).portfolio, secid) == LotsOf(s.portfolio, secid)
  {
    if plan != [] {
      UntouchedLots(s, g, plan[..|plan| - 1], secid);
      StepLots(Run(s, g, plan[..|plan| - 1]), g, plan[|plan| - 1], secid);
    }
  }

  /** A plan with one order per security never takes a position through zero. */
  lemma {:induction false} NoPlanCrossesZero(s: Account, g: Gate, plan: seq<OrderIntent>, secid: string)
    requires UniqueSecurities(plan)
    ensures var a, b := LotsOf(s.portfolio, secid), LotsOf(Run(s, g, plan).portfolio, secid);
            (a >= 0 && b >= 0) || (a <= 0 && b <= 0)
  {
    if plan != [] {
      var n := |plan| - 1;
      var before, o := Run(s, g, plan[..n]), plan[n];
      StepLots(before, g, o, secid);
      if o.instrument.secid == secid {
        UntouchedLots(s, g, plan[..n], secid);
        if Allowed(o, before.portfolio, before.trackers, g) {
          StepDirection(before, g, o);
        }
      } else {
        NoPlanCrossesZero(s, g, plan[..n], secid);
      }
    }
  }

  /** Securities blocked by the geopolitical policy are only ever reduced. */
  lemma {:induction false} BlockedSecuritiesOnlyShrink(s: Account, g: Gate, plan: seq<OrderIntent>, secid: string)
    requires secid in g.blocked
    ensures Towards(LotsOf(s.portfolio, secid), LotsOf(Run(s, g, plan).portfolio, secid))
  {
    if plan != [] {
      var before, o := Run(s, g, plan[..|plan| - 1]), plan[|plan| - 1];
      BlockedSecuritiesOnlyShrink(s, g, plan[..|plan| - 1], secid);
      StepLots(before, g, o, secid);
      if Allowed(o, before.portfolio, before.trackers, g) && o.instrument.secid == secid {
        SignsAgree(Current(o, before.portfolio), Resulting(o, before.portfolio));
      }
    }
  }

  /** Without shorts or without margin no plan sells more of a security than is held. */
  lemma {:induction false} LongOnlyStaysLong(s: Account, g: Gate, plan: seq<OrderIntent>, secid: string)
    requires !g.config.shortsEnabled || !g.config.allowMargin
    requires LotsOf(s.portfolio, secid) >= 0
    ensures LotsOf(Run(s, g, plan).portfolio, secid) >= 0
  {
    if plan != [] {
      LongOnlyStaysLong(s, g, plan[..|plan| - 1], secid);
      StepLots(Run(s, g, plan[..|plan| - 1]), g, plan[|plan| - 1], secid);
    }
  }

  /** The largest worth a position may be increased to. */
  function PositionLimit(g: Gate): real {
    Max(Share(g.config.maxPositionWeight, g.equity), Share(g.config.maxShortPositionWeight, g.equity))
  }

  /** At one price and lot size a position ends at most at the position limit, or where it was. */
  lemma {:induction false} PositionCaps(s: Account, g: Gate, plan: seq<OrderIntent>, secid: string, lotSize: int, price: real)
    requires lotSize > 0 && price > 0.0
    requires forall i :: 0 <= i < |plan| && plan[i].instrument.secid == secid ==>
                           plan[i].instrument.lotSize == lotSize && plan[i].limitPrice == price
    ensures Worth(LotsOf(Run(s, g, plan).portfolio, secid), lotSize, price) <=
            Max(Worth(LotsOf(s.portfolio, secid), lotSize, price), PositionLimit(g))
  {
    if plan != [] {
      var before, o := Run(s, g, plan[..|plan| - 1]), plan[|plan| - 1];
      PositionCaps(s, g, plan[..|plan| - 1], secid, lotSize, price);
      StepLots(before, g, o, secid);
      if Allowed(o, before.portfolio, before.trackers, g) && o.instrument.secid == secid
         && Reduces(Current(o, before.portfolio), Resulting(o, before.portfolio)) {
        MoreLotsAreWorthMore(Resulting(o, before.portfolio), Current(o, before.portfolio), lotSize, price);
      }
    }
  }
}
