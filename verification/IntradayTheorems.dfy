/** What the entry loop keeps within one plan and over all planning runs. */
module IntradayTheorems {
  import opened Domain
  import opened Sums
  import opened IntradayBudget

  function Spent(orders: seq<OrderIntent>): real {
    if orders == [] then 0.0 else Spent(orders[..|orders| - 1]) + orders[|orders| - 1].notional
  }

  lemma SpentMore(orders: seq<OrderIntent>, o: OrderIntent)
    ensures Spent(orders + [o]) == Spent(orders) + o.notional
  {
    assert (orders + [o])[..|orders|] == orders;
  }

  /** An entry order is the largest number of lots that the budget pays for. */
  lemma EntryIsTheMostThatFits(i: Instrument, s: Signal, budget: real, id: string)
    requires EntryOrder(i, s, budget, id).Ok? && EntryOrder(i, s, budget, id).value.Some?
    ensures var o := EntryOrder(i, s, budget, id).value.value;
            var lotValue := LotValue(TickRound(s.price, i.tickSize), i.lotSize);
            && o.notional == Cost(lotValue, o.lots) <= budget < Cost(lotValue, o.lots + 1)
            && o.limitPrice == TickRound(s.price, i.tickSize)
  {
    var lotValue := LotValue(TickRound(s.price, i.tickSize), i.lotSize);
    var lots := EntryOrder(i, s, budget, id).value.value.lots;
    FloorQuotient(budget, lotValue, lots);
    FloorQuotient(budget, lotValue, lots + 1);
  }

  // ---------------------------------------------------------------- one plan

  ghost predicate Within(start: Plan, p: Plan, config: Config, day: int) {
    && p.capital == start.capital - Spent(p.orders)
    && (p.orders != [] ==> p.capital >= 0.0)
    && p.slots == start.slots - |p.orders| && p.positionSlots == start.positionSlots - |p.orders|
    && (p.orders != [] ==> p.slots >= 0 && p.positionSlots >= 0)
    && |OnDay(p.stored, day)| == |OnDay(start.stored, day)| + |p.orders|
    && (forall d :: d != day ==> OnDay(p.stored, d) == OnDay(start.stored, d))
    && start.stored <= p.stored
    && (forall o :: o in p.orders ==> o.notional <= config.maxPositionNotional)
  }

  lemma StoredOnceMore(stored: set<Key>, k: Key, day: int)
    requires k !in stored && MoscowDay(k.observedAt) == day
    ensures |OnDay(stored + {k}, day)| == |OnDay(stored, day)| + 1
    ensures forall d :: d != day ==> OnDay(stored + {k}, d) == OnDay(stored, d)
  {
    assert OnDay(stored + {k}, day) == OnDay(stored, day) + {k};
  }

  lemma PlanOneStaysWithin(start: Plan, p: Plan, a: Account, config: Config, s: Signal, id: Signal -> string)
    requires Within(start, p, config, a.day) && MoscowDay(s.observedAt) == a.day
    requires start.slots >= 0 && start.positionSlots >= 0 && p.slots >= 0 && p.positionSlots >= 0
    requires PlanOne(p, a, config, s, id).Ok?
    ensures var next := PlanOne(p, a, config, s, id).value;
            Within(start, next, config, a.day) && next.slots >= 0 && next.positionSlots >= 0
  {
    var next := PlanOne(p, a, config, s, id).value;
    if next != p {
      var i := a.instruments[s.secid];
      EntryIsTheMostThatFits(i, s, Min(config.maxPositionNotional, p.capital), id(s));
      SpentMore(p.orders, next.orders[|p.orders|]);
      StoredOnceMore(p.stored, KeyOf(s), a.day);
    }
  }

  ghost predicate OfDay(signals: seq<Signal>, day: int) {
    forall i :: 0 <= i < |signals| ==> MoscowDay(signals[i].observedAt) == day
  }

  lemma {:induction false} PlanStaysWithin(start: Plan, a: Account, config: Config, signals: seq<Signal>, id: Signal -> string)
    requires start.slots >= 0 && start.positionSlots >= 0 && start.orders == [] && OfDay(signals, a.day)
    ensures var p := PlanAll(start, a, config, signals, id).0;
            Within(start, p, config, a.day) && p.slots >= 0 && p.positionSlots >= 0
  {
    if signals != [] {
      var n := |signals| - 1;
      PlanStaysWithin(start, a, config, signals[..n], id);
      var (before, failure) := PlanAll(start, a, config, signals[..n], id);
      if failure.None? && PlanOne(before, a, config, signals[n], id).Ok? {
        PlanOneStaysWithin(start, before, a, config, signals[n], id);
      }
    }
  }

  /** Money that the capital covers fits cash, turnover and exposure. */
  lemma CapitalCovers(a: Account, config: Config, gross: real, spent: real)
    requires 0.0 < spent <= Capital(a, config, gross)
    ensures spent <= a.cash && a.dailyTurnover + spent <= config.maxDailyTurnover
    ensures gross + spent <= a.equity * config.maxCapitalWeight
  {
  }

  /** The entries of one plan fit cash, turnover and exposure together, and the position and order limits. */
  lemma EntriesFitTheAccount(stored: set<Key>, a: Account, config: Config, signals: seq<Signal>, id: Signal -> string)
    requires OfDay(signals, a.day)
    ensures var p := PlannedEntries(stored, a, config, signals, id).0;
            && (p.orders != [] ==>
                  && !Unpriced(a)
                  && Spent(p.orders) <= a.cash
                  && a.dailyTurnover + Spent(p.orders) <= config.maxDailyTurnover
                  && Total(Exposures(a)) + Spent(p.orders) <= a.equity * config.maxCapitalWeight
                  && |a.positions| + |p.orders| <= config.maxPositions)
            && forall o :: o in p.orders ==> o.notional <= config.maxPositionNotional
  {
    var start := Opening(stored, a, config, Total(Exposures(a)));
    PlanStaysWithin(start, a, config, signals, id);
    var p := PlannedEntries(stored, a, config, signals, id).0;
    if p.orders != [] {
      SpentIsPositive(p.orders);
      CapitalCovers(a, config, Total(Exposures(a)), Spent(p.orders));
    }
  }

  lemma {:induction false} SpentIsPositive(orders: seq<OrderIntent>)
    ensures orders != [] ==> Spent(orders) > 0.0
  {
    if orders != [] {
      SpentIsPositive(orders[..|orders| - 1]);
    }
  }

  // ---------------------------------------------------------------- all planning runs

  /** One planning run: the account it saw, its configuration and the signals that passed, all of its own day. */
  datatype Planning = Planning(account: Account, config: Config, signals: seq<Signal>)

  ghost function StoredAfter(runs: seq<Planning>, id: Signal -> string): set<Key> {
    if runs == [] then {}
    else
      var before, run := StoredAfter(runs[..|runs| - 1], id), runs[|runs| - 1];
      PlannedEntries(before, run.account, run.config, run.signals, id).0.stored
  }

  /** Over planning runs one after the other, whatever they fail on, a day stores at most the largest entry limit. */
  lemma {:induction false} DailyEntryLimit(runs: seq<Planning>, id: Signal -> string, day: int, limit: nat)
    requires forall i :: 0 <= i < |runs| ==>
                           OfDay(runs[i].signals, runs[i].account.day) && runs[i].config.maxEntriesPerDay <= limit
    ensures |OnDay(StoredAfter(runs, id), day)| <= limit
  {
    if runs == [] {
      assert OnDay({}, day) == {};
    } else {
      var n := |runs| - 1;
      DailyEntryLimit(runs[..n], id, day, limit);
      var run := runs[n];
      var start := Opening(StoredAfter(runs[..n], id), run.account, run.config, Total(Exposures(run.account)));
      PlanStaysWithin(start, run.account, run.config, run.signals, id);
    }
  }
}
