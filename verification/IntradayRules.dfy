/**
 What an entry order owes to its signal and to the account: exactly when a signal is planned, every field of
 its order, and the money and the slots it is measured against.
 */
module IntradayRules {
  import opened Domain
  import opened Sums
  import opened IntradayBudget
  import opened IntradayTheorems

  // ---------------------------------------------------------------- one signal

  /** The price of the signal to the nearest tick. */
  ghost predicate IsPriceOf(i: Instrument, s: Signal, price: real) {
    OnTick(price, i.tickSize) && price - i.tickSize / 2.0 <= s.price < price + i.tickSize / 2.0
  }

  function Money(lots: int, lotSize: int, price: real): real {
    (lots * lotSize) as real * price
  }

  /** The order of a signal that may spend so much: its side, its instrument, and the most lots the money buys. */
  ghost predicate IsOrderOf(o: OrderIntent, i: Instrument, s: Signal, budget: real, id: string) {
    && o.orderRequestId == id && o.instrument == i && o.side == s.side && o.orderType == "limit"
    && (o.confirmMarginTrade <==> s.side == Sell)
    && IsPriceOf(i, s, o.limitPrice)
    && o.notional == Money(o.lots, i.lotSize, o.limitPrice) <= budget < Money(o.lots + 1, i.lotSize, o.limitPrice)
  }

  lemma CostMeans(lots: int, lotSize: int, price: real)
    ensures Cost(LotValue(price, lotSize), lots) == Money(lots, lotSize, price)
  {
    assert (lots * lotSize) as real == lots as real * lotSize as real;
  }

  lemma PositiveMoney(lots: int, lotSize: int, price: real)
    requires lots > 0 && lotSize > 0
    ensures Money(lots, lotSize, price) > 0.0 <==> price > 0.0
  {
    assert (lots * lotSize) as real > 0.0;
  }

  /** An order is made exactly when the rounded price is positive and the budget buys a lot; a zero price is an error. */
  lemma EntryOrderMeans(i: Instrument, s: Signal, budget: real, id: string)
    ensures var r, price := EntryOrder(i, s, budget, id), TickRound(s.price, i.tickSize);
            && IsPriceOf(i, s, price)
            && (r.Ok? <==> price > 0.0)
            && (r.Ok? ==> (r.value.Some? <==> Money(1, i.lotSize, price) <= budget))
            && (r.Ok? && r.value.Some? ==> IsOrderOf(r.value.value, i, s, budget, id))
  {
    var price := TickRound(s.price, i.tickSize);
    TickRoundIsNearest(s.price, i.tickSize);
    CostMeans(1, i.lotSize, price);
    PositiveMoney(1, i.lotSize, price);
    if price > 0.0 {
      var lotValue := LotValue(price, i.lotSize);
      var lots := (budget / lotValue).Floor;
      FloorQuotient(budget, lotValue, 1);
      FloorQuotient(budget, lotValue, lots);
      FloorQuotient(budget, lotValue, lots + 1);
      CostMeans(lots, i.lotSize, price);
      CostMeans(lots + 1, i.lotSize, price);
      if lots > 0 {
        PositiveMoney(lots, i.lotSize, price);
      }
    }
  }

  /** Nothing but the budget keeps the signal from an order. */
  predicate Wanted(p: Plan, a: Account, config: Config, s: Signal)
    requires s.secid in a.instruments
  {
    && p.slots != 0 && p.positionSlots != 0 && s.secid !in a.positions
    && (s.side == Sell ==> config.allowShort && a.instruments[s.secid].shortEnabled)
  }

  /** What a signal may spend. */
  function MaySpend(p: Plan, config: Config): real {
    if config.maxPositionNotional <= p.capital then config.maxPositionNotional else p.capital
  }

  /** What one signal does to the plan, or that it fails. */
  ghost predicate SignalIsRight(p: Plan, r: Result<Plan>, a: Account, config: Config, s: Signal, id: Signal -> string) {
    if s.secid !in a.instruments then r.Err?
    else if !Wanted(p, a, config, s) then r == Ok(p)
    else
      exists price :: IsPriceOf(a.instruments[s.secid], s, price) && PricedIsRight(p, r, a, config, s, id, price)
  }

  ghost predicate PricedIsRight(p: Plan, r: Result<Plan>, a: Account, config: Config, s: Signal, id: Signal -> string,
                                price: real)
    requires s.secid in a.instruments
  {
    var i, key := a.instruments[s.secid], Key(s.secid, s.observedAt, s.side);
    if price <= 0.0 then r.Err?
    else if Money(1, i.lotSize, price) > MaySpend(p, config) || key in p.stored then r == Ok(p)
    else r.Ok? && Adds(p, r.value, i, s, MaySpend(p, config), id(s))
  }

  /** One more order: the signal is stored, a slot of each kind is used and the money is spent. */
  ghost predicate Adds(p: Plan, next: Plan, i: Instrument, s: Signal, budget: real, id: string) {
    && |next.orders| == |p.orders| + 1 && next.orders[..|p.orders|] == p.orders
    && var o := next.orders[|p.orders|];
       && IsOrderOf(o, i, s, budget, id)
       && next.stored == p.stored + {Key(s.secid, s.observedAt, s.side)}
       && next.slots == p.slots - 1 && next.positionSlots == p.positionSlots - 1 && next.capital == p.capital - o.notional
  }

  lemma PlanOneIsRight(p: Plan, a: Account, config: Config, s: Signal, id: Signal -> string)
    ensures SignalIsRight(p, PlanOne(p, a, config, s, id), a, config, s, id)
  {
    if s.secid in a.instruments && Wanted(p, a, config, s) {
      var i := a.instruments[s.secid];
      EntryOrderMeans(i, s, MaySpend(p, config), id(s));
      assert PricedIsRight(p, PlanOne(p, a, config, s, id), a, config, s, id, TickRound(s.price, i.tickSize));
    }
  }

  // ---------------------------------------------------------------- the whole plan

  /** The signals that were planned, as indices in the order of the signals. */
  ghost predicate AreSources(sources: seq<nat>, signals: seq<Signal>) {
    && (forall k :: 0 <= k < |sources| ==> sources[k] < |signals|)
    && (forall j, k :: 0 <= j < k < |sources| ==> sources[j] < sources[k])
  }

  /** Each order is that of its signal, which was neither held nor stored before. */
  ghost predicate Answers(orders: seq<OrderIntent>, sources: seq<nat>, signals: seq<Signal>, a: Account, config: Config,
                          stored: set<Key>, id: Signal -> string)
    requires AreSources(sources, signals)
  {
    |orders| == |sources| && forall k :: 0 <= k < |orders| ==> AnswersOne(orders[k], signals[sources[k]], a, config, stored, id)
  }

  ghost predicate AnswersOne(o: OrderIntent, s: Signal, a: Account, config: Config, stored: set<Key>, id: Signal -> string) {
    && s.secid in a.instruments && s.secid !in a.positions
    && (s.side == Sell ==> config.allowShort && a.instruments[s.secid].shortEnabled)
    && Key(s.secid, s.observedAt, s.side) !in stored
    && exists budget :: budget <= config.maxPositionNotional && IsOrderOf(o, a.instruments[s.secid], s, budget, id(s))
  }

  /** The keys of the planned signals, one for each. */
  ghost function KeysOf(sources: seq<nat>, signals: seq<Signal>): set<Key>
    requires AreSources(sources, signals)
  {
    set k | 0 <= k < |sources| :: Key(signals[sources[k]].secid, signals[sources[k]].observedAt, signals[sources[k]].side)
  }

  ghost predicate IsPlanOf(p: Plan, start: Plan, sources: seq<nat>, signals: seq<Signal>, a: Account, config: Config,
                           id: Signal -> string)
  {
    && AreSources(sources, signals) && Answers(p.orders, sources, signals, a, config, start.stored, id)
    && StoresKeys(p.stored, start.stored, sources, signals)
  }

  ghost predicate StoresKeys(stored: set<Key>, before: set<Key>, sources: seq<nat>, signals: seq<Signal>)
    requires AreSources(sources, signals)
  {
    stored == before + KeysOf(sources, signals) && |KeysOf(sources, signals)| == |sources|
  }

  /** The plan adds the order of the last signal. */
  ghost predicate AddsLast(p: Plan, next: Plan, signals: seq<Signal>, a: Account, config: Config, id: Signal -> string) {
    && signals != []
    && var s := signals[|signals| - 1];
       && s.secid in a.instruments && Wanted(p, a, config, s) && Key(s.secid, s.observedAt, s.side) !in p.stored
       && Adds(p, next, a.instruments[s.secid], s, MaySpend(p, config), id(s))
  }

  lemma OneMoreAnswer(p: Plan, next: Plan, stored: set<Key>, sources: seq<nat>, more: seq<nat>, signals: seq<Signal>,
                      a: Account, config: Config, id: Signal -> string)
    requires AddsLast(p, next, signals, a, config, id) && stored <= p.stored
    requires AreSources(sources, signals[..|signals| - 1]) && more == sources + [|signals| - 1] && AreSources(more, signals)
    requires Answers(p.orders, sources, signals[..|signals| - 1], a, config, stored, id)
    ensures Answers(next.orders, more, signals, a, config, stored, id)
  {
    var n := |signals| - 1;
    forall k | 0 <= k < |more| ensures AnswersOne(next.orders[k], signals[more[k]], a, config, stored, id) {
      if k < |sources| {
        assert signals[..n][sources[k]] == signals[more[k]];
        assert next.orders[k] == next.orders[..|p.orders|][k];
        assert AnswersOne(p.orders[k], signals[..n][sources[k]], a, config, stored, id);
      }
    }
  }

  lemma OneMoreSource(p: Plan, next: Plan, start: Plan, sources: seq<nat>, signals: seq<Signal>, a: Account, config: Config,
                      id: Signal -> string)
    requires AddsLast(p, next, signals, a, config, id)
    requires IsPlanOf(p, start, sources, signals[..|signals| - 1], a, config, id)
    ensures IsPlanOf(next, start, sources + [|signals| - 1], signals, a, config, id)
  {
    var more := sources + [|signals| - 1];
    SourcesGrow(sources, signals);
    OneMoreAnswer(p, next, start.stored, sources, more, signals, a, config, id);
    OneMoreKey(p.stored, start.stored, sources, signals);
  }

  lemma SourcesGrow(sources: seq<nat>, signals: seq<Signal>)
    requires signals != [] && AreSources(sources, signals[..|signals| - 1])
    ensures AreSources(sources + [|signals| - 1], signals)
  {
  }

  lemma OneMoreKey(stored: set<Key>, before: set<Key>, sources: seq<nat>, signals: seq<Signal>)
    requires signals != [] && AreSources(sources, signals[..|signals| - 1])
    requires AreSources(sources + [|signals| - 1], signals)
    requires StoresKeys(stored, before, sources, signals[..|signals| - 1])
    requires var s := signals[|signals| - 1]; Key(s.secid, s.observedAt, s.side) !in stored
    ensures var s := signals[|signals| - 1];
            StoresKeys(stored + {Key(s.secid, s.observedAt, s.side)}, before, sources + [|signals| - 1], signals)
  {
    SameKeys(sources, signals[..|signals| - 1], sources + [|signals| - 1], signals);
  }

  lemma SameKeys(sources: seq<nat>, before: seq<Signal>, more: seq<nat>, signals: seq<Signal>)
    requires signals != [] && before == signals[..|signals| - 1] && more == sources + [|signals| - 1]
    requires AreSources(sources, before) && AreSources(more, signals)
    ensures var s := signals[|signals| - 1];
            KeysOf(more, signals) == KeysOf(sources, before) + {Key(s.secid, s.observedAt, s.side)}
  {
    var s := signals[|signals| - 1];
    forall key | key in KeysOf(sources, before) ensures key in KeysOf(more, signals) {
      var k :| 0 <= k < |sources| && key == Key(before[sources[k]].secid, before[sources[k]].observedAt, before[sources[k]].side);
      assert more[k] == sources[k] && before[sources[k]] == signals[more[k]];
    }
    assert more[|sources|] == |signals| - 1;
    forall key | key in KeysOf(more, signals)
      ensures key in KeysOf(sources, before) || key == Key(s.secid, s.observedAt, s.side)
    {
      var k :| 0 <= k < |more| && key == Key(signals[more[k]].secid, signals[more[k]].observedAt, signals[more[k]].side);
      if k < |sources| {
        assert more[k] == sources[k] && before[sources[k]] == signals[more[k]];
      }
    }
  }

  lemma SameSources(p: Plan, start: Plan, sources: seq<nat>, signals: seq<Signal>, n: nat, a: Account, config: Config,
                    id: Signal -> string)
    requires n <= |signals| && IsPlanOf(p, start, sources, signals[..n], a, config, id)
    ensures IsPlanOf(p, start, sources, signals, a, config, id)
  {
    forall k | 0 <= k < |sources| ensures signals[..n][sources[k]] == signals[sources[k]] {
    }
    assert AreSources(sources, signals);
    forall k | 0 <= k < |sources| ensures AnswersOne(p.orders[k], signals[sources[k]], a, config, start.stored, id) {
      assert AnswersOne(p.orders[k], signals[..n][sources[k]], a, config, start.stored, id);
    }
    assert KeysOf(sources, signals) == KeysOf(sources, signals[..n]);
  }

  lemma NextHasSources(p: Plan, start: Plan, sources: seq<nat>, a: Account, config: Config, signals: seq<Signal>,
                       id: Signal -> string) returns (more: seq<nat>)
    requires signals != [] && IsPlanOf(p, start, sources, signals[..|signals| - 1], a, config, id)
    requires PlanOne(p, a, config, signals[|signals| - 1], id).Ok?
    ensures IsPlanOf(PlanOne(p, a, config, signals[|signals| - 1], id).value, start, more, signals, a, config, id)
  {
    var n := |signals| - 1;
    var next := PlanOne(p, a, config, signals[n], id).value;
    PlanOneIsRight(p, a, config, signals[n], id);
    if next != p {
      OneMoreSource(p, next, start, sources, signals, a, config, id);
      more := sources + [n];
    } else {
      SameSources(p, start, sources, signals, n, a, config, id);
      more := sources;
    }
  }

  lemma {:induction false} PlanHasSources(start: Plan, a: Account, config: Config, signals: seq<Signal>, id: Signal -> string)
    returns (sources: seq<nat>)
    requires start.orders == []
    ensures IsPlanOf(PlanAll(start, a, config, signals, id).0, start, sources, signals, a, config, id)
  {
    if signals == [] {
      sources := [];
      assert KeysOf([], signals) == {};
    } else {
      var n := |signals| - 1;
      sources := PlanHasSources(start, a, config, signals[..n], id);
      var (p, failure) := PlanAll(start, a, config, signals[..n], id);
      if failure.None? && PlanOne(p, a, config, signals[n], id).Ok? {
        sources := NextHasSources(p, start, sources, a, config, signals, id);
      } else {
        SameSources(p, start, sources, signals, n, a, config, id);
      }
    }
  }

  /**
   Every order of a plan answers one signal, in the order of the signals: with its side, its instrument and the
   most lots that its budget buys at its price, for a security that is not held, and newly stored.
   */
  lemma EveryEntryHasItsSignal(stored: set<Key>, a: Account, config: Config, signals: seq<Signal>, id: Signal -> string)
    returns (sources: seq<nat>)
    ensures var p := PlannedEntries(stored, a, config, signals, id).0;
            && AreSources(sources, signals) && Answers(p.orders, sources, signals, a, config, stored, id)
            && p.stored == stored + KeysOf(sources, signals) && |KeysOf(sources, signals)| == |p.orders|
  {
    if Unpriced(a) {
      sources := [];
      assert KeysOf([], signals) == {};
    } else {
      sources := PlanHasSources(Opening(stored, a, config, Total(Exposures(a))), a, config, signals, id);
    }
  }

  /** Every signal of a plan in turn, on the plan that those before it left; the first failure ends it and stores nothing. */
  lemma EverySignalIsRight(start: Plan, a: Account, config: Config, signals: seq<Signal>, id: Signal -> string, k: nat)
    requires k < |signals|
    ensures PlanAll(start, a, config, [], id) == (start, None)
    ensures var (p, failed) := PlanAll(start, a, config, signals[..k], id);
            var (next, failure) := PlanAll(start, a, config, signals[..k + 1], id);
            if failed.Some? then next == p && failure == failed
            else
              exists r :: && SignalIsRight(p, r, a, config, signals[k], id)
                          && (if r.Ok? then next == r.value && failure.None? else next == p && failure.Some?)
  {
    assert signals[..k + 1][..k] == signals[..k];
    var (p, failed) := PlanAll(start, a, config, signals[..k], id);
    PlanOneIsRight(p, a, config, signals[k], id);
    if failed.None? {
      var r := PlanOne(p, a, config, signals[k], id);
      assert SignalIsRight(p, r, a, config, signals[k], id);
    }
  }

  // ---------------------------------------------------------------- what the loop starts with

  /** The entries stored under the Moscow day. */
  ghost function StoredOn(stored: set<Key>, day: int): set<Key> {
    set k | k in stored && day * 86400 - 10800 <= k.observedAt < day * 86400 + 75600
  }

  /** The exposure of every position: its units at its price. */
  ghost predicate AreExposures(exposures: map<string, real>, a: Account) {
    && exposures.Keys == a.positions.Keys
    && forall secid :: secid in a.positions && secid in a.instruments && secid in a.prices ==>
                         exposures[secid] == Money(AbsInt(a.positions[secid]), a.instruments[secid].lotSize, a.prices[secid])
  }

  lemma ExposuresMean(a: Account)
    requires !Unpriced(a)
    ensures AreExposures(Exposures(a), a)
  {
    forall secid | secid in a.positions && secid in a.instruments && secid in a.prices
      ensures Exposures(a)[secid] == Money(AbsInt(a.positions[secid]), a.instruments[secid].lotSize, a.prices[secid])
    {
      var lots, size := AbsInt(a.positions[secid]), a.instruments[secid].lotSize;
      assert (lots * size) as real == lots as real * size as real;
    }
  }

  lemma OnDayMeans(stored: set<Key>, day: int)
    ensures OnDay(stored, day) == StoredOn(stored, day)
  {
    forall k | k in stored ensures MoscowDay(k.observedAt) == day <==> day * 86400 - 10800 <= k.observedAt < day * 86400 + 75600 {
      MoscowDayBegins(k.observedAt, day);
    }
  }

  /**
   The loop starts with a slot for each entry and position that is left, and with money for exactly what fits
   the cash, the daily turnover and the exposure limit together.
   */
  lemma OpeningLeavesWhatFits(stored: set<Key>, a: Account, config: Config, gross: real, spent: real)
    requires spent > 0.0
    ensures var p := Opening(stored, a, config, gross);
            && p.stored == stored && p.orders == []
            && p.slots == (if |StoredOn(stored, a.day)| < config.maxEntriesPerDay
                           then config.maxEntriesPerDay - |StoredOn(stored, a.day)| else 0)
            && p.positionSlots == (if |a.positions| < config.maxPositions then config.maxPositions - |a.positions| else 0)
            && (spent <= p.capital <==> && spent <= a.cash && a.dailyTurnover + spent <= config.maxDailyTurnover
                                        && gross + spent <= a.equity * config.maxCapitalWeight)
  {
    OnDayMeans(stored, a.day);
  }
}
