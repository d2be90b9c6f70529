/**
 The bound on overlapping planning runs is exact: for every number of runs and every entry limit some
 interleaving stores that many times the limit on one day. Hence the daily entry limit itself survives
 exactly when runs do not overlap.
 */
module IntradayOverlapBound {
  import opened Domain
  import opened Sums
  import opened IntradayBudget
  import opened IntradayTheorems
  import opened IntradayOverlap

  // ---------------------------------------------------------------- runs that use all their slots

  /** A buy signal of the day, for a share that costs one and of which nothing is held. */
  predicate Affordable(s: Signal, a: Account) {
    && s.side == Buy && s.price == 1.0 && MoscowDay(s.observedAt) == a.day
    && s.secid in a.instruments && s.secid !in a.positions
    && a.instruments[s.secid].tickSize == 1.0 && a.instruments[s.secid].lotSize == 1
  }

  /** The run has a signal for each of its slots and money for all of them. */
  ghost predicate Funded(run: Running) {
    && 0 <= run.slots == |run.left| && run.slots <= run.positionSlots
    && run.slots as real <= run.capital && run.config.maxPositionNotional == 1.0
    && forall i :: 0 <= i < |run.left| ==> Affordable(run.left[i], run.account)
  }

  /** No two signals that are still to come are stored under one key, and none is stored yet. */
  ghost predicate AllNew(s: Shared) {
    && (forall i, a :: 0 <= i < |s.active| && 0 <= a < |s.active[i].left| ==> KeyOf(s.active[i].left[a]) !in s.stored)
    && (forall i, a, j, b :: 0 <= i < |s.active| && 0 <= a < |s.active[i].left|
                             && 0 <= j < |s.active| && 0 <= b < |s.active[j].left| && (i != j || a != b) ==>
                               KeyOf(s.active[i].left[a]) != KeyOf(s.active[j].left[b]))
  }

  ghost predicate Eager(s: Shared, day: int) {
    && AllNew(s)
    && forall i :: 0 <= i < |s.active| ==> Funded(s.active[i]) && s.active[i].account.day == day
  }

  lemma UnitTick(x: real)
    requires x == 1.0
    ensures TickRound(x, x) == 1.0
  {
    FloorQuotient(x + x / 2.0, x, 1);
    FloorQuotient(x + x / 2.0, x, 2);
  }

  lemma UnitLot(price: real)
    ensures LotValue(price, 1) == price
  {
  }

  /** A budget that pays for a lot makes an order. */
  lemma PaidLotIsOrdered(i: Instrument, s: Signal, budget: real, id: string)
    requires 0.0 < LotValue(TickRound(s.price, i.tickSize), i.lotSize) <= budget
    ensures EntryOrder(i, s, budget, id).Ok? && EntryOrder(i, s, budget, id).value.Some?
  {
    var lotValue := LotValue(TickRound(s.price, i.tickSize), i.lotSize);
    var lots := (budget / lotValue).Floor;
    FloorQuotient(budget, lotValue, 1);
    CostIsPositive(lotValue, lots);
  }

  lemma CostIsPositive(lotValue: real, lots: int)
    requires lotValue > 0.0 && lots >= 1
    ensures Cost(lotValue, lots) > 0.0
  {
  }

  /** A budget of at least one buys a share that costs one, for at most the budget. */
  lemma AffordableIsOrdered(i: Instrument, s: Signal, budget: real, id: string)
    requires i.tickSize == s.price == 1.0 && i.lotSize == 1 && 1.0 <= budget
    ensures EntryOrder(i, s, budget, id).Ok? && EntryOrder(i, s, budget, id).value.Some?
    ensures EntryOrder(i, s, budget, id).value.value.notional <= budget
  {
    UnitTick(s.price);
    UnitLot(TickRound(s.price, i.tickSize));
    PaidLotIsOrdered(i, s, budget, id);
    EntryIsTheMostThatFits(i, s, budget, id);
  }

  /** A funded run stores its next signal and stays funded. */
  lemma FundedRunStores(stored: set<Key>, run: Running, id: Signal -> string)
    requires Funded(run) && run.slots > 0 && KeyOf(run.left[0]) !in stored
    ensures var planned := PlanOne(PlanOf(stored, run), run.account, run.config, run.left[0], id);
            && planned.Ok? && planned.value.stored == stored + {KeyOf(run.left[0])}
            && planned.value.slots == run.slots - 1 && planned.value.positionSlots == run.positionSlots - 1
            && run.capital - 1.0 <= planned.value.capital
  {
    var s := run.left[0];
    assert Affordable(s, run.account);
    AffordableIsOrdered(run.account.instruments[s.secid], s, Min(run.config.maxPositionNotional, run.capital), id(s));
  }

  lemma FundedRunAdvances(s: Shared, k: nat, id: Signal -> string)
    requires k < |s.active| && Funded(s.active[k]) && s.active[k].slots > 0 && KeyOf(s.active[k].left[0]) !in s.stored
    ensures var next, run := Advanced(s, k, id), s.active[k];
            && next.stored == s.stored + {KeyOf(run.left[0])} && |next.active| == |s.active|
            && next.active == s.active[k := next.active[k]] && Funded(next.active[k])
            && next.active[k].left == run.left[1..] && next.active[k].account == run.account
            && next.active[k].slots == run.slots - 1
  {
    FundedRunStores(s.stored, s.active[k], id);
  }

  lemma AdvanceStaysNew(s: Shared, next: Shared, k: nat)
    requires AllNew(s) && k < |s.active| && s.active[k].left != []
    requires next.stored == s.stored + {KeyOf(s.active[k].left[0])} && |next.active| == |s.active|
    requires next.active == s.active[k := next.active[k]] && next.active[k].left == s.active[k].left[1..]
    ensures AllNew(next)
  {
    forall i, a | 0 <= i < |next.active| && 0 <= a < |next.active[i].left|
      ensures KeyOf(next.active[i].left[a]) !in next.stored
    {
      assert KeyOf(s.active[k].left[0]) != KeyOf(s.active[i].left[Original(k, i, a)]);
    }
    forall i, a, j, b | 0 <= i < |next.active| && 0 <= a < |next.active[i].left|
                        && 0 <= j < |next.active| && 0 <= b < |next.active[j].left| && (i != j || a != b)
      ensures KeyOf(next.active[i].left[a]) != KeyOf(next.active[j].left[b])
    {
      assert KeyOf(s.active[i].left[Original(k, i, a)]) != KeyOf(s.active[j].left[Original(k, j, b)]);
    }
  }

  /** Where signal `a` of run `i` was before run `k` advanced. */
  function Original(k: nat, i: nat, a: nat): nat {
    if i == k then a + 1 else a
  }

  /** One more signal is stored, and one less is to come. */
  lemma AdvanceStaysEager(s: Shared, k: nat, id: Signal -> string, day: int)
    requires Eager(s, day) && k < |s.active| && s.active[k].slots > 0
    ensures var next := Advanced(s, k, id);
            && Eager(next, day) && Pending(next.active, day) == Pending(s.active, day) - 1
            && |OnDay(next.stored, day)| == |OnDay(s.stored, day)| + 1
  {
    var next := Advanced(s, k, id);
    FundedRunAdvances(s, k, id);
    AdvanceStaysNew(s, next, k);
    PendingUpdate(s.active, k, next.active[k], day);
    assert Affordable(s.active[k].left[0], s.active[k].account);
    StoredOnceMore(s.stored, KeyOf(s.active[k].left[0]), day);
  }

  lemma {:induction false} PendingHasSlots(active: seq<Running>, day: int) returns (k: nat)
    requires Pending(active, day) > 0
    ensures k < |active| && active[k].slots > 0
  {
    var n := |active| - 1;
    if active[n].account.day == day && active[n].slots > 0 {
      k := n;
    } else {
      k := PendingHasSlots(active[..n], day);
    }
  }

  lemma Reached(events: seq<Event>, id: Signal -> string, runs: nat, limit: nat, s: Shared, e: Event)
    requires Reaches(events, id, runs, limit, s) && Possible(s, e, runs, limit)
    ensures Reaches(events + [e], id, runs, limit, After(s, e, id, runs, limit))
  {
    assert (events + [e])[..|events|] == events;
  }

  /** Eager runs go on until every slot is used. */
  lemma {:induction false} EagerRunsUseAllSlots(
    events: seq<Event>, id: Signal -> string, runs: nat, limit: nat, s: Shared, day: int)
    returns (more: seq<Event>, end: Shared)
    requires Reaches(events, id, runs, limit, s) && Eager(s, day) && Pending(s.active, day) >= 0
    ensures Reaches(more, id, runs, limit, end)
    ensures |OnDay(end.stored, day)| == |OnDay(s.stored, day)| + Pending(s.active, day)
    decreases Pending(s.active, day)
  {
    if Pending(s.active, day) == 0 {
      more, end := events, s;
    } else {
      var k := PendingHasSlots(s.active, day);
      Reached(events, id, runs, limit, s, Advance(k));
      AdvanceStaysEager(s, k, id, day);
      more, end := EagerRunsUseAllSlots(events + [Advance(k)], id, runs, limit, Advanced(s, k, id), day);
    }
  }

  // ---------------------------------------------------------------- runs that begin together

  function Repeated(c: char, n: nat): string {
    seq(n, _ => c)
  }

  /** A name of its own for each signal of each run. */
  function NameOf(run: nat, signal: nat): string {
    Repeated('R', run + 1) + Repeated('S', signal)
  }

  lemma NamesDiffer(run: nat, signal: nat, otherRun: nat, otherSignal: nat)
    requires run != otherRun || signal != otherSignal
    ensures NameOf(run, signal) != NameOf(otherRun, otherSignal)
  {
    if run < otherRun {
      ShorterPrefixDiffers(run, signal, otherRun, otherSignal);
    } else if otherRun < run {
      ShorterPrefixDiffers(otherRun, otherSignal, run, signal);
    } else {
      assert |NameOf(run, signal)| == run + 1 + signal;
      assert |NameOf(otherRun, otherSignal)| == otherRun + 1 + otherSignal;
    }
  }

  lemma ShorterPrefixDiffers(run: nat, signal: nat, otherRun: nat, otherSignal: nat)
    requires run < otherRun
    ensures NameOf(run, signal) != NameOf(otherRun, otherSignal)
  {
    var a, b := NameOf(run, signal), NameOf(otherRun, otherSignal);
    assert b[run + 1] == 'R';
    assert run + 1 < |a| ==> a[run + 1] == 'S';
  }

  function Share(secid: string): Instrument {
    InstrumentData(secid, secid, 1, 1.0, "RUB", "I", "S", "C", "share", false)
  }

  function NamesOf(run: nat, limit: nat): set<string> {
    set a | 0 <= a < limit :: NameOf(run, a)
  }

  function AccountOf(run: nat, limit: nat): Account {
    Account(0, limit as real, limit as real, 0.0, map[], map secid | secid in NamesOf(run, limit) :: Share(secid), map[])
  }

  function ConfigOf(limit: nat): Config {
    Config(limit, limit, limit as real, 1.0, 1.0, false)
  }

  function SignalOf(run: nat, signal: nat): Signal {
    Signal(NameOf(run, signal), Buy, 0, 1.0)
  }

  function SignalsOf(run: nat, limit: nat): seq<Signal> {
    seq(limit, a requires 0 <= a < limit => SignalOf(run, a))
  }

  function Starter(run: nat, limit: nat): Running {
    Running(AccountOf(run, limit), ConfigOf(limit), SignalsOf(run, limit), limit, limit, limit as real)
  }

  function Starters(runs: nat, limit: nat): seq<Running> {
    seq(runs, r requires 0 <= r < runs => Starter(r, limit))
  }

  lemma StarterBegins(run: nat, limit: nat)
    ensures Begun({}, AccountOf(run, limit), ConfigOf(limit), SignalsOf(run, limit)) == Starter(run, limit)
  {
    var account := AccountOf(run, limit);
    assert OnDay({}, 0) == {};
    assert !Unpriced(account) && Exposures(account) == map[];
    assert Total(map[]) == 0.0;
    WholeEquityIsCapital(account, ConfigOf(limit), limit as real);
  }

  lemma WholeEquityIsCapital(a: Account, config: Config, amount: real)
    requires a.cash == a.equity == config.maxDailyTurnover == amount >= 0.0
    requires config.maxCapitalWeight == 1.0 && a.dailyTurnover == 0.0
    ensures Capital(a, config, 0.0) == amount
  {
  }

  lemma StarterIsFunded(run: nat, limit: nat)
    ensures Funded(Starter(run, limit))
  {
    forall a | 0 <= a < limit ensures Affordable(SignalsOf(run, limit)[a], AccountOf(run, limit)) {
      assert NameOf(run, a) in NamesOf(run, limit);
    }
  }

  lemma StartersAreNew(runs: nat, limit: nat)
    ensures AllNew(Shared({}, Starters(runs, limit)))
  {
    forall i, a, j, b | 0 <= i < runs && 0 <= a < limit && 0 <= j < runs && 0 <= b < limit && (i != j || a != b)
      ensures KeyOf(SignalOf(i, a)) != KeyOf(SignalOf(j, b))
    {
      NamesDiffer(i, a, j, b);
    }
  }

  lemma StartersAreEager(runs: nat, limit: nat)
    ensures Eager(Shared({}, Starters(runs, limit)), 0)
  {
    StartersAreNew(runs, limit);
    forall i | 0 <= i < runs ensures Funded(Starters(runs, limit)[i]) {
      StarterIsFunded(i, limit);
    }
  }

  lemma {:induction false} StartersPending(runs: nat, limit: nat)
    ensures Pending(Starters(runs, limit), 0) == Times(runs, limit)
  {
    if runs > 0 {
      StartersPending(runs - 1, limit);
      OneRunMore(runs - 1, limit);
      assert Starters(runs, limit)[..runs - 1] == Starters(runs - 1, limit);
    }
  }

  /** One more run begins while nothing is stored. */
  lemma NextStarterBegins(begun: nat, id: Signal -> string, runs: nat, limit: nat) returns (e: Event)
    requires begun < runs
    ensures Possible(Shared({}, Starters(begun, limit)), e, runs, limit)
    ensures After(Shared({}, Starters(begun, limit)), e, id, runs, limit) == Shared({}, Starters(begun + 1, limit))
  {
    e := Begin(AccountOf(begun, limit), ConfigOf(limit), SignalsOf(begun, limit));
    assert OfDay(SignalsOf(begun, limit), 0);
    StarterBegins(begun, limit);
    assert Starters(begun, limit) + [Starter(begun, limit)] == Starters(begun + 1, limit);
  }

  lemma {:induction false} StartersBegin(begun: nat, id: Signal -> string, runs: nat, limit: nat) returns (events: seq<Event>)
    requires begun <= runs
    ensures Reaches(events, id, runs, limit, Shared({}, Starters(begun, limit)))
  {
    if begun == 0 {
      events := [];
    } else {
      events := StartersBegin(begun - 1, id, runs, limit);
      var e := NextStarterBegins(begun - 1, id, runs, limit);
      Reached(events, id, runs, limit, Shared({}, Starters(begun - 1, limit)), e);
      events := events + [e];
    }
  }

  // ---------------------------------------------------------------- the exact limits

  /** The bound is reached, for any number of runs at a time and any entry limit. */
  lemma OverlapReachesTheBound(id: Signal -> string, runs: nat, limit: nat)
    ensures exists events, s :: Reaches(events, id, runs, limit, s) && |OnDay(s.stored, 0)| == runs * limit
  {
    var events := StartersBegin(runs, id, runs, limit);
    var together := Shared({}, Starters(runs, limit));
    StartersAreEager(runs, limit);
    StartersPending(runs, limit);
    var more, end := EagerRunsUseAllSlots(events, id, runs, limit, together, 0);
    assert OnDay({}, 0) == {};
  }

  /** No interleaving of so many runs stores more than `bound` signals on any day. */
  ghost predicate NeverAbove(id: Signal -> string, runs: nat, limit: nat, bound: int) {
    forall events, s, day :: Reaches(events, id, runs, limit, s) ==> |OnDay(s.stored, day)| <= bound
  }

  /** What is stored on a day stays within a bound in every interleaving if and only if the product does. */
  lemma OverlapBoundIsExact(id: Signal -> string, runs: nat, limit: nat, bound: int)
    ensures NeverAbove(id, runs, limit, bound) <==> runs * limit <= bound
  {
    OverlapReachesTheBound(id, runs, limit);
    if runs * limit <= bound {
      forall events, s, day | Reaches(events, id, runs, limit, s) ensures |OnDay(s.stored, day)| <= bound {
        OverlappingEntryLimit(events, id, runs, limit, s, day);
      }
    }
  }

  /** The daily entry limit holds in every interleaving if and only if runs do not overlap, or nothing may be entered. */
  lemma EntryLimitSurvivesIff(id: Signal -> string, runs: nat, limit: nat)
    ensures NeverAbove(id, runs, limit, limit) <==> runs <= 1 || limit == 0
  {
    OverlapBoundIsExact(id, runs, limit, limit);
    ProductWithin(runs, limit);
  }

  lemma ProductWithin(runs: nat, limit: nat)
    ensures runs * limit <= limit <==> runs <= 1 || limit == 0
  {
    if runs >= 2 {
      assert runs * limit == limit + (runs - 1) * limit;
    }
  }
}
