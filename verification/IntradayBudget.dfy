/**
 The daily entry and capital budget of src/moex_bot/intraday.py: the signal store and the entry loop of
 `build_intraday_plan`, over all planning runs.
 */
module IntradayBudget {
  import opened Domain
  import opened Sums

  datatype Signal = Signal(secid: string, side: Side, observedAt: int, price: real)

  /** The primary key of a stored signal. */
  datatype Key = Key(secid: string, observedAt: int, side: Side)

  datatype Config = Config(
    maxEntriesPerDay: int, maxPositions: int, maxDailyTurnover: real, maxCapitalWeight: real,
    maxPositionNotional: real, allowShort: bool)

  /** The account and the day a plan is built for. */
  datatype Account = Account(
    day: int, cash: real, equity: real, dailyTurnover: real, positions: map<string, int>,
    instruments: map<string, Instrument>, prices: map<string, real>)

  function KeyOf(s: Signal): Key {
    Key(s.secid, s.observedAt, s.side)
  }

  function OnDay(signals: set<Key>, day: int): set<Key> {
    set k | k in signals && MoscowDay(k.observedAt) == day
  }

  class IntradayStateStore {
    var signals: set<Key>

    constructor ()
      ensures signals == {}
    {
      signals := {};
    }

    /** `mark_signal`: whether the signal is new. */
    method MarkSignal(s: Signal) returns (isNew: bool)
      modifies this
      ensures isNew == (KeyOf(s) !in old(signals)) && signals == old(signals) + {KeyOf(s)}
    {
      isNew := KeyOf(s) !in signals;
      signals := signals + {KeyOf(s)};
    }

    /** `entries`: the rows whose trading day is this one. */
    method Entries(day: int) returns (count: nat)
      ensures count == |OnDay(signals, day)|
    {
      count := 0;
      var rest := signals;
      ghost var counted: set<Key> := {};
      while rest != {}
        invariant rest <= signals && counted == OnDay(signals - rest, day) && count == |counted|
        decreases rest
      {
        var k :| k in rest;
        if MoscowDay(k.observedAt) == day {
          count := count + 1;
          counted := counted + {k};
        }
        rest := rest - {k};
      }
      assert signals - rest == signals;
    }
  }

  /** A position that the loop over the exposures has no instrument or no price for. */
  ghost predicate Unpriced(a: Account) {
    exists secid :: secid in a.positions && !(secid in a.instruments && secid in a.prices)
  }

  function Exposures(a: Account): map<string, real> {
    map secid | secid in a.positions && secid in a.instruments && secid in a.prices ::
      ExposureOf(a.positions[secid], a.instruments[secid].lotSize, a.prices[secid])
  }

  function ExposureOf(lots: int, lotSize: int, price: real): real {
    AbsInt(lots) as real * lotSize as real * price
  }

  /** `capital_left` at the start of the loop, given the gross exposure of the positions. */
  function Capital(a: Account, config: Config, gross: real): real {
    Min(Min(a.cash, Max(0.0, a.equity * config.maxCapitalWeight - gross)), Max(0.0, config.maxDailyTurnover - a.dailyTurnover))
  }

  function LotValue(price: real, lotSize: int): real {
    price * lotSize as real
  }

  function Cost(lotValue: real, lots: int): real {
    lots as real * lotValue
  }

  /** `_entry_order`: as many lots as the budget buys, or none. A price that rounds to zero is an error. */
  function EntryOrder(i: Instrument, s: Signal, budget: real, id: string): Result<Option<OrderIntent>> {
    var price := TickRound(s.price, i.tickSize);
    var lotValue := LotValue(price, i.lotSize);
    if lotValue <= 0.0 then Err("division by a price of zero")
    else
      var lots := (budget / lotValue).Floor;
      if lots <= 0 || Cost(lotValue, lots) <= 0.0 then Ok(None)
      else Ok(Some(IntentData(id, i, s.side, lots, price, Cost(lotValue, lots), "intraday momentum",
                              s.side == Sell, "limit")))
  }

  // ---------------------------------------------------------------- the entry loop

  /** What the loop changes. */
  datatype Plan = Plan(stored: set<Key>, slots: int, positionSlots: int, capital: real, orders: seq<OrderIntent>)

  /** Everything that keeps a signal from an order before it is sized. */
  predicate Refused(p: Plan, a: Account, config: Config, s: Signal, i: Instrument) {
    || p.slots == 0 || p.positionSlots == 0 || s.secid in a.positions
    || (s.side == Sell && (!config.allowShort || !i.shortEnabled))
  }

  /** One iteration; `id` names the order of a signal. */
  function PlanOne(p: Plan, a: Account, config: Config, s: Signal, id: Signal -> string): Result<Plan> {
    if s.secid !in a.instruments then Err("unknown instrument")
    else
      var i := a.instruments[s.secid];
      if Refused(p, a, config, s, i) then Ok(p)
      else
        var order := EntryOrder(i, s, Min(config.maxPositionNotional, p.capital), id(s));
        if order.Err? then Err(order.error)
        else if order.value.None? || KeyOf(s) in p.stored then Ok(p)
        else
          Ok(Plan(p.stored + {KeyOf(s)}, p.slots - 1, p.positionSlots - 1, p.capital - order.value.value.notional,
                  p.orders + [order.value.value]))
  }

  /** The state after these signals; the loop ends at the first error and keeps what it has stored. */
  function PlanAll(p: Plan, a: Account, config: Config, signals: seq<Signal>, id: Signal -> string): (Plan, Option<string>) {
    if signals == [] then (p, None)
    else
      var (before, failure) := PlanAll(p, a, config, signals[..|signals| - 1], id);
      if failure.Some? then (before, failure)
      else
        var next := PlanOne(before, a, config, signals[|signals| - 1], id);
        if next.Err? then (before, Some(next.error)) else (next.value, None)
  }

  /** The state in which the loop starts. */
  function Opening(stored: set<Key>, a: Account, config: Config, gross: real): Plan {
    Plan(stored, MaxInt(0, config.maxEntriesPerDay - |OnDay(stored, a.day)|),
         MaxInt(0, config.maxPositions - |a.positions|), Capital(a, config, gross), [])
  }

  /** The entry part of `build_intraday_plan`, which fails first on a position that it cannot price. */
  ghost function PlannedEntries(stored: set<Key>, a: Account, config: Config, signals: seq<Signal>, id: Signal -> string)
    : (Plan, Option<string>)
  {
    if Unpriced(a) then (Plan(stored, 0, 0, 0.0, []), Some("position without instrument or price"))
    else PlanAll(Opening(stored, a, config, Total(Exposures(a))), a, config, signals, id)
  }

  method PlanEntries(store: IntradayStateStore, a: Account, config: Config, signals: seq<Signal>, id: Signal -> string)
    returns (r: Result<seq<OrderIntent>>)
    modifies store
    ensures var plan := PlannedEntries(old(store.signals), a, config, signals, id);
            && store.signals == plan.0.stored && (r.Ok? <==> plan.1.None?)
            && (r.Ok? ==> r.value == plan.0.orders)
  {
    var gross := GrossExposure(a);
    if gross.Err? {
      return Err(gross.error);
    }
    var entered := store.Entries(a.day);
    var slots := MaxInt(0, config.maxEntriesPerDay - entered);
    var positionSlots := MaxInt(0, config.maxPositions - |a.positions|);
    var capital := Capital(a, config, gross.value);
    assert Plan(store.signals, slots, positionSlots, capital, []) == Opening(store.signals, a, config, gross.value);
    r := RunEntries(store, a, config, signals, id, slots, positionSlots, capital);
  }

  /** `current_gross`: the loop over the positions. */
  method GrossExposure(a: Account) returns (gross: Result<real>)
    ensures gross.Err? <==> Unpriced(a)
    ensures gross.Ok? ==> gross.value == Total(Exposures(a))
  {
    var total := 0.0;
    var rest := a.positions.Keys;
    ghost var seen: map<string, real> := map[];
    while rest != {}
      invariant rest <= a.positions.Keys
      invariant forall secid :: secid in a.positions && secid !in rest ==> secid in a.instruments && secid in a.prices
      invariant seen == map secid | secid in Exposures(a) && secid !in rest :: Exposures(a)[secid]
      invariant total == Total(seen)
      decreases rest
    {
      var secid :| secid in rest;
      if secid !in a.instruments || secid !in a.prices {
        return Err("position without instrument or price");
      }
      var exposure := ExposureOf(a.positions[secid], a.instruments[secid].lotSize, a.prices[secid]);
      TotalUpdate(seen, secid, exposure);
      seen := seen[secid := exposure];
      total := total + exposure;
      rest := rest - {secid};
    }
    assert seen == Exposures(a);
    return Ok(total);
  }

  /** The loop over the signals. */
  method RunEntries(store: IntradayStateStore, a: Account, config: Config, signals: seq<Signal>, id: Signal -> string,
                    slotsLeft: int, positionSlotsLeft: int, capitalLeft: real) returns (r: Result<seq<OrderIntent>>)
    modifies store
    ensures var plan := PlanAll(Plan(old(store.signals), slotsLeft, positionSlotsLeft, capitalLeft, []), a, config, signals, id);
            && store.signals == plan.0.stored && (r.Ok? <==> plan.1.None?)
            && (r.Ok? ==> r.value == plan.0.orders)
  {
    var slots, positionSlots, capital := slotsLeft, positionSlotsLeft, capitalLeft;
    var orders: seq<OrderIntent> := [];
    ghost var start := Plan(store.signals, slots, positionSlots, capital, orders);
    for k := 0 to |signals|
      invariant PlanAll(start, a, config, signals[..k], id) ==
                (Plan(store.signals, slots, positionSlots, capital, orders), None)
    {
      assert signals[..k + 1][..k] == signals[..k];
      var order := PlanSignal(store, a, config, signals[k], id, slots, positionSlots, capital, orders);
      if order.Err? {
        ErrorStays(start, a, config, signals, id, k + 1);
        return Err(order.error);
      }
      if order.value.Some? {
        orders := orders + [order.value.value];
        slots := slots - 1;
        positionSlots := positionSlots - 1;
        capital := capital - order.value.value.notional;
      }
    }
    assert signals[..|signals|] == signals;
    return Ok(orders);
  }

  /** One iteration of the loop: the order of a new signal that fits, which is then marked. */
  method PlanSignal(store: IntradayStateStore, a: Account, config: Config, s: Signal, id: Signal -> string,
                    slots: int, positionSlots: int, capital: real, ghost orders: seq<OrderIntent>)
    returns (r: Result<Option<OrderIntent>>)
    modifies store
    ensures match PlanOne(Plan(old(store.signals), slots, positionSlots, capital, orders), a, config, s, id)
            case Err(_) => r.Err? && store.signals == old(store.signals)
            case Ok(next) =>
              && r.Ok? && store.signals == next.stored
              && next == match r.value
                         case None => Plan(store.signals, slots, positionSlots, capital, orders)
                         case Some(o) =>
                           Plan(store.signals, slots - 1, positionSlots - 1, capital - o.notional, orders + [o])
  {
    if s.secid !in a.instruments {
      return Err("unknown instrument");
    }
    var i := a.instruments[s.secid];
    if slots == 0 || positionSlots == 0 || s.secid in a.positions {
      return Ok(None);
    }
    if s.side == Sell && (!config.allowShort || !i.shortEnabled) {
      return Ok(None);
    }
    r := EntryOrder(i, s, Min(config.maxPositionNotional, capital), id(s));
    if r.Ok? && r.value.Some? {
      var isNew := store.MarkSignal(s);
      if !isNew {
        return Ok(None);
      }
    }
  }

  lemma {:induction false} ErrorStays(p: Plan, a: Account, config: Config, signals: seq<Signal>, id: Signal -> string, k: nat)
    requires k <= |signals| && PlanAll(p, a, config, signals[..k], id).1.Some?
    ensures PlanAll(p, a, config, signals, id) == PlanAll(p, a, config, signals[..k], id)
    decreases |signals| - k
  {
    if k == |signals| {
      assert signals[..k] == signals;
    } else {
      assert signals[..k + 1][..k] == signals[..k];
      ErrorStays(p, a, config, signals, id, k + 1);
    }
  }
}
