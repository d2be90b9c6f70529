/** The loops of `match_session`, proved to compute `Match` and to raise exactly on inadmissible input. */
module MatcherLoop {
  import opened Domain
  import opened Matcher

  /** The events of one symbol, refused when a window leaves the day, comes too early or overlaps the one before it. */
  method SymbolEvents(day: int, indices: seq<nat>, ws: seq<Window>) returns (r: Result<seq<Event>>)
    requires forall j, k :: 0 <= j < k < |indices| ==> indices[j] < indices[k]
    ensures r.Ok? <==> SameSession(day, ws)
    ensures r.Ok? ==> KeysDiffer(r.value)
    ensures r.Ok? ==> forall e :: e in r.value <==> e.order in indices && e.window in ws && e.end == e.window.end
  {
    var previousEnd := -1;
    var events := [];
    for k := 0 to |ws|
      invariant SameSession(day, ws[..k])
      invariant previousEnd == if k == 0 then -1 else ws[k - 1].end
      invariant forall j :: 0 <= j < k ==> ws[j].end <= previousEnd
      invariant KeysDiffer(events)
      invariant forall e :: e in events <==> e.order in indices && e.window in ws[..k] && e.end == e.window.end
    {
      var w := ws[k];
      if w.candle.day != day || w.start < previousEnd {
        assert k > 0 ==> previousEnd == ws[k - 1].end;
        return Err("execution windows must be same-session, ordered and disjoint");
      }
      previousEnd := w.end;
      var added := seq(|indices|, m requires 0 <= m < |indices| => Event(w.end, indices[m], w));
      assert ws[..k + 1] == ws[..k] + [w];
      AppendLater(events, added, w, indices);
      events := events + added;
    }
    assert ws[..|ws|] == ws;
    return Ok(events);
  }

  lemma AppendLater(events: seq<Event>, added: seq<Event>, w: Window, indices: seq<nat>)
    requires KeysDiffer(events)
    requires forall j, k :: 0 <= j < k < |indices| ==> indices[j] < indices[k]
    requires |added| == |indices| && forall m :: 0 <= m < |added| ==> added[m] == Event(w.end, indices[m], w)
    requires forall e :: e in events ==> e.end < w.end
    ensures KeysDiffer(events + added)
    ensures forall e :: e in added <==> e.order in indices && e.window == w && e.end == w.end
  {
    var s := events + added;
    forall j, k | 0 <= j < k < |s| ensures Before(s[j], s[k]) || Before(s[k], s[j]) {
      if j < |events| <= k {
        assert s[j] in events;
      }
    }
    forall e: Event | e.order in indices && e.window == w && e.end == w.end ensures e in added {
      var m :| 0 <= m < |indices| && indices[m] == e.order;
      assert added[m] == e;
    }
  }

  lemma AppendOtherOrders(events: seq<Event>, added: seq<Event>)
    requires KeysDiffer(events) && KeysDiffer(added)
    requires forall e, f :: e in events && f in added ==> e.order != f.order
    ensures KeysDiffer(events + added)
  {
    var s := events + added;
    forall j, k | 0 <= j < k < |s| ensures Before(s[j], s[k]) || Before(s[k], s[j]) {
      if j < |events| <= k {
        assert s[j] in events && s[k] in added;
      }
    }
  }

  /** `by_symbol`: the order indices of each security, in the order securities first appear. */
  ghost predicate Groups(orders: Orders, n: nat, symbols: seq<string>, bySymbol: map<string, seq<nat>>)
    requires n <= |orders|
  {
    && Listed(symbols, bySymbol)
    && Grouped(orders, n, bySymbol)
  }

  ghost predicate Listed(symbols: seq<string>, bySymbol: map<string, seq<nat>>) {
    && (forall k :: 0 <= k < |symbols| ==> symbols[k] !in symbols[..k])
    && (forall s :: s in symbols <==> s in bySymbol)
  }

  lemma ListedGrows(symbols: seq<string>, bySymbol: map<string, seq<nat>>, s: string, indices: seq<nat>)
    requires Listed(symbols, bySymbol) && s !in bySymbol
    ensures Listed(symbols + [s], bySymbol[s := indices])
  {
    var r := symbols + [s];
    forall k | 0 <= k < |r| ensures r[k] !in r[..k] {
      assert r[..k] == symbols[..k];
    }
  }

  ghost predicate Grouped(orders: Orders, n: nat, bySymbol: map<string, seq<nat>>)
    requires n <= |orders|
  {
    && (forall i :: 0 <= i < n ==> Secid(orders[i]) in bySymbol)
    && (forall s :: s in bySymbol ==> bySymbol[s] != [] && Group(orders, n, s, bySymbol[s]))
  }

  ghost predicate Group(orders: Orders, n: nat, s: string, indices: seq<nat>)
    requires n <= |orders|
  {
    && (forall j, k :: 0 <= j < k < |indices| ==> indices[j] < indices[k])
    && (forall i: nat :: i in indices <==> i < n && Secid(orders[i]) == s)
  }

  lemma GroupGrows(orders: Orders, n: nat, s: string, indices: seq<nat>)
    requires n < |orders| && Group(orders, n, s, indices)
    ensures Group(orders, n + 1, s, if Secid(orders[n]) == s then indices + [n] else indices)
  {
    var r := indices + [n];
    forall j, k | 0 <= j < k < |r| ensures r[j] < r[k] {
      assert r[j] in indices;
    }
    assert forall i: nat :: i in r <==> i in indices || i == n;
  }

  lemma GroupedGrows(orders: Orders, n: nat, bySymbol: map<string, seq<nat>>)
    requires n < |orders| && Grouped(orders, n, bySymbol)
    ensures var s := Secid(orders[n]);
            Grouped(orders, n + 1, bySymbol[s := GroupOf(bySymbol, s) + [n]])
  {
    var s := Secid(orders[n]);
    forall u | u in bySymbol || u == s
      ensures Group(orders, n + 1, u, GroupOf(bySymbol, u) + if u == s then [n] else [])
    {
      GroupOfGrows(orders, n, bySymbol, u);
    }
    forall i | 0 <= i <= n ensures Secid(orders[i]) in bySymbol || Secid(orders[i]) == s {
    }
  }

  function GroupOf(bySymbol: map<string, seq<nat>>, s: string): seq<nat> {
    if s in bySymbol then bySymbol[s] else []
  }

  lemma GroupOfGrows(orders: Orders, n: nat, bySymbol: map<string, seq<nat>>, u: string)
    requires n < |orders| && Grouped(orders, n, bySymbol)
    ensures Group(orders, n + 1, u, GroupOf(bySymbol, u) + if u == Secid(orders[n]) then [n] else [])
  {
    assert Group(orders, n, u, GroupOf(bySymbol, u));
    GroupGrows(orders, n, u, GroupOf(bySymbol, u));
    assert GroupOf(bySymbol, u) + [] == GroupOf(bySymbol, u);
  }

  /** One more order joins its group, or opens one. */
  lemma GroupsGrow(orders: Orders, n: nat, symbols: seq<string>, bySymbol: map<string, seq<nat>>)
    requires n < |orders| && Groups(orders, n, symbols, bySymbol)
    ensures var s := Secid(orders[n]);
            Groups(orders, n + 1, if s in bySymbol then symbols else symbols + [s],
                   bySymbol[s := GroupOf(bySymbol, s) + [n]])
  {
    var s := Secid(orders[n]);
    GroupedGrows(orders, n, bySymbol);
    if s !in bySymbol {
      ListedGrows(symbols, bySymbol, s, GroupOf(bySymbol, s) + [n]);
    }
  }

  /** `by_symbol[secid].append(i)`, which opens the group on its first order. */
  method AddToGroup(orders: Orders, n: nat, symbols: seq<string>, bySymbol: map<string, seq<nat>>)
    returns (nextSymbols: seq<string>, nextBySymbol: map<string, seq<nat>>)
    requires n < |orders| && Groups(orders, n, symbols, bySymbol)
    ensures Groups(orders, n + 1, nextSymbols, nextBySymbol)
  {
    GroupsGrow(orders, n, symbols, bySymbol);
    var s := Secid(orders[n]);
    nextSymbols := symbols;
    if s !in bySymbol {
      nextSymbols := symbols + [s];
    }
    nextBySymbol := bySymbol[s := GroupOf(bySymbol, s) + [n]];
  }

  method GroupBySymbol(orders: Orders) returns (r: Result<(seq<string>, map<string, seq<nat>>)>)
    ensures r.Ok? <==> forall i :: 0 <= i < |orders| ==> IsValidatedLimit(orders[i])
    ensures r.Ok? ==> Groups(orders, |orders|, r.value.0, r.value.1)
  {
    var symbols: seq<string> := [];
    var bySymbol: map<string, seq<nat>> := map[];
    for n := 0 to |orders|
      invariant Groups(orders, n, symbols, bySymbol)
      invariant forall i :: 0 <= i < n ==> IsValidatedLimit(orders[i])
    {
      if !IsValidatedLimit(orders[n]) {
        return Err("only validated limit orders can enter the historical matcher");
      }
      symbols, bySymbol := AddToGroup(orders, n, symbols, bySymbol);
    }
    return Ok((symbols, bySymbol));
  }

  /** The events collected for some of the securities. */
  ghost predicate Collected(orders: Orders, windows: WindowBook, symbols: seq<string>, events: seq<Event>) {
    && KeysDiffer(events)
    && forall e :: e in events <==> IsEvent(orders, windows, e) && Secid(orders[e.order]) in symbols
  }

  /** The events of one more security. */
  lemma AppendSymbol(orders: Orders, windows: WindowBook, before: seq<string>, s: string, events: seq<Event>, added: seq<Event>)
    requires s !in before && Collected(orders, windows, before, events) && Collected(orders, windows, [s], added)
    ensures Collected(orders, windows, before + [s], events + added)
  {
    forall e, f | e in events && f in added ensures e.order != f.order {
      assert Secid(orders[e.order]) in before;
      assert Secid(orders[f.order]) in [s];
    }
    AppendOtherOrders(events, added);
  }

  /** The windows of one security, for all its orders. */
  method CollectSymbol(day: int, orders: Orders, windows: WindowBook, s: string, indices: seq<nat>)
    returns (r: Result<seq<Event>>)
    requires Group(orders, |orders|, s, indices)
    ensures r.Ok? <==> SameSession(day, WindowsOf(windows, s))
    ensures r.Ok? ==> Collected(orders, windows, [s], r.value)
  {
    r := SymbolEvents(day, indices, WindowsOf(windows, s));
  }

  lemma GroupedOrdersAreAdmissible(day: int, orders: Orders, windows: WindowBook, symbols: seq<string>,
                                   bySymbol: map<string, seq<nat>>)
    requires Groups(orders, |orders|, symbols, bySymbol) && forall i :: 0 <= i < |orders| ==> IsValidatedLimit(orders[i])
    ensures Admissible(day, orders, windows) <==> forall s :: s in symbols ==> SameSession(day, WindowsOf(windows, s))
  {
    if Admissible(day, orders, windows) {
      forall s | s in symbols ensures SameSession(day, WindowsOf(windows, s)) {
        assert Group(orders, |orders|, s, bySymbol[s]) && bySymbol[s][0] in bySymbol[s];
      }
    }
  }

  lemma EveryEventIsGrouped(orders: Orders, windows: WindowBook, symbols: seq<string>, bySymbol: map<string, seq<nat>>,
                            events: seq<Event>)
    requires Groups(orders, |orders|, symbols, bySymbol) && Collected(orders, windows, symbols, events)
    ensures forall e :: e in events <==> IsEvent(orders, windows, e)
  {
  }

  method CollectEvents(day: int, orders: Orders, windows: WindowBook) returns (r: Result<seq<Event>>)
    ensures r.Ok? <==> Admissible(day, orders, windows)
    ensures r.Ok? ==> KeysDiffer(r.value)
    ensures r.Ok? ==> forall e :: e in r.value <==> IsEvent(orders, windows, e)
  {
    var grouped := GroupBySymbol(orders);
    if grouped.Err? {
      return Err(grouped.error);
    }
    var (symbols, bySymbol) := grouped.value;
    GroupedOrdersAreAdmissible(day, orders, windows, symbols, bySymbol);
    r := CollectSymbols(day, orders, windows, symbols, bySymbol);
    if r.Ok? {
      EveryEventIsGrouped(orders, windows, symbols, bySymbol, r.value);
    }
  }

  /** The loop over the securities. */
  method CollectSymbols(day: int, orders: Orders, windows: WindowBook, symbols: seq<string>, bySymbol: map<string, seq<nat>>)
    returns (r: Result<seq<Event>>)
    requires Groups(orders, |orders|, symbols, bySymbol)
    ensures r.Ok? <==> forall s :: s in symbols ==> SameSession(day, WindowsOf(windows, s))
    ensures r.Ok? ==> Collected(orders, windows, symbols, r.value)
  {
    var events: seq<Event> := [];
    for a := 0 to |symbols|
      invariant forall s :: s in symbols[..a] ==> SameSession(day, WindowsOf(windows, s))
      invariant Collected(orders, windows, symbols[..a], events)
    {
      var s := symbols[a];
      assert s in symbols && Group(orders, |orders|, s, bySymbol[s]);
      var added := CollectSymbol(day, orders, windows, s, bySymbol[s]);
      if added.Err? {
        return Err(added.error);
      }
      assert symbols[..a + 1] == symbols[..a] + [s];
      AppendSymbol(orders, windows, symbols[..a], s, events, added.value);
      events := events + added.value;
    }
    assert symbols[..|symbols|] == symbols;
    return Ok(events);
  }

  /** The branches of one event that come before the mutation of cash and positions. */
  method DecideEvent(o: OrderIntent, t: Terms, b: Book, done: int, w: Window) returns (v: Verdict)
    ensures v == Decide(o, t, b, done, w)
  {
    if done == o.lots {
      return Complete;
    }
    if w.start < t.latency {
      return Miss(NotActiveForFullWindow);
    }
    var c := w.candle;
    if !Crosses(o, c, t.impact) {
      return Miss(NoTradeThrough);
    }
    var price := DealPrice(o, c, t.impact);
    if !Executable(o, c, price) {
      return Miss(NoExecutableTick);
    }
    var capacity := Budget(w, t) - Consumed(b.consumed, (o.instrument.secid, w.start));
    var lots := MinInt(o.lots - done, capacity / o.instrument.lotSize);
    assert lots == Room(o, t, b, done, w);
    if lots <= 0 {
      return Miss(VolumeCap);
    }
    lots := Admitted(o, t, b.cash, Lots(b.held, o.instrument.secid), price, lots);
    if lots == 0 {
      return Miss(if o.side == Buy then CashOrReserve else NoUnreservedPosition);
    }
    return Deal(lots, price);
  }

  /** One iteration of the event loop: decide, then mutate cash, positions, budget, counts and fills. */
  method ProcessEvent(
    day: int, orders: Orders, t: Terms, e: Event, cash: real, held: map<string, int>,
    consumed: map<(string, int), int>, done: array<int>, reasons: array<FillReason>, fills: seq<Trade>)
    returns (cash': real, held': map<string, int>, consumed': map<(string, int), int>, fills': seq<Trade>)
    requires e.order < |orders| == done.Length == reasons.Length
    modifies done, reasons
    ensures Book(cash', held', consumed', done[..], reasons[..], fills') ==
            Step(day, orders, t, old(Book(cash, held, consumed, done[..], reasons[..], fills)), e)
  {
    cash', held', consumed', fills' := cash, held, consumed, fills;
    var i, w, o := e.order, e.window, orders[e.order].intent;
    ghost var before := Book(cash, held, consumed, done[..], reasons[..], fills);
    var verdict := DecideEvent(o, t, Book(cash, held, consumed, done[..], reasons[..], fills), done[i], w);
    match verdict
    case Complete =>
    case Miss(reason) =>
      reasons[i] := reason;
      assert reasons[..] == before.reasons[i := reason];
    case Deal(lots, price) =>
      var f := TradeOf(day, o, t, w, lots, price);
      cash', held', consumed', fills' := SettleTrade(o, i, cash, held, consumed, done, reasons, fills, f);
  }

  method SettleTrade(
    o: OrderIntent, i: nat, cash: real, held: map<string, int>, consumed: map<(string, int), int>,
    done: array<int>, reasons: array<FillReason>, fills: seq<Trade>, f: Trade)
    returns (cash': real, held': map<string, int>, consumed': map<(string, int), int>, fills': seq<Trade>)
    requires i < done.Length == reasons.Length
    modifies done, reasons
    ensures Book(cash', held', consumed', done[..], reasons[..], fills') ==
            Settle(o, old(Book(cash, held, consumed, done[..], reasons[..], fills)), i, f)
  {
    ghost var before := Book(cash, held, consumed, done[..], reasons[..], fills);
    cash' := cash + (if f.side == Buy then -f.gross else f.gross) - f.commission;
    var next := Lots(held, f.secid) + if f.side == Buy then f.lots else -f.lots;
    held' := held[f.secid := next];
    if next == 0 {
      held' := held' - {f.secid};
      assert held' == held - {f.secid};
    }
    var key := (f.secid, f.windowStart);
    consumed' := consumed[key := Consumed(consumed, key) + f.units];
    done[i] := done[i] + f.lots;
    reasons[i] := if done[i] == o.lots then FullyFilled else CapacityOrCashPartial;
    fills' := fills + [f];
    assert done[..] == before.done[i := done[i]] && reasons[..] == before.reasons[i := reasons[i]];
  }

  /** The event loop over a sorted schedule. */
  method ReplaySchedule(
    day: int, orders: Orders, t: Terms, schedule: seq<Event>, openingCash: real, positions: map<string, int>)
    returns (b: Book)
    requires Indexed(orders, schedule)
    ensures b == Replay(day, orders, t, Opening(orders, openingCash, positions), schedule)
  {
    var cash, held, fills := openingCash, positions, [];
    var consumed: map<(string, int), int> := map[];
    var done := new int[|orders|](_ => 0);
    var reasons := new FillReason[|orders|](_ => MissingWindow);
    ghost var opening := Opening(orders, openingCash, positions);
    assert done[..] == opening.done && reasons[..] == opening.reasons;
    for k := 0 to |schedule|
      invariant Book(cash, held, consumed, done[..], reasons[..], fills) ==
                Replay(day, orders, t, opening, schedule[..k])
    {
      assert schedule[..k + 1][..k] == schedule[..k];
      cash, held, consumed, fills :=
        ProcessEvent(day, orders, t, schedule[k], cash, held, consumed, done, reasons, fills);
    }
    assert schedule[..|schedule|] == schedule;
    b := Book(cash, held, consumed, done[..], reasons[..], fills);
  }

  method SortedEvents(day: int, orders: Orders, windows: WindowBook) returns (r: Result<seq<Event>>)
    ensures r.Ok? <==> Admissible(day, orders, windows)
    ensures r.Ok? ==> r.value == Schedule(orders, windows)
  {
    var collected := CollectEvents(day, orders, windows);
    if collected.Err? {
      return collected;
    }
    var schedule := Sort(collected.value);
    SortKeepsElements(collected.value);
    ScheduleIsUnique(day, orders, windows);
    assert IsSchedule(orders, windows, schedule);
    return Ok(schedule);
  }

  method MatchSession(
    day: int, orders: Orders, windows: WindowBook, openingCash: real, positions: map<string, int>, t: Terms)
    returns (r: Result<Session>)
    ensures r.Ok? <==> Admissible(day, orders, windows)
    ensures r.Ok? ==> r.value == Match(day, orders, windows, openingCash, positions, t)
  {
    var schedule := SortedEvents(day, orders, windows);
    if schedule.Err? {
      return Err(schedule.error);
    }
    ScheduleIsIndexed(day, orders, windows);
    var b := ReplaySchedule(day, orders, t, schedule.value, openingCash, positions);
    return Ok(SessionOf(day, orders, b));
  }
}
