/**
 What the DAY-limit matcher guarantees on every session: which fills it makes and that it makes
 the largest ones it may, that it never looks ahead, and what it conserves and bounds.
 */
module MatcherTheorems {
  import opened Domain
  import opened Matcher

  // ---------------------------------------------------------------- one fill

  /** The window may trade this order at the price the matcher would use. */
  predicate Tradable(o: OrderIntent, t: Terms, w: Window) {
    && t.latency <= w.start
    && Crosses(o, w.candle, t.impact)
    && Executable(o, w.candle, DealPrice(o, w.candle, t.impact))
  }

  /**
   `n` more lots respect the order, the shared volume budget of the window and the account: a buy
   leaves the reserve intact, or only covers a short with cash in hand; a sell without margin
   confirmation only sells what is held.
   */
  predicate Fits(o: OrderIntent, t: Terms, b: Book, done: int, w: Window, n: int) {
    && 1 <= n <= o.lots - done
    && Consumed(b.consumed, (o.instrument.secid, w.start)) + n * o.instrument.lotSize <= Budget(w, t)
    && Affordable(o, t, b.cash, Lots(b.held, o.instrument.secid), DealPrice(o, w.candle, t.impact), n)
  }

  predicate Affordable(o: OrderIntent, t: Terms, cash: real, current: int, price: real, n: int) {
    if o.side == Buy then
      || n as real * LotCost(o, t, price) <= cash - t.reserve
      || (n <= -current && n as real * LotCost(o, t, price) <= cash)
    else
      o.confirmMarginTrade || n <= current
  }

  lemma AdmittedIsExact(o: OrderIntent, t: Terms, cash: real, current: int, price: real, lots: int, n: int)
    requires price > 0.0 && 1 <= n && 1 <= lots
    ensures 0 <= Admitted(o, t, cash, current, price, lots)
    ensures n <= Admitted(o, t, cash, current, price, lots) <==> n <= lots && Affordable(o, t, cash, current, price, n)
  {
    if o.side == Buy {
      CostIsPositive(o, t, price);
      var cost := LotCost(o, t, price);
      PositiveProduct(n, cost);
      FloorQuotient(Max(0.0, cash - t.reserve), cost, n);
      FloorQuotient(Max(0.0, cash), cost, n);
      FloorQuotient(Max(0.0, cash - t.reserve), cost, 0);
      FloorQuotient(Max(0.0, cash), cost, 0);
    }
  }

  lemma PositiveProduct(n: int, x: real)
    requires 1 <= n && x > 0.0
    ensures n as real * x > 0.0
  {
  }

  lemma RoomIsExact(o: OrderIntent, t: Terms, b: Book, done: int, w: Window, n: int)
    ensures n <= Room(o, t, b, done, w) <==>
            && n <= o.lots - done
            && Consumed(b.consumed, (o.instrument.secid, w.start)) + n * o.instrument.lotSize <= Budget(w, t)
  {
    FloorQuotientInt(
      Budget(w, t) - Consumed(b.consumed, (o.instrument.secid, w.start)), o.instrument.lotSize, n);
  }

  lemma SizeIsExact(o: OrderIntent, t: Terms, b: Book, room: int, price: real, n: int)
    requires price > 0.0 && 1 <= n
    ensures n <= room && Affordable(o, t, b.cash, Lots(b.held, o.instrument.secid), price, n) <==>
            Size(o, t, b, room, price).Deal? && n <= Size(o, t, b, room, price).lots
    ensures Size(o, t, b, room, price).Deal? ==>
              1 <= Size(o, t, b, room, price).lots && Size(o, t, b, room, price).price == price
  {
    if 1 <= room {
      AdmittedIsExact(o, t, b.cash, Lots(b.held, o.instrument.secid), price, room, n);
    }
  }

  /** The matcher deals exactly the greatest number of lots that fits, and nothing only if nothing fits. */
  lemma DealIsTheGreatestThatFits(o: OrderIntent, t: Terms, b: Book, done: int, w: Window, n: int)
    requires done <= o.lots && Tradable(o, t, w)
    ensures Fits(o, t, b, done, w, n) <==>
            Decide(o, t, b, done, w).Deal? && 1 <= n <= Decide(o, t, b, done, w).lots
  {
    if 1 <= n {
      RoomIsExact(o, t, b, done, w, n);
      SizeIsExact(o, t, b, Room(o, t, b, done, w), DealPrice(o, w.candle, t.impact), n);
    }
  }

  /** A deal is made only in a window that was fully active, strictly traded through, at the right tick. */
  lemma DealIsJustified(o: OrderIntent, t: Terms, b: Book, done: int, w: Window)
    requires done <= o.lots && Decide(o, t, b, done, w).Deal?
    ensures Tradable(o, t, w)
    ensures Decide(o, t, b, done, w).price == DealPrice(o, w.candle, t.impact) > 0.0
    ensures Fits(o, t, b, done, w, Decide(o, t, b, done, w).lots)
  {
    SizeIsExact(o, t, b, Room(o, t, b, done, w), DealPrice(o, w.candle, t.impact), 1);
    DealIsTheGreatestThatFits(o, t, b, done, w, Decide(o, t, b, done, w).lots);
  }

  /** The price is on the tick grid, inside the candle, and no better than the order or the open allows. */
  ghost predicate FairPrice(o: OrderIntent, c: Candle, price: real) {
    && OnTick(price, o.instrument.tickSize)
    && c.low <= price <= c.high
    && (if o.side == Buy then Min(Min(c.high, o.limitPrice), c.open) <= price <= o.limitPrice
        else o.limitPrice <= price <= Max(Max(c.low, o.limitPrice), c.open))
  }

  lemma DealPriceIsFair(o: OrderIntent, c: Candle, impact: real)
    requires 0.0 <= impact && Executable(o, c, DealPrice(o, c, impact))
    ensures FairPrice(o, c, DealPrice(o, c, impact))
  {
    ImpactIsAdverse(c.open, o.side, impact);
    RoundingIsAdverse(o, c, Proxy(o.side, c.open, impact));
  }

  lemma RoundingIsAdverse(o: OrderIntent, c: Candle, proxy: real)
    requires if o.side == Buy then c.open <= proxy else proxy <= c.open
    requires Executable(o, c, RoundedPrice(o, c, proxy))
    ensures FairPrice(o, c, RoundedPrice(o, c, proxy))
  {
    if o.side == Buy {
      TickUpIsLeast(Min(Min(c.high, o.limitPrice), proxy), o.instrument.tickSize);
    } else {
      TickDownIsGreatest(Max(Max(c.low, o.limitPrice), proxy), o.instrument.tickSize);
    }
  }

  lemma ImpactIsAdverse(open: real, side: Side, impact: real)
    requires 0.0 < open && 0.0 <= impact
    ensures if side == Buy then open <= Proxy(side, open, impact) else Proxy(side, open, impact) <= open
  {
    assert open * impact >= 0.0;
  }

  // ---------------------------------------------------------------- sums over fills

  function CashFlow(fills: seq<Trade>): real {
    if fills == [] then 0.0
    else
      var f := fills[|fills| - 1];
      CashFlow(fills[..|fills| - 1]) + (if f.side == Buy then -f.gross - f.commission else f.gross - f.commission)
  }

  function NetLots(fills: seq<Trade>, secid: string): int {
    if fills == [] then 0
    else
      var f := fills[|fills| - 1];
      NetLots(fills[..|fills| - 1], secid) + if f.secid != secid then 0 else if f.side == Buy then f.lots else -f.lots
  }

  function UnitsIn(fills: seq<Trade>, secid: string, start: int): int {
    if fills == [] then 0
    else
      var f := fills[|fills| - 1];
      UnitsIn(fills[..|fills| - 1], secid, start) + if f.secid == secid && f.windowStart == start then f.units else 0
  }

  function LotsOfRequest(fills: seq<Trade>, id: string): int {
    if fills == [] then 0
    else
      var f := fills[|fills| - 1];
      LotsOfRequest(fills[..|fills| - 1], id) + if f.orderRequestId == id then f.lots else 0
  }

  function FilledOfRequest(outcomes: seq<Outcome>, id: string): int {
    if outcomes == [] then 0
    else
      var o := outcomes[|outcomes| - 1];
      FilledOfRequest(outcomes[..|outcomes| - 1], id) + if o.orderRequestId == id then o.filledLots else 0
  }

  function DoneOfRequest(orders: Orders, done: seq<int>, id: string): int
    requires |orders| == |done|
  {
    if orders == [] then 0
    else
      var n := |orders| - 1;
      DoneOfRequest(orders[..n], done[..n], id) + if orders[n].intent.orderRequestId == id then done[n] else 0
  }

  lemma {:induction false} DoneOfRequestUpdate(orders: Orders, done: seq<int>, i: nat, v: int, id: string)
    requires i < |orders| == |done|
    ensures DoneOfRequest(orders, done[i := v], id) ==
            DoneOfRequest(orders, done, id) + if orders[i].intent.orderRequestId == id then v - done[i] else 0
  {
    var n := |orders| - 1;
    if i < n {
      DoneOfRequestUpdate(orders[..n], done[..n], i, v, id);
      assert done[i := v][..n] == done[..n][i := v];
    } else {
      assert done[i := v][..n] == done[..n];
    }
  }

  lemma {:induction false} DoneOfRequestZero(orders: Orders, done: seq<int>, id: string)
    requires |orders| == |done| && forall i :: 0 <= i < |done| ==> done[i] == 0
    ensures DoneOfRequest(orders, done, id) == 0
  {
    if orders != [] {
      DoneOfRequestZero(orders[..|orders| - 1], done[..|orders| - 1], id);
    }
  }

  lemma {:induction false} OutcomesAddUp(day: int, orders: Orders, done: seq<int>, reasons: seq<FillReason>, id: string)
    requires |orders| == |done| == |reasons|
    ensures FilledOfRequest(Outcomes(day, orders, done, reasons), id) == DoneOfRequest(orders, done, id)
  {
    if orders != [] {
      var n := |orders| - 1;
      OutcomesAddUp(day, orders[..n], done[..n], reasons[..n], id);
      assert Outcomes(day, orders, done, reasons)[..n] == Outcomes(day, orders[..n], done[..n], reasons[..n]);
    }
  }

  // ---------------------------------------------------------------- what every step keeps

  /** Cash, positions and used volume are what the fills add up to. */
  ghost predicate Accounted(cash: real, held: map<string, int>, b: Book) {
    && b.cash == cash + CashFlow(b.fills)
    && (forall s :: Lots(b.held, s) == Lots(held, s) + NetLots(b.fills, s))
    && (forall s, start :: Consumed(b.consumed, (s, start)) == UnitsIn(b.fills, s, start))
  }

  /** What is done of each order is what the fills of its request add up to. */
  ghost predicate Counted(orders: Orders, b: Book) {
    && |b.done| == |b.reasons| == |orders|
    && (forall id :: DoneOfRequest(orders, b.done, id) == LotsOfRequest(b.fills, id))
    && (forall i :: 0 <= i < |orders| ==> 0 <= b.done[i] <= orders[i].intent.lots)
    && (forall i :: 0 <= i < |orders| ==> (b.reasons[i] == FullyFilled <==> b.done[i] == orders[i].intent.lots))
  }

  /** The accounting invariant of the event loop. */
  ghost predicate Balanced(orders: Orders, cash: real, held: map<string, int>, b: Book) {
    Accounted(cash, held, b) && Counted(orders, b)
  }

  lemma OpeningIsBalanced(orders: Orders, cash: real, held: map<string, int>)
    ensures Balanced(orders, cash, held, Opening(orders, cash, held))
  {
    forall id ensures DoneOfRequest(orders, Opening(orders, cash, held).done, id) == 0 {
      DoneOfRequestZero(orders, Opening(orders, cash, held).done, id);
    }
  }

  /** What one more fill adds to each of the sums. */
  lemma LastFill(fills: seq<Trade>, f: Trade, secid: string, start: int, id: string)
    ensures CashFlow(fills + [f]) == CashFlow(fills) + Flow(f)
    ensures NetLots(fills + [f], secid) == NetLots(fills, secid) + if f.secid == secid then Signed(f.side, f.lots) else 0
    ensures UnitsIn(fills + [f], secid, start) ==
            UnitsIn(fills, secid, start) + if f.secid == secid && f.windowStart == start then f.units else 0
    ensures LotsOfRequest(fills + [f], id) == LotsOfRequest(fills, id) + if f.orderRequestId == id then f.lots else 0
  {
    assert (fills + [f])[..|fills|] == fills;
  }

  lemma {:induction false} SettleKeepsBalance(orders: Orders, cash: real, held: map<string, int>, b: Book, i: nat, f: Trade)
    requires i < |orders| && Balanced(orders, cash, held, b)
    requires f.orderRequestId == orders[i].intent.orderRequestId
    requires 1 <= f.lots && b.done[i] + f.lots <= orders[i].intent.lots
    ensures Balanced(orders, cash, held, Settle(orders[i].intent, b, i, f))
  {
    SettleKeepsAccount(cash, held, orders[i].intent, b, i, f);
    SettleCountsLots(orders, b, i, f);
  }

  /** Cash, positions and used volume still add up to the fills. */
  lemma {:induction false} SettleKeepsAccount(cash: real, held: map<string, int>, o: OrderIntent, b: Book, i: nat, f: Trade)
    requires i < |b.done| == |b.reasons| && Accounted(cash, held, b)
    ensures Accounted(cash, held, Settle(o, b, i, f))
  {
    var r := Settle(o, b, i, f);
    LastFill(b.fills, f, "", 0, "");
    forall s ensures Lots(r.held, s) == Lots(held, s) + NetLots(r.fills, s) {
      LastFill(b.fills, f, s, 0, "");
      AddChangesOne(b.held, f.secid, Signed(f.side, f.lots), s);
    }
    forall s, start ensures Consumed(r.consumed, (s, start)) == UnitsIn(r.fills, s, start) {
      LastFill(b.fills, f, s, start, "");
    }
  }

  lemma AddChangesOne(held: map<string, int>, secid: string, delta: int, s: string)
    ensures Lots(Add(held, secid, delta), s) == Lots(held, s) + if s == secid then delta else 0
  {
  }

  /** What is done of each request still adds up to its fills, and no more than was ordered is done. */
  lemma {:induction false} SettleCountsLots(orders: Orders, b: Book, i: nat, f: Trade)
    requires i < |orders| && Counted(orders, b) && f.orderRequestId == orders[i].intent.orderRequestId
    requires 1 <= f.lots && b.done[i] + f.lots <= orders[i].intent.lots
    ensures Counted(orders, Settle(orders[i].intent, b, i, f))
  {
    var done, fills := b.done[i := b.done[i] + f.lots], b.fills + [f];
    forall id ensures DoneOfRequest(orders, done, id) == LotsOfRequest(fills, id) {
      OneMoreFillCounts(orders, b.done, b.fills, i, f, id);
    }
  }

  lemma OneMoreFillCounts(orders: Orders, done: seq<int>, fills: seq<Trade>, i: nat, f: Trade, id: string)
    requires i < |orders| == |done| && f.orderRequestId == orders[i].intent.orderRequestId
    requires DoneOfRequest(orders, done, id) == LotsOfRequest(fills, id)
    ensures DoneOfRequest(orders, done[i := done[i] + f.lots], id) == LotsOfRequest(fills + [f], id)
  {
    LastFill(fills, f, "", 0, id);
    DoneOfRequestUpdate(orders, done, i, done[i] + f.lots, id);
  }

  lemma StepKeepsBalance(day: int, orders: Orders, t: Terms, cash: real, held: map<string, int>, b: Book, e: Event)
    requires e.order < |orders| && Balanced(orders, cash, held, b)
    ensures Balanced(orders, cash, held, Step(day, orders, t, b, e))
  {
    var i, o := e.order, orders[e.order].intent;
    match Decide(o, t, b, b.done[i], e.window)
    case Complete =>
    case Miss(reason) =>
      MissReasons(o, t, b, b.done[i], e.window);
    case Deal(lots, price) =>
      DealIsJustified(o, t, b, b.done[i], e.window);
      SettleKeepsBalance(orders, cash, held, b, i, TradeOf(day, o, t, e.window, lots, price));
  }

  lemma MissReasons(o: OrderIntent, t: Terms, b: Book, done: int, w: Window)
    requires Decide(o, t, b, done, w).Miss?
    ensures done != o.lots && Decide(o, t, b, done, w).reason != FullyFilled
  {
  }

  lemma {:induction false} ReplayKeepsBalance(
    day: int, orders: Orders, t: Terms, cash: real, held: map<string, int>, s: seq<Event>)
    requires Indexed(orders, s)
    ensures Balanced(orders, cash, held, Replay(day, orders, t, Opening(orders, cash, held), s))
  {
    if s == [] {
      OpeningIsBalanced(orders, cash, held);
    } else {
      ReplayKeepsBalance(day, orders, t, cash, held, s[..|s| - 1]);
      StepKeepsBalance(day, orders, t, cash, held,
                       Replay(day, orders, t, Opening(orders, cash, held), s[..|s| - 1]), s[|s| - 1]);
    }
  }

  // ---------------------------------------------------------------- conservation and outcomes

  ghost predicate IsIndexed(orders: Orders, windows: WindowBook) {
    Indexed(orders, Schedule(orders, windows))
  }

  lemma MatchIsBalanced(day: int, orders: Orders, windows: WindowBook, cash: real, held: map<string, int>, t: Terms)
    requires Admissible(day, orders, windows)
    ensures IsIndexed(orders, windows)
    ensures Balanced(orders, cash, held,
                     Replay(day, orders, t, Opening(orders, cash, held), Schedule(orders, windows)))
  {
    ScheduleIsIndexed(day, orders, windows);
    ReplayKeepsBalance(day, orders, t, cash, held, Schedule(orders, windows));
  }

  /** Cash and positions are the opening ones plus the fills: nothing is created, lost or left out. */
  lemma Conservation(day: int, orders: Orders, windows: WindowBook, cash: real, held: map<string, int>, t: Terms)
    requires Admissible(day, orders, windows)
    ensures var m := Match(day, orders, windows, cash, held, t);
            && m.cash == cash + CashFlow(m.fills)
            && forall s :: Lots(m.held, s) == Lots(held, s) + NetLots(m.fills, s)
  {
    MatchIsBalanced(day, orders, windows, cash, held, t);
  }

  /** Outcomes, in plan order, account for exactly the fills made under each request id. */
  lemma OutcomesMatchFills(
    day: int, orders: Orders, windows: WindowBook, cash: real, held: map<string, int>, t: Terms, id: string)
    requires Admissible(day, orders, windows)
    ensures var m := Match(day, orders, windows, cash, held, t);
            && FilledOfRequest(m.outcomes, id) == LotsOfRequest(m.fills, id)
            && |m.outcomes| == |orders|
            && forall i :: 0 <= i < |orders| ==>
                             var u, o := m.outcomes[i], orders[i].intent;
                             && u.day == day && u.secid == o.instrument.secid
                             && u.orderRequestId == o.orderRequestId && u.requestedLots == o.lots
                             && 0 <= u.filledLots && 0 <= u.expiredLots
                             && u.filledLots + u.expiredLots == u.requestedLots
                             && (u.status == FilledInFull <==> u.expiredLots == 0)
                             && (u.status == Expired <==> u.filledLots == 0)
                             && (u.lastReason == FullyFilled <==> u.status == FilledInFull)
  {
    MatchIsBalanced(day, orders, windows, cash, held, t);
    var b := Replay(day, orders, t, Opening(orders, cash, held), Schedule(orders, windows));
    OutcomesAddUp(day, orders, b.done, b.reasons, id);
  }

  // ---------------------------------------------------------------- solvency

  /**
   Along the fills, cash never becomes negative, and a buy that leaves less than the reserve
   only covers a short that was held just before it.
   */
  ghost predicate Solvent(t: Terms, cash: real, held: map<string, int>, fills: seq<Trade>) {
    forall j :: 0 <= j < |fills| ==> SolventAt(t, cash, held, fills, j)
  }

  ghost predicate SolventAt(t: Terms, cash: real, held: map<string, int>, fills: seq<Trade>, j: nat)
    requires j < |fills|
  {
    var f := fills[j];
    var after := cash + CashFlow(fills[..j]) + Flow(f);
    && 0.0 <= after
    && (f.side == Buy ==> t.reserve <= after || f.lots <= -(Lots(held, f.secid) + NetLots(fills[..j], f.secid)))
  }

  lemma CostOfTrade(day: int, o: OrderIntent, t: Terms, w: Window, lots: int, price: real)
    ensures var f := TradeOf(day, o, t, w, lots, price);
            lots as real * LotCost(o, t, price) == f.gross + f.commission
  {
    var size := o.instrument.lotSize;
    assert (lots * size) as real == lots as real * size as real;
    assert (lots as real * size as real) * price == lots as real * (price * size as real);
  }

  lemma SaleProceeds(day: int, o: OrderIntent, t: Terms, w: Window, lots: int, price: real)
    requires 1 <= lots && price > 0.0 && t.commission <= 1.0
    ensures var f := TradeOf(day, o, t, w, lots, price); 0.0 <= f.gross - f.commission
  {
    var f := TradeOf(day, o, t, w, lots, price);
    assert f.units >= 1;
    PositiveProduct(f.units, price);
    assert f.gross * t.commission <= f.gross;
  }

  /** No sale is ever made: no window is active in full, or the impact leaves no executable bid. */
  predicate NeverSells(t: Terms) {
    1.0 <= t.impact || t.latency == 86400
  }

  lemma NeverSellsDecides(o: OrderIntent, t: Terms, b: Book, done: int, w: Window)
    requires NeverSells(t) && o.side == Sell
    ensures !Decide(o, t, b, done, w).Deal?
  {
    if 1.0 <= t.impact {
      assert Proxy(Sell, w.candle.high, t.impact) <= 0.0;
    }
  }

  lemma AffordableTradeIsSolvent(
    day: int, o: OrderIntent, t: Terms, w: Window, cash: real, current: int, lots: int, price: real)
    requires 1 <= lots && price > 0.0 && 0.0 <= cash && Affordable(o, t, cash, current, price, lots)
    requires o.side == Sell ==> t.commission <= 1.0
    ensures var f := TradeOf(day, o, t, w, lots, price);
            && 0.0 <= cash + Flow(f)
            && (f.side == Buy ==> t.reserve <= cash + Flow(f) || f.lots <= -current)
  {
    CostOfTrade(day, o, t, w, lots, price);
    if o.side == Sell {
      SaleProceeds(day, o, t, w, lots, price);
    }
  }

  lemma StepIsSolvent(day: int, orders: Orders, t: Terms, cash: real, held: map<string, int>, b: Book, e: Event)
    requires t.commission <= 1.0 || NeverSells(t)
    requires e.order < |orders| && Balanced(orders, cash, held, b)
    requires 0.0 <= b.cash && Solvent(t, cash, held, b.fills)
    ensures 0.0 <= Step(day, orders, t, b, e).cash && Solvent(t, cash, held, Step(day, orders, t, b, e).fills)
  {
    var i, o := e.order, orders[e.order].intent;
    match Decide(o, t, b, b.done[i], e.window)
    case Complete =>
    case Miss(reason) =>
    case Deal(lots, price) =>
      DealCanBePaid(day, o, t, b, b.done[i], e.window);
      SettleIsSolvent(t, cash, held, b, TradeOf(day, o, t, e.window, lots, price));
  }

  lemma DealCanBePaid(day: int, o: OrderIntent, t: Terms, b: Book, done: int, w: Window)
    requires t.commission <= 1.0 || NeverSells(t)
    requires 0.0 <= b.cash && done <= o.lots && Decide(o, t, b, done, w).Deal?
    ensures var f := TradeOf(day, o, t, w, Decide(o, t, b, done, w).lots, Decide(o, t, b, done, w).price);
            && 0.0 <= b.cash + Flow(f)
            && (f.side == Buy ==> t.reserve <= b.cash + Flow(f) || f.lots <= -Lots(b.held, f.secid))
  {
    DealIsJustified(o, t, b, done, w);
    if o.side == Sell && NeverSells(t) {
      NeverSellsDecides(o, t, b, done, w);
    }
    AffordableTradeIsSolvent(day, o, t, w, b.cash, Lots(b.held, o.instrument.secid),
                             Decide(o, t, b, done, w).lots, Decide(o, t, b, done, w).price);
  }

  lemma SettleIsSolvent(t: Terms, cash: real, held: map<string, int>, b: Book, f: Trade)
    requires b.cash == cash + CashFlow(b.fills) && Lots(b.held, f.secid) == Lots(held, f.secid) + NetLots(b.fills, f.secid)
    requires Solvent(t, cash, held, b.fills)
    requires 0.0 <= b.cash + Flow(f)
    requires f.side == Buy ==> t.reserve <= b.cash + Flow(f) || f.lots <= -Lots(b.held, f.secid)
    ensures Solvent(t, cash, held, b.fills + [f])
  {
    var fills := b.fills + [f];
    forall j | 0 <= j < |fills| ensures SolventAt(t, cash, held, fills, j) {
      assert fills[..j] == b.fills[..j];
      if j < |b.fills| {
        assert SolventAt(t, cash, held, b.fills, j);
      } else {
        assert b.fills[..j] == b.fills;
      }
    }
  }

  lemma {:induction false} ReplayIsSolvent(
    day: int, orders: Orders, t: Terms, cash: real, held: map<string, int>, s: seq<Event>)
    requires t.commission <= 1.0 || NeverSells(t)
    requires Indexed(orders, s) && 0.0 <= cash
    ensures 0.0 <= Replay(day, orders, t, Opening(orders, cash, held), s).cash
    ensures Solvent(t, cash, held, Replay(day, orders, t, Opening(orders, cash, held), s).fills)
  {
    if s != [] {
      var before := s[..|s| - 1];
      ReplayIsSolvent(day, orders, t, cash, held, before);
      ReplayKeepsBalance(day, orders, t, cash, held, before);
      StepIsSolvent(day, orders, t, cash, held,
                    Replay(day, orders, t, Opening(orders, cash, held), before), s[|s| - 1]);
    }
  }

  /** With a commission of at most the whole proceeds, no session overdraws cash at any fill. */
  lemma Solvency(day: int, orders: Orders, windows: WindowBook, cash: real, held: map<string, int>, t: Terms)
    requires Admissible(day, orders, windows) && 0.0 <= cash
    requires t.commission <= 1.0 || NeverSells(t)
    ensures 0.0 <= Match(day, orders, windows, cash, held, t).cash
    ensures Solvent(t, cash, held, Match(day, orders, windows, cash, held, t).fills)
  {
    ScheduleIsIndexed(day, orders, windows);
    ReplayIsSolvent(day, orders, t, cash, held, Schedule(orders, windows));
  }
}
