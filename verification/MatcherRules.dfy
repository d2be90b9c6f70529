/**
 The rules of a session in the terms of the market alone: which price a fill has, when and how much is
 filled, what each fill records, and why an order was left. None of them mentions the matcher's functions.
 */
module MatcherRules {
  import opened Domain
  import opened Matcher
  import opened MatcherTheorems
  import opened MatcherCausality

  // ---------------------------------------------------------------- the price

  /** A price moved against the order by a share of itself. */
  function Moved(side: Side, price: real, impact: real): real {
    if side == Buy then price + price * impact else price - price * impact
  }

  lemma MovedIsTheProxy(side: Side, price: real, impact: real)
    ensures Moved(side, price, impact) == Proxy(side, price, impact)
  {
  }

  /**
   The price of a fill: the open with its impact if that is better than the limit and inside the candle,
   on the tick and rounded against the order by less than one tick.
   */
  ghost predicate Quoted(o: OrderIntent, c: Candle, impact: real, price: real) {
    if o.side == Buy then
      Above(Min(Min(c.high, o.limitPrice), Moved(Buy, c.open, impact)), o.instrument.tickSize, price)
    else
      Below(Max(Max(c.low, o.limitPrice), Moved(Sell, c.open, impact)), o.instrument.tickSize, price)
  }

  /** The price is the least multiple of the tick that is not below `x`. */
  ghost predicate Above(x: real, tick: real, price: real) {
    OnTick(price, tick) && x <= price < x + tick
  }

  ghost predicate Below(x: real, tick: real, price: real) {
    OnTick(price, tick) && x - tick < price <= x
  }

  lemma DealPriceIsQuoted(o: OrderIntent, c: Candle, impact: real)
    ensures Quoted(o, c, impact, DealPrice(o, c, impact))
  {
    MovedIsTheProxy(o.side, c.open, impact);
    if o.side == Buy {
      TickUpIsLeast(Min(Min(c.high, o.limitPrice), Proxy(Buy, c.open, impact)), o.instrument.tickSize);
    } else {
      TickDownIsGreatest(Max(Max(c.low, o.limitPrice), Proxy(Sell, c.open, impact)), o.instrument.tickSize);
    }
  }

  /** No two multiples of the tick are less than a tick apart. */
  lemma TicksApart(j: int, k: int, tick: real)
    requires tick > 0.0 && j < k
    ensures Ticks(j, tick) + tick <= Ticks(k, tick)
  {
    assert (k - j - 1) as real * tick >= 0.0;
    assert Ticks(k, tick) == Ticks(j, tick) + tick + (k - j - 1) as real * tick;
  }

  lemma NearTicksAreEqual(x: real, tick: real, p: real, q: real)
    requires tick > 0.0 && ((Above(x, tick, p) && Above(x, tick, q)) || (Below(x, tick, p) && Below(x, tick, q)))
    ensures p == q
  {
    var j: int :| p == Ticks(j, tick);
    var k: int :| q == Ticks(k, tick);
    if j < k {
      TicksApart(j, k, tick);
    } else if k < j {
      TicksApart(k, j, tick);
    }
  }

  /** There is only one such price. */
  lemma QuoteIsUnique(o: OrderIntent, c: Candle, impact: real, p: real, q: real)
    requires Quoted(o, c, impact, p) && Quoted(o, c, impact, q)
    ensures p == q
  {
    if o.side == Buy {
      NearTicksAreEqual(Min(Min(c.high, o.limitPrice), Moved(Buy, c.open, impact)), o.instrument.tickSize, p, q);
    } else {
      NearTicksAreEqual(Max(Max(c.low, o.limitPrice), Moved(Sell, c.open, impact)), o.instrument.tickSize, p, q);
    }
  }

  // ---------------------------------------------------------------- when and how much

  /** The candle trades strictly through the limit, impact included. */
  predicate TradesThrough(o: OrderIntent, c: Candle, impact: real) {
    if o.side == Buy then Moved(Buy, c.low, impact) < o.limitPrice else o.limitPrice < Moved(Sell, c.high, impact)
  }

  /** The price lies in the candle and is no worse than the limit. */
  predicate WithinLimit(o: OrderIntent, c: Candle, price: real) {
    && c.low <= price <= c.high
    && (o.side == Buy ==> price <= o.limitPrice)
    && (o.side == Sell ==> o.limitPrice <= price)
  }

  ghost predicate MayTrade(o: OrderIntent, t: Terms, w: Window, price: real) {
    && t.latency <= w.start && TradesThrough(o, w.candle, t.impact)
    && Quoted(o, w.candle, t.impact, price) && WithinLimit(o, w.candle, price)
  }

  /** `n` more lots are left of the order, and with the `used` units of the window within its volume share. */
  predicate HasRoom(o: OrderIntent, t: Terms, w: Window, done: int, used: int, n: int) {
    && n <= o.lots - done
    && (used + n * o.instrument.lotSize) as real <= w.candle.volume * t.participation
  }

  /** What so many units cost at a price, commission included. */
  function CostOf(units: int, price: real, commission: real): real {
    units as real * price + units as real * price * commission
  }

  lemma CostMeans(o: OrderIntent, t: Terms, price: real, n: int)
    ensures n as real * LotCost(o, t, price) == CostOf(n * o.instrument.lotSize, price, t.commission)
  {
    var size := o.instrument.lotSize;
    assert (n * size) as real == n as real * size as real;
    assert n as real * (price * size as real * (1.0 + t.commission)) ==
           n as real * size as real * price * (1.0 + t.commission);
  }

  /** The account can pay for `n` lots, or deliver them. */
  predicate CanSettle(o: OrderIntent, t: Terms, cash: real, position: int, price: real, n: int) {
    if o.side == Buy then
      var left := cash - CostOf(n * o.instrument.lotSize, price, t.commission);
      t.reserve <= left || (n <= -position && 0.0 <= left)
    else
      o.confirmMarginTrade || n <= position
  }

  ghost predicate Fillable(o: OrderIntent, t: Terms, w: Window, b: Book, done: int, price: real, n: int) {
    && 1 <= n && MayTrade(o, t, w, price)
    && HasRoom(o, t, w, done, Consumed(b.consumed, (o.instrument.secid, w.start)), n)
    && CanSettle(o, t, b.cash, Lots(b.held, o.instrument.secid), price, n)
  }

  lemma CrossingMeans(o: OrderIntent, c: Candle, impact: real)
    ensures TradesThrough(o, c, impact) <==> Crosses(o, c, impact)
  {
    MovedIsTheProxy(Buy, c.low, impact);
    MovedIsTheProxy(Sell, c.high, impact);
  }

  lemma TradableMeans(o: OrderIntent, t: Terms, w: Window, price: real)
    ensures MayTrade(o, t, w, price) <==> Tradable(o, t, w) && price == DealPrice(o, w.candle, t.impact)
  {
    DealPriceIsQuoted(o, w.candle, t.impact);
    CrossingMeans(o, w.candle, t.impact);
    if MayTrade(o, t, w, price) {
      QuoteIsUnique(o, w.candle, t.impact, price, DealPrice(o, w.candle, t.impact));
    }
  }

  lemma BudgetMeans(w: Window, t: Terms, units: int)
    ensures units <= Budget(w, t) <==> units as real <= w.candle.volume * t.participation
  {
  }

  lemma RoomMeans(o: OrderIntent, t: Terms, w: Window, done: int, used: int, n: int)
    ensures HasRoom(o, t, w, done, used, n) <==> n <= o.lots - done && used + n * o.instrument.lotSize <= Budget(w, t)
  {
    BudgetMeans(w, t, used + n * o.instrument.lotSize);
  }

  lemma SettlingMeans(o: OrderIntent, t: Terms, cash: real, position: int, price: real, n: int)
    ensures CanSettle(o, t, cash, position, price, n) <==> Affordable(o, t, cash, position, price, n)
  {
    CostMeans(o, t, price, n);
  }

  lemma FitsMeans(o: OrderIntent, t: Terms, b: Book, done: int, w: Window, price: real, n: int)
    ensures Fillable(o, t, w, b, done, price, n) <==>
            Tradable(o, t, w) && price == DealPrice(o, w.candle, t.impact) && Fits(o, t, b, done, w, n)
  {
    TradableMeans(o, t, w, price);
    RoomMeans(o, t, w, done, Consumed(b.consumed, (o.instrument.secid, w.start)), n);
    SettlingMeans(o, t, b.cash, Lots(b.held, o.instrument.secid), price, n);
  }

  // ---------------------------------------------------------------- one event

  /** What a fill of `f.lots` lots at its price records. */
  predicate RecordsFill(day: int, o: OrderIntent, t: Terms, w: Window, f: Trade) {
    && f.day == day && f.secid == o.instrument.secid && f.side == o.side && f.signalLimit == o.limitPrice
    && f.units == f.lots * o.instrument.lotSize && f.gross == f.units as real * f.fillPrice
    && f.commission == f.gross * t.commission && f.orderRequestId == o.orderRequestId
    && f.windowStart == w.start && f.windowEnd == w.end
  }

  /** Why an event filled nothing of an order that was still open. */
  ghost predicate ExplainsMiss(o: OrderIntent, t: Terms, b: Book, done: int, w: Window, reason: FillReason) {
    var used := Consumed(b.consumed, (o.instrument.secid, w.start));
    if w.start < t.latency then reason == NotActiveForFullWindow
    else if !TradesThrough(o, w.candle, t.impact) then reason == NoTradeThrough
    else if forall price :: Quoted(o, w.candle, t.impact, price) ==> !WithinLimit(o, w.candle, price) then
      reason == NoExecutableTick
    else if !HasRoom(o, t, w, done, used, 1) then reason == VolumeCap
    else reason == if o.side == Buy then CashOrReserve else NoUnreservedPosition
  }

  /** The books before and after an event of order `i`: the most that is fillable is filled, and recorded. */
  ghost predicate EventIsRight(day: int, o: OrderIntent, t: Terms, b: Book, r: Book, e: Event)
    requires e.order < |b.done| == |b.reasons| && |r.done| == |r.reasons| == |b.done|
  {
    var i, w, done := e.order, e.window, b.done[e.order];
    && (forall j :: 0 <= j < |b.done| && j != i ==> r.done[j] == b.done[j] && r.reasons[j] == b.reasons[j])
    && if exists price :: Fillable(o, t, w, b, done, price, 1) then FillsTheMostOf(day, o, t, b, r, e)
       else
         && r == b.(reasons := r.reasons)
         && (if done == o.lots then r.reasons[i] == b.reasons[i] else ExplainsMiss(o, t, b, done, w, r.reasons[i]))
  }

  ghost predicate FillsTheMostOf(day: int, o: OrderIntent, t: Terms, b: Book, r: Book, e: Event)
    requires e.order < |b.done| == |b.reasons| && |r.done| == |r.reasons| == |b.done|
  {
    var i, w, done := e.order, e.window, b.done[e.order];
    && |r.fills| == |b.fills| + 1 && r.fills[..|b.fills|] == b.fills
    && var f := r.fills[|b.fills|];
       && RecordsFill(day, o, t, w, f) && f.lots == r.done[i] - done
       && Fillable(o, t, w, b, done, f.fillPrice, f.lots)
       && (forall m :: Fillable(o, t, w, b, done, f.fillPrice, m) ==> m <= f.lots)
       && r.reasons[i] == if r.done[i] == o.lots then FullyFilled else CapacityOrCashPartial
  }

  lemma MissIsExplained(o: OrderIntent, t: Terms, b: Book, done: int, w: Window)
    requires done <= o.lots && Decide(o, t, b, done, w).Miss?
    ensures ExplainsMiss(o, t, b, done, w, Decide(o, t, b, done, w).reason)
  {
    var price := DealPrice(o, w.candle, t.impact);
    DealPriceIsQuoted(o, w.candle, t.impact);
    forall p | Quoted(o, w.candle, t.impact, p) ensures p == price {
      QuoteIsUnique(o, w.candle, t.impact, p, price);
    }
    CrossingMeans(o, w.candle, t.impact);
    if Tradable(o, t, w) {
      RoomIsExact(o, t, b, done, w, 1);
      BudgetMeans(w, t, Consumed(b.consumed, (o.instrument.secid, w.start)) + o.instrument.lotSize);
    }
  }

  /** A deal is fillable, and nothing else of the order is at any price. */
  lemma DealIsTheMost(o: OrderIntent, t: Terms, b: Book, done: int, w: Window)
    requires done <= o.lots && Decide(o, t, b, done, w).Deal?
    ensures var (n, price) := (Decide(o, t, b, done, w).lots, Decide(o, t, b, done, w).price);
            && Fillable(o, t, w, b, done, price, 1) && Fillable(o, t, w, b, done, price, n)
            && forall m :: Fillable(o, t, w, b, done, price, m) ==> m <= n
  {
    var n, price := Decide(o, t, b, done, w).lots, Decide(o, t, b, done, w).price;
    DealIsJustified(o, t, b, done, w);
    FirstLotFits(o, t, b, done, w, n);
    FitsMeans(o, t, b, done, w, price, 1);
    FitsMeans(o, t, b, done, w, price, n);
    forall m | Fillable(o, t, w, b, done, price, m) ensures m <= n {
      FitsMeans(o, t, b, done, w, price, m);
      DealIsTheGreatestThatFits(o, t, b, done, w, m);
    }
  }

  lemma WithoutDealNothingIsFillable(o: OrderIntent, t: Terms, b: Book, done: int, w: Window, price: real)
    requires done <= o.lots && !Decide(o, t, b, done, w).Deal?
    ensures !Fillable(o, t, w, b, done, price, 1)
  {
    FitsMeans(o, t, b, done, w, price, 1);
    if Tradable(o, t, w) {
      DealIsTheGreatestThatFits(o, t, b, done, w, 1);
    }
  }

  lemma SettleIsRight(day: int, o: OrderIntent, t: Terms, b: Book, e: Event)
    requires e.order < |b.done| == |b.reasons| && b.done[e.order] <= o.lots
    requires Decide(o, t, b, b.done[e.order], e.window).Deal?
    ensures var verdict := Decide(o, t, b, b.done[e.order], e.window);
            EventIsRight(day, o, t, b, Settle(o, b, e.order, TradeOf(day, o, t, e.window, verdict.lots, verdict.price)), e)
  {
    var verdict := Decide(o, t, b, b.done[e.order], e.window);
    var f := TradeOf(day, o, t, e.window, verdict.lots, verdict.price);
    DealIsTheMost(o, t, b, b.done[e.order], e.window);
    TradeRecordsFill(day, o, t, e.window, verdict.lots, verdict.price);
    SettledFillsTheMost(day, o, t, b, e, f);
  }

  lemma TradeRecordsFill(day: int, o: OrderIntent, t: Terms, w: Window, lots: int, price: real)
    ensures var f := TradeOf(day, o, t, w, lots, price);
            RecordsFill(day, o, t, w, f) && f.lots == lots && f.fillPrice == price
  {
  }

  lemma SettledFillsTheMost(day: int, o: OrderIntent, t: Terms, b: Book, e: Event, f: Trade)
    requires e.order < |b.done| == |b.reasons| && RecordsFill(day, o, t, e.window, f)
    requires Fillable(o, t, e.window, b, b.done[e.order], f.fillPrice, f.lots)
    requires forall m :: Fillable(o, t, e.window, b, b.done[e.order], f.fillPrice, m) ==> m <= f.lots
    ensures FillsTheMostOf(day, o, t, b, Settle(o, b, e.order, f), e)
  {
  }

  lemma StepIsRight(day: int, orders: Orders, t: Terms, b: Book, e: Event)
    requires e.order < |orders| == |b.done| == |b.reasons| && b.done[e.order] <= orders[e.order].intent.lots
    ensures EventIsRight(day, orders[e.order].intent, t, b, Step(day, orders, t, b, e), e)
  {
    var o, done, w := orders[e.order].intent, b.done[e.order], e.window;
    if Decide(o, t, b, done, w).Deal? {
      SettleIsRight(day, o, t, b, e);
    } else {
      forall price ensures !Fillable(o, t, w, b, done, price, 1) {
        WithoutDealNothingIsFillable(o, t, b, done, w, price);
      }
      if Decide(o, t, b, done, w).Miss? {
        MissIsExplained(o, t, b, done, w);
      }
    }
  }

  // ---------------------------------------------------------------- the whole session

  /** Every event of a session, at the account and the fills that the events before it left. */
  lemma EveryEventIsRight(
    day: int, orders: Orders, windows: WindowBook, cash: real, held: map<string, int>, t: Terms, k: nat)
    requires Admissible(day, orders, windows) && k < |Schedule(orders, windows)|
    ensures var e := EventAt(day, orders, windows, k);
            var b, r := After(day, orders, windows, cash, held, t, k), After(day, orders, windows, cash, held, t, k + 1);
            EventIsRight(day, orders[e.order].intent, t, b, r, e) && Balanced(orders, cash, held, b)
  {
    ScheduleIsIndexed(day, orders, windows);
    var s := Schedule(orders, windows);
    assert s[..k + 1][..k] == s[..k];
    ReplayKeepsBalance(day, orders, t, cash, held, s[..k]);
    StepIsRight(day, orders, t, After(day, orders, windows, cash, held, t, k), s[k]);
  }

  /** A fill that the rules allow, for some order and window of the session. */
  ghost predicate IsDue(day: int, orders: Orders, windows: WindowBook, t: Terms, f: Trade) {
    exists i: nat, w :: i < |orders| && IsDueTo(day, orders[i].intent, windows, t, w, f)
  }

  ghost predicate IsDueTo(day: int, o: OrderIntent, windows: WindowBook, t: Terms, w: Window, f: Trade) {
    && w in WindowsOf(windows, o.instrument.secid) && 1 <= f.lots <= o.lots
    && MayTrade(o, t, w, f.fillPrice) && RecordsFill(day, o, t, w, f)
  }

  lemma {:induction false} ReplayFillsAreDue(
    day: int, orders: Orders, windows: WindowBook, cash: real, held: map<string, int>, t: Terms, s: seq<Event>)
    requires Indexed(orders, s) && forall e :: e in s ==> IsEvent(orders, windows, e)
    ensures forall f :: f in Replay(day, orders, t, Opening(orders, cash, held), s).fills ==> IsDue(day, orders, windows, t, f)
  {
    if s != [] {
      var n := |s| - 1;
      assert forall e :: e in s[..n] ==> e in s;
      ReplayFillsAreDue(day, orders, windows, cash, held, t, s[..n]);
      ReplayKeepsBalance(day, orders, t, cash, held, s[..n]);
      var b := Replay(day, orders, t, Opening(orders, cash, held), s[..n]);
      assert s[n] in s;
      LastFillIsDue(day, orders, windows, cash, held, t, b, s[n]);
    }
  }

  lemma LastFillIsDue(
    day: int, orders: Orders, windows: WindowBook, cash: real, held: map<string, int>, t: Terms, b: Book, e: Event)
    requires Balanced(orders, cash, held, b) && IsEvent(orders, windows, e)
    requires forall f :: f in b.fills ==> IsDue(day, orders, windows, t, f)
    ensures forall f :: f in Step(day, orders, t, b, e).fills ==> IsDue(day, orders, windows, t, f)
  {
    var r, o := Step(day, orders, t, b, e), orders[e.order].intent;
    StepIsRight(day, orders, t, b, e);
    if r.fills != b.fills {
      var f := r.fills[|b.fills|];
      assert IsDueTo(day, o, windows, t, e.window, f);
      assert r.fills == b.fills + [f];
    }
  }

  /** Every fill of every session has the one right price, in a window that trades through, and says what it is. */
  lemma EveryFillIsDue(day: int, orders: Orders, windows: WindowBook, cash: real, held: map<string, int>, t: Terms)
    requires Admissible(day, orders, windows)
    ensures forall f :: f in Match(day, orders, windows, cash, held, t).fills ==> IsDue(day, orders, windows, t, f)
  {
    ScheduleIsIndexed(day, orders, windows);
    ScheduleIsUnique(day, orders, windows);
    ReplayFillsAreDue(day, orders, windows, cash, held, t, Schedule(orders, windows));
  }

  lemma {:induction false} ReplaySkips(day: int, orders: Orders, t: Terms, cash: real, held: map<string, int>, s: seq<Event>,
                                       i: nat)
    requires Indexed(orders, s) && i < |orders| && forall e :: e in s ==> e.order != i
    ensures var b := Replay(day, orders, t, Opening(orders, cash, held), s); b.done[i] == 0 && b.reasons[i] == MissingWindow
  {
    if s != [] {
      var n := |s| - 1;
      assert forall e :: e in s[..n] ==> e in s;
      ReplaySkips(day, orders, t, cash, held, s[..n], i);
      assert s[n] in s;
    }
  }

  /** An order whose security has no window expires, for want of one. */
  lemma WithoutWindowNothingHappens(
    day: int, orders: Orders, windows: WindowBook, cash: real, held: map<string, int>, t: Terms, i: nat)
    requires Admissible(day, orders, windows) && i < |orders| && WindowsOf(windows, Secid(orders[i])) == []
    ensures var u := Match(day, orders, windows, cash, held, t).outcomes[i];
            u.filledLots == 0 && u.status == Expired && u.lastReason == MissingWindow
  {
    ScheduleIsIndexed(day, orders, windows);
    ScheduleIsUnique(day, orders, windows);
    ReplaySkips(day, orders, t, cash, held, Schedule(orders, windows), i);
  }

  /** No security is listed with nothing held of it. */
  predicate ListsPositions(held: map<string, int>) {
    forall s :: s in held ==> held[s] != 0
  }

  lemma {:induction false} ReplayListsPositions(
    day: int, orders: Orders, t: Terms, cash: real, held: map<string, int>, s: seq<Event>)
    requires Indexed(orders, s) && ListsPositions(held)
    ensures ListsPositions(Replay(day, orders, t, Opening(orders, cash, held), s).held)
  {
    if s != [] {
      ReplayListsPositions(day, orders, t, cash, held, s[..|s| - 1]);
    }
  }

  /** A position that is closed disappears. */
  lemma ClosedPositionsDisappear(
    day: int, orders: Orders, windows: WindowBook, cash: real, held: map<string, int>, t: Terms)
    requires Admissible(day, orders, windows) && ListsPositions(held)
    ensures ListsPositions(Match(day, orders, windows, cash, held, t).held)
  {
    ScheduleIsIndexed(day, orders, windows);
    ReplayListsPositions(day, orders, t, cash, held, Schedule(orders, windows));
  }

  // ---------------------------------------------------------------- what is rejected

  /** The check of one security's windows, each against the one before it. */
  predicate Sequential(day: int, ws: seq<Window>) {
    forall k :: 0 <= k < |ws| ==> ws[k].candle.day == day && (k > 0 ==> ws[k - 1].end <= ws[k].start)
  }

  lemma {:induction false} SequentialIsDisjoint(day: int, ws: seq<Window>, j: nat, k: nat)
    requires Sequential(day, ws) && j < k < |ws|
    ensures ws[j].end <= ws[k].start
  {
    if j < k - 1 {
      SequentialIsDisjoint(day, ws, j, k - 1);
    }
  }

  /** A session is accepted exactly if all orders are validated limits and the windows of each are of the day, in order. */
  lemma AcceptedIff(day: int, orders: Orders, windows: WindowBook)
    ensures Admissible(day, orders, windows) <==>
            forall i :: 0 <= i < |orders| ==>
                          && orders[i].status == Validated && orders[i].intent.orderType == "limit"
                          && Sequential(day, WindowsOf(windows, orders[i].intent.instrument.secid))
  {
    forall i | 0 <= i < |orders|
      ensures SameSession(day, WindowsOf(windows, Secid(orders[i]))) <==> Sequential(day, WindowsOf(windows, Secid(orders[i])))
    {
      var ws := WindowsOf(windows, Secid(orders[i]));
      if Sequential(day, ws) {
        forall j, k | 0 <= j < k < |ws| ensures ws[j].end <= ws[k].start {
          SequentialIsDisjoint(day, ws, j, k);
        }
      }
    }
  }
}
