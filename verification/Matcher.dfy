/**
 The DAY-limit matcher of src/moex_bot/backtest_fills.py: what one session of orders does to cash
 and positions when it is replayed over completed execution windows.

 `Match` is the specification: it folds `Step` over the strictly increasing schedule of
 (window end, order index) events. `MatcherLoop.MatchSession` is the source's loop, proved equal to it.
 */
module Matcher {
  import opened Domain

  datatype CandleData = CandleData(day: int, open: real, high: real, low: real, close: real, volume: real)

  type Candle = c: CandleData |
      0.0 < c.low && c.low <= c.open <= c.high && c.low <= c.close <= c.high && 0.0 <= c.volume
    witness CandleData(0, 1.0, 1.0, 1.0, 1.0, 0.0)

  datatype WindowData = WindowData(start: int, end: int, candle: Candle)

  /** The seconds of the session in which a candle trades, without its end. */
  type Window = w: WindowData | 0 <= w.start < w.end <= 86400
    witness WindowData(0, 1, CandleData(0, 1.0, 1.0, 1.0, 1.0, 0.0))

  datatype TermsData = TermsData(reserve: real, impact: real, commission: real, participation: real, latency: int)

  /** The ranges `BacktestSettings` and its loader enforce. The commission has no upper bound there. */
  type Terms = t: TermsData |
      0.0 <= t.reserve && 0.0 <= t.impact && 0.0 <= t.commission &&
      0.0 < t.participation <= 1.0 && 0 <= t.latency <= 86400
    witness TermsData(0.0, 0.0, 0.0, 1.0, 0)

  datatype Trade = Trade(
    day: int, secid: string, side: Side, lots: int, units: int, signalLimit: real, fillPrice: real,
    gross: real, commission: real, orderRequestId: string, windowStart: int, windowEnd: int)

  /** What the last event did to an order. */
  datatype FillReason =
    | MissingWindow | NotActiveForFullWindow | NoTradeThrough | NoExecutableTick
    | VolumeCap | CashOrReserve | NoUnreservedPosition | CapacityOrCashPartial | FullyFilled

  datatype OutcomeStatus = FilledInFull | PartialExpired | Expired

  datatype Outcome = Outcome(
    day: int, orderRequestId: string, secid: string, requestedLots: int, filledLots: int,
    expiredLots: int, status: OutcomeStatus, lastReason: FillReason)

  datatype Session = Session(cash: real, held: map<string, int>, fills: seq<Trade>, outcomes: seq<Outcome>)

  type Orders = seq<OrderRecord>
  type WindowBook = map<string, seq<Window>>

  function Secid(r: OrderRecord): string {
    r.intent.instrument.secid
  }

  function WindowsOf(windows: WindowBook, secid: string): seq<Window> {
    if secid in windows then windows[secid] else []
  }

  // ---------------------------------------------------------------- the schedule of events

  datatype Event = Event(end: int, order: nat, window: Window)

  /** `sorted(events, key=lambda e: (e[0], e[1]))` */
  predicate Before(a: Event, b: Event) {
    a.end < b.end || (a.end == b.end && a.order < b.order)
  }

  predicate SameSession(day: int, ws: seq<Window>) {
    && (forall k :: 0 <= k < |ws| ==> ws[k].candle.day == day)
    && (forall j, k :: 0 <= j < k < |ws| ==> ws[j].end <= ws[k].start)
  }

  predicate IsValidatedLimit(rec: OrderRecord) {
    rec.status == Validated && rec.intent.orderType == "limit"
  }

  /** The inputs that the matcher does not reject. */
  predicate Admissible(day: int, orders: Orders, windows: WindowBook) {
    forall i :: 0 <= i < |orders| ==>
                  && IsValidatedLimit(orders[i])
                  && SameSession(day, WindowsOf(windows, Secid(orders[i])))
  }

  ghost predicate IsEvent(orders: Orders, windows: WindowBook, e: Event) {
    && e.order < |orders|
    && e.window in WindowsOf(windows, Secid(orders[e.order]))
    && e.end == e.window.end
  }

  predicate Strict(s: seq<Event>) {
    forall j, k :: 0 <= j < k < |s| ==> Before(s[j], s[k])
  }

  /** A strictly increasing arrangement of exactly the events of the session. */
  ghost predicate IsSchedule(orders: Orders, windows: WindowBook, s: seq<Event>) {
    && Strict(s)
    && (forall e :: e in s <==> IsEvent(orders, windows, e))
  }

  function Insert(e: Event, s: seq<Event>): (r: seq<Event>)
    ensures |r| == |s| + 1
  {
    if s == [] || Before(e, s[0]) then [e] + s else [s[0]] + Insert(e, s[1..])
  }

  function Sort(s: seq<Event>): (r: seq<Event>) {
    if s == [] then [] else Insert(s[|s| - 1], Sort(s[..|s| - 1]))
  }

  function OrderEvents(i: nat, ws: seq<Window>): (r: seq<Event>)
    ensures |r| == |ws|
    ensures forall k :: 0 <= k < |ws| ==> r[k] == Event(ws[k].end, i, ws[k])
  {
    if ws == [] then [] else OrderEvents(i, ws[..|ws| - 1]) + [Event(ws[|ws| - 1].end, i, ws[|ws| - 1])]
  }

  function PlanEvents(orders: Orders, windows: WindowBook, n: nat): seq<Event>
    requires n <= |orders|
  {
    if n == 0 then []
    else PlanEvents(orders, windows, n - 1) + OrderEvents(n - 1, WindowsOf(windows, Secid(orders[n - 1])))
  }

  function Schedule(orders: Orders, windows: WindowBook): seq<Event> {
    Sort(PlanEvents(orders, windows, |orders|))
  }

  ghost predicate KeysDiffer(s: seq<Event>) {
    forall j, k :: 0 <= j < k < |s| ==> Before(s[j], s[k]) || Before(s[k], s[j])
  }

  lemma {:induction false} InsertKeepsOrder(e: Event, s: seq<Event>)
    requires Strict(s)
    requires forall x :: x in s ==> Before(x, e) || Before(e, x)
    ensures Strict(Insert(e, s))
    ensures forall x :: x in Insert(e, s) <==> x == e || x in s
  {
    if s == [] || Before(e, s[0]) {
    } else {
      InsertKeepsOrder(e, s[1..]);
      var r := Insert(e, s[1..]);
      assert s == [s[0]] + s[1..];
      forall k | 0 <= k < |r| ensures Before(s[0], r[k]) {
        assert r[k] in r;
      }
    }
  }

  lemma {:induction false} SortKeepsElements(s: seq<Event>)
    requires KeysDiffer(s)
    ensures Strict(Sort(s))
    ensures forall x :: x in Sort(s) <==> x in s
  {
    if s != [] {
      var n := |s| - 1;
      SortKeepsElements(s[..n]);
      assert s == s[..n] + [s[n]];
      forall x | x in Sort(s[..n]) ensures Before(x, s[n]) || Before(s[n], x) {
        assert x in s[..n];
      }
      InsertKeepsOrder(s[n], Sort(s[..n]));
    }
  }

  lemma NonemptyHasElement(s: seq<Event>)
    requires s != []
    ensures exists e :: e in s
  {
    assert s[0] in s;
  }

  lemma {:induction false} StrictIsUnique(a: seq<Event>, b: seq<Event>)
    requires Strict(a) && Strict(b)
    requires forall e :: e in a <==> e in b
    ensures a == b
  {
    if a == [] {
      if b != [] {
        NonemptyHasElement(b);
      }
    } else {
      assert a[0] in b;
      assert b[0] in a;
      assert a[0] == b[0];
      forall e | e in a[1..] ensures e in b[1..] {
        assert e in b;
        var k :| 0 <= k < |a[1..]| && a[1..][k] == e;
        assert Before(a[0], a[k + 1]);
      }
      forall e | e in b[1..] ensures e in a[1..] {
        assert e in a;
        var k :| 0 <= k < |b[1..]| && b[1..][k] == e;
        assert Before(b[0], b[k + 1]);
      }
      StrictIsUnique(a[1..], b[1..]);
      assert a == [a[0]] + a[1..];
      assert b == [b[0]] + b[1..];
    }
  }

  lemma OrderEventsDiffer(day: int, i: nat, ws: seq<Window>)
    requires SameSession(day, ws)
    ensures KeysDiffer(OrderEvents(i, ws))
    ensures forall e :: e in OrderEvents(i, ws) <==> e.order == i && e.window in ws && e.end == e.window.end
  {
    var r := OrderEvents(i, ws);
    forall j, k | 0 <= j < k < |r| ensures Before(r[j], r[k]) {
      assert ws[j].end <= ws[k].start;
    }
    forall e: Event | e.order == i && e.window in ws && e.end == e.window.end ensures e in r {
      var k :| 0 <= k < |ws| && ws[k] == e.window;
      assert r[k] == e;
    }
  }

  lemma KeysDifferAppend(a: seq<Event>, b: seq<Event>, i: nat)
    requires KeysDiffer(a) && KeysDiffer(b)
    requires forall e :: e in a ==> e.order < i
    requires forall e :: e in b ==> e.order == i
    ensures KeysDiffer(a + b)
  {
    var s := a + b;
    forall j, k | 0 <= j < k < |s| ensures Before(s[j], s[k]) || Before(s[k], s[j]) {
      if j < |a| <= k {
        assert s[j] in a && s[k] in b;
      }
    }
  }

  lemma {:induction false} PlanEventsAreTheEvents(day: int, orders: Orders, windows: WindowBook, n: nat)
    requires n <= |orders| && Admissible(day, orders, windows)
    ensures KeysDiffer(PlanEvents(orders, windows, n))
    ensures forall e :: e in PlanEvents(orders, windows, n) <==> IsEvent(orders, windows, e) && e.order < n
  {
    if n > 0 {
      PlanEventsAreTheEvents(day, orders, windows, n - 1);
      var ws := WindowsOf(windows, Secid(orders[n - 1]));
      OrderEventsDiffer(day, n - 1, ws);
      KeysDifferAppend(PlanEvents(orders, windows, n - 1), OrderEvents(n - 1, ws), n - 1);
    }
  }

  /** The schedule exists, and is the only one: the dictionary order of the symbols plays no part. */
  lemma ScheduleIsUnique(day: int, orders: Orders, windows: WindowBook)
    requires Admissible(day, orders, windows)
    ensures IsSchedule(orders, windows, Schedule(orders, windows))
    ensures forall s :: IsSchedule(orders, windows, s) ==> s == Schedule(orders, windows)
  {
    PlanEventsAreTheEvents(day, orders, windows, |orders|);
    SortKeepsElements(PlanEvents(orders, windows, |orders|));
    forall s | IsSchedule(orders, windows, s) ensures s == Schedule(orders, windows) {
      StrictIsUnique(s, Schedule(orders, windows));
    }
  }

  // ---------------------------------------------------------------- one event

  /** The loop's mutable variables. */
  datatype Book = Book(
    cash: real, held: map<string, int>, consumed: map<(string, int), int>,
    done: seq<int>, reasons: seq<FillReason>, fills: seq<Trade>)

  datatype Verdict = Complete | Miss(reason: FillReason) | Deal(lots: int, price: real)

  /** A market price moved against the order by the assumed half spread and slippage. */
  function Proxy(side: Side, price: real, impact: real): real {
    price * (if side == Buy then 1.0 + impact else 1.0 - impact)
  }

  /** Some price of the candle beats the limit even after its impact; reaching the limit exactly is no deal. */
  predicate Crosses(o: OrderIntent, c: Candle, impact: real) {
    if o.side == Buy then Proxy(Buy, c.low, impact) < o.limitPrice
    else Proxy(Sell, c.high, impact) > o.limitPrice
  }

  /** The open with its impact when that beats the limit, and the limit for a candle that only crosses later. */
  function DealPrice(o: OrderIntent, c: Candle, impact: real): real {
    RoundedPrice(o, c, Proxy(o.side, c.open, impact))
  }

  function RoundedPrice(o: OrderIntent, c: Candle, proxy: real): real {
    if o.side == Buy then TickUp(Min(Min(c.high, o.limitPrice), proxy), o.instrument.tickSize)
    else TickDown(Max(Max(c.low, o.limitPrice), proxy), o.instrument.tickSize)
  }

  predicate Executable(o: OrderIntent, c: Candle, price: real) {
    && c.low <= price <= c.high
    && (if o.side == Buy then price <= o.limitPrice else price >= o.limitPrice)
  }

  function Consumed(consumed: map<(string, int), int>, key: (string, int)): int {
    if key in consumed then consumed[key] else 0
  }

  function LotCost(o: OrderIntent, t: Terms, price: real): real {
    price * o.instrument.lotSize as real * (1.0 + t.commission)
  }

  function Budget(w: Window, t: Terms): int {
    (w.candle.volume * t.participation).Floor
  }

  /** How many of `lots` the cash or the position admits. */
  function Admitted(o: OrderIntent, t: Terms, cash: real, current: int, price: real, lots: int): int
    requires price > 0.0
  {
    if o.side == Buy then
      CostIsPositive(o, t, price);
      var cost := LotCost(o, t, price);
      var affordable := (Max(0.0, cash - t.reserve) / cost).Floor;
      var cover := MinInt(MaxInt(0, -current), (Max(0.0, cash) / cost).Floor);
      MinInt(lots, MaxInt(affordable, cover))
    else if !o.confirmMarginTrade then MinInt(lots, MaxInt(0, current))
    else lots
  }

  lemma CostIsPositive(o: OrderIntent, t: Terms, price: real)
    requires price > 0.0
    ensures LotCost(o, t, price) > 0.0
  {
    var size := o.instrument.lotSize as real;
    assert price * size > 0.0;
    assert price * size * (1.0 + t.commission) > 0.0;
  }

  /** How many lots the order and the window's shared volume budget leave, possibly none. */
  function Room(o: OrderIntent, t: Terms, b: Book, done: int, w: Window): int {
    var capacity := Budget(w, t) - Consumed(b.consumed, (o.instrument.secid, w.start));
    MinInt(o.lots - done, capacity / o.instrument.lotSize)
  }

  function Size(o: OrderIntent, t: Terms, b: Book, room: int, price: real): Verdict
    requires price > 0.0
  {
    if room <= 0 then Miss(VolumeCap)
    else
      var lots := Admitted(o, t, b.cash, Lots(b.held, o.instrument.secid), price, room);
      if lots == 0 then Miss(if o.side == Buy then CashOrReserve else NoUnreservedPosition)
      else Deal(lots, price)
  }

  function Decide(o: OrderIntent, t: Terms, b: Book, done: int, w: Window): Verdict {
    var price := DealPrice(o, w.candle, t.impact);
    if done == o.lots then Complete
    else if w.start < t.latency then Miss(NotActiveForFullWindow)
    else if !Crosses(o, w.candle, t.impact) then Miss(NoTradeThrough)
    else if !Executable(o, w.candle, price) then Miss(NoExecutableTick)
    else Size(o, t, b, Room(o, t, b, done, w), price)
  }

  function TradeOf(day: int, o: OrderIntent, t: Terms, w: Window, lots: int, price: real): Trade {
    var units := lots * o.instrument.lotSize;
    var gross := units as real * price;
    Trade(day, o.instrument.secid, o.side, lots, units, o.limitPrice, price, gross,
          gross * t.commission, o.orderRequestId, w.start, w.end)
  }

  /** What a trade adds to cash. */
  function Flow(f: Trade): real {
    (if f.side == Buy then -f.gross else f.gross) - f.commission
  }

  function Add(held: map<string, int>, secid: string, delta: int): map<string, int> {
    var next := Lots(held, secid) + delta;
    if next == 0 then held - {secid} else held[secid := next]
  }

  function Settle(o: OrderIntent, b: Book, i: nat, f: Trade): (r: Book)
    requires i < |b.done| == |b.reasons|
    ensures |r.done| == |r.reasons| == |b.done|
  {
    var key := (f.secid, f.windowStart);
    var filled := b.done[i] + f.lots;
    Book(
      b.cash + Flow(f),
      Add(b.held, f.secid, Signed(f.side, f.lots)),
      b.consumed[key := Consumed(b.consumed, key) + f.units],
      b.done[i := filled],
      b.reasons[i := if filled == o.lots then FullyFilled else CapacityOrCashPartial],
      b.fills + [f])
  }

  function Step(day: int, orders: Orders, t: Terms, b: Book, e: Event): (r: Book)
    requires e.order < |orders| == |b.done| == |b.reasons|
    ensures |r.done| == |r.reasons| == |orders|
  {
    var o := orders[e.order].intent;
    match Decide(o, t, b, b.done[e.order], e.window)
    case Complete => b
    case Miss(reason) => b.(reasons := b.reasons[e.order := reason])
    case Deal(lots, price) => Settle(o, b, e.order, TradeOf(day, o, t, e.window, lots, price))
  }

  predicate Indexed(orders: Orders, s: seq<Event>) {
    forall k :: 0 <= k < |s| ==> s[k].order < |orders|
  }

  function Replay(day: int, orders: Orders, t: Terms, b: Book, s: seq<Event>): (r: Book)
    requires Indexed(orders, s) && |b.done| == |b.reasons| == |orders|
    ensures |r.done| == |r.reasons| == |orders|
  {
    if s == [] then b
    else Step(day, orders, t, Replay(day, orders, t, b, s[..|s| - 1]), s[|s| - 1])
  }

  function Opening(orders: Orders, cash: real, held: map<string, int>): Book {
    Book(cash, held, map[], seq(|orders|, _ => 0), seq(|orders|, _ => MissingWindow), [])
  }

  function OutcomeOf(day: int, o: OrderIntent, n: int, reason: FillReason): Outcome {
    Outcome(day, o.orderRequestId, o.instrument.secid, o.lots, n, o.lots - n,
            if n == o.lots then FilledInFull else if n != 0 then PartialExpired else Expired, reason)
  }

  function Outcomes(day: int, orders: Orders, done: seq<int>, reasons: seq<FillReason>): (r: seq<Outcome>)
    requires |orders| == |done| == |reasons|
    ensures |r| == |orders|
    ensures forall i :: 0 <= i < |r| ==> r[i] == OutcomeOf(day, orders[i].intent, done[i], reasons[i])
  {
    seq(|orders|, i requires 0 <= i < |orders| => OutcomeOf(day, orders[i].intent, done[i], reasons[i]))
  }

  function SessionOf(day: int, orders: Orders, b: Book): Session
    requires |orders| == |b.done| == |b.reasons|
  {
    Session(b.cash, b.held, b.fills, Outcomes(day, orders, b.done, b.reasons))
  }

  lemma ScheduleIsIndexed(day: int, orders: Orders, windows: WindowBook)
    requires Admissible(day, orders, windows)
    ensures Indexed(orders, Schedule(orders, windows))
  {
    ScheduleIsUnique(day, orders, windows);
    var s := Schedule(orders, windows);
    forall k | 0 <= k < |s| ensures s[k].order < |orders| {
      assert s[k] in s;
    }
  }

  function Match(day: int, orders: Orders, windows: WindowBook, cash: real, held: map<string, int>, t: Terms)
    : Session
    requires Admissible(day, orders, windows)
  {
    ScheduleIsIndexed(day, orders, windows);
    SessionOf(day, orders, Replay(day, orders, t, Opening(orders, cash, held), Schedule(orders, windows)))
  }
}
