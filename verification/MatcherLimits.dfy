/**
 Exactly when the matcher may overdraw cash, and which positions can become short.
 */
module MatcherLimits {
  import opened Domain
  import opened Matcher
  import opened MatcherTheorems

  // ---------------------------------------------------------------- the commission bound

  /** Every session that starts without debt ends without debt. */
  ghost predicate NeverOverdraws(t: Terms) {
    forall day, orders, windows, cash, held ::
      Admissible(day, orders, windows) && 0.0 <= cash ==> 0.0 <= Match(day, orders, windows, cash, held, t).cash
  }

  const SAMPLE: Instrument := InstrumentData("S", "U", 1, 1.0, "RUB", "I", "S", "C", "share", true)

  /** One lot sold short for a price of one. */
  function SampleSale(impact: real): OrderIntent
    requires impact < 1.0
  {
    IntentData("sale", SAMPLE, Sell, 1, (1.0 - impact) / 2.0, 1.0, "", true, "limit")
  }

  function SampleWindow(t: Terms): Window
    requires t.latency < 86400
  {
    WindowData(t.latency, 86400, CandleData(0, 1.0, 1.0, 1.0, 1.0, 1.0 / t.participation))
  }

  lemma SampleSaleDeals(t: Terms, b: Book)
    requires t.impact < 1.0 && t.latency < 86400 && b.consumed == map[]
    ensures Decide(SampleSale(t.impact), t, b, 0, SampleWindow(t)) == Deal(1, 1.0)
  {
    var o, w := SampleSale(t.impact), SampleWindow(t);
    assert Budget(w, t) == 1;
    assert Proxy(Sell, 1.0, t.impact) == 1.0 - t.impact;
    assert DealPrice(o, w.candle, t.impact) == TickDown(1.0, 1.0) == 1.0;
  }

  lemma SampleSaleOverdraws(t: Terms)
    requires 1.0 < t.commission && !NeverSells(t)
    ensures !NeverOverdraws(t)
  {
    var o := SampleSale(t.impact);
    var orders := [OrderRecord(o, Validated, 0, None, "")];
    var windows := map["S" := [SampleWindow(t)]];
    var e := Event(86400, 0, SampleWindow(t));
    OneEvent(orders, windows, SampleWindow(t));
    var b := Opening(orders, 0.0, map[]);
    OneStep(0, orders, t, b, e);
    SampleSaleCosts(t, b, orders, e);
    assert Match(0, orders, windows, 0.0, map[], t).cash == 1.0 - t.commission;
  }

  /** The schedule of one order with one window. */
  lemma OneEvent(orders: Orders, windows: WindowBook, w: Window)
    requires |orders| == 1 && WindowsOf(windows, Secid(orders[0])) == [w]
    ensures Schedule(orders, windows) == [Event(w.end, 0, w)]
  {
    var e := Event(w.end, 0, w);
    assert PlanEvents(orders, windows, 0) == [];
    assert OrderEvents(0, [w]) == [e];
    assert PlanEvents(orders, windows, 1) == [e];
    assert Sort([]) == [] && [e][..0] == [];
  }

  lemma OneStep(day: int, orders: Orders, t: Terms, b: Book, e: Event)
    requires e.order < |orders| == |b.done| == |b.reasons|
    ensures Replay(day, orders, t, b, [e]) == Step(day, orders, t, b, e)
  {
    assert [e][..0] == [] && Replay(day, orders, t, b, []) == b;
  }

  /** The sale brings one and costs the commission. */
  lemma SampleSaleCosts(t: Terms, b: Book, orders: Orders, e: Event)
    requires t.impact < 1.0 && t.latency < 86400 && e == Event(86400, 0, SampleWindow(t))
    requires orders == [OrderRecord(SampleSale(t.impact), Validated, 0, None, "")] && b == Opening(orders, 0.0, map[])
    ensures Step(0, orders, t, b, e).cash == 1.0 - t.commission
  {
    SampleSaleDeals(t, b);
  }

  /**
   Sessions that start without debt never overdraw cash exactly when the commission takes at most
   the whole proceeds of a sale, or the terms rule out every sale.
   */
  lemma NeverOverdrawsIff(t: Terms)
    ensures NeverOverdraws(t) <==> t.commission <= 1.0 || NeverSells(t)
  {
    if t.commission <= 1.0 || NeverSells(t) {
      forall day, orders, windows, cash, held | Admissible(day, orders, windows) && 0.0 <= cash
        ensures 0.0 <= Match(day, orders, windows, cash, held, t).cash
      {
        Solvency(day, orders, windows, cash, held, t);
      }
    } else {
      SampleSaleOverdraws(t);
    }
  }

  // ---------------------------------------------------------------- positions

  /** No order of the security may sell more than is held. */
  predicate SellsOnlyHoldings(orders: Orders, secid: string) {
    forall i :: 0 <= i < |orders| && Secid(orders[i]) == secid && orders[i].intent.side == Sell ==>
                  !orders[i].intent.confirmMarginTrade
  }

  lemma StepKeepsHoldings(day: int, orders: Orders, t: Terms, b: Book, e: Event, secid: string)
    requires e.order < |orders| == |b.done| == |b.reasons|
    requires b.done[e.order] <= orders[e.order].intent.lots
    requires SellsOnlyHoldings(orders, secid) && 0 <= Lots(b.held, secid)
    ensures 0 <= Lots(Step(day, orders, t, b, e).held, secid)
  {
    var i, o := e.order, orders[e.order].intent;
    if Decide(o, t, b, b.done[i], e.window).Deal? {
      DealIsJustified(o, t, b, b.done[i], e.window);
    }
  }

  lemma {:induction false} ReplayKeepsHoldings(
    day: int, orders: Orders, t: Terms, cash: real, held: map<string, int>, s: seq<Event>, secid: string)
    requires Indexed(orders, s)
    requires SellsOnlyHoldings(orders, secid) && 0 <= Lots(held, secid)
    ensures 0 <= Lots(Replay(day, orders, t, Opening(orders, cash, held), s).held, secid)
  {
    if s != [] {
      var before := s[..|s| - 1];
      ReplayKeepsHoldings(day, orders, t, cash, held, before, secid);
      ReplayKeepsBalance(day, orders, t, cash, held, before);
      StepKeepsHoldings(day, orders, t, Replay(day, orders, t, Opening(orders, cash, held), before), s[|s| - 1], secid);
    }
  }

  /** Without margin-confirmed sells a security that is not short stays not short. */
  lemma NoAccidentalShort(
    day: int, orders: Orders, windows: WindowBook, cash: real, held: map<string, int>, t: Terms, secid: string)
    requires Admissible(day, orders, windows)
    requires SellsOnlyHoldings(orders, secid) && 0 <= Lots(held, secid)
    ensures 0 <= Lots(Match(day, orders, windows, cash, held, t).held, secid)
  {
    ScheduleIsIndexed(day, orders, windows);
    ReplayKeepsHoldings(day, orders, t, cash, held, Schedule(orders, windows), secid);
  }
}
