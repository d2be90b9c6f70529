/**
 Causality and completeness of the DAY-limit matcher: each event makes the greatest fill it may,
 the volume budget of a window is shared, and nothing that happens later changes an earlier fill.
 */
module MatcherCausality {
  import opened Domain
  import opened Matcher
  import opened MatcherTheorems

  // ---------------------------------------------------------------- every event, completely

  /** The state after the first `k` events of the session. */
  function After(
    day: int, orders: Orders, windows: WindowBook, cash: real, held: map<string, int>, t: Terms, k: nat): (b: Book)
    requires Admissible(day, orders, windows) && k <= |Schedule(orders, windows)|
    ensures |b.done| == |b.reasons| == |orders|
  {
    ScheduleIsIndexed(day, orders, windows);
    Replay(day, orders, t, Opening(orders, cash, held), Schedule(orders, windows)[..k])
  }

  function EventAt(day: int, orders: Orders, windows: WindowBook, k: nat): (e: Event)
    requires Admissible(day, orders, windows) && k < |Schedule(orders, windows)|
    ensures e.order < |orders|
  {
    ScheduleIsIndexed(day, orders, windows);
    Schedule(orders, windows)[k]
  }

  /**
   Completeness: at each event the matcher fills the greatest number of lots that fits then, at the
   deal price, and makes no fill only when the window is not tradable or not even one lot fits.
   */
  lemma EveryEventFillsTheMost(
    day: int, orders: Orders, windows: WindowBook, cash: real, held: map<string, int>, t: Terms, k: nat)
    requires Admissible(day, orders, windows) && k < |Schedule(orders, windows)|
    ensures var e := EventAt(day, orders, windows, k);
            var b, r := After(day, orders, windows, cash, held, t, k), After(day, orders, windows, cash, held, t, k + 1);
            FillsTheMost(day, orders[e.order].intent, t, b, r, e)
  {
    ScheduleIsIndexed(day, orders, windows);
    var s := Schedule(orders, windows);
    assert s[..k + 1][..k] == s[..k];
    ReplayKeepsBalance(day, orders, t, cash, held, s[..k]);
    StepFillsTheMost(day, orders, t, After(day, orders, windows, cash, held, t, k), s[k]);
  }

  ghost predicate FillsTheMost(day: int, o: OrderIntent, t: Terms, b: Book, r: Book, e: Event)
    requires e.order < |b.done| == |r.done|
  {
    var done := b.done[e.order];
    if Tradable(o, t, e.window) && Fits(o, t, b, done, e.window, 1) then
      var n := r.done[e.order] - done;
      && Fits(o, t, b, done, e.window, n)
      && (forall m :: Fits(o, t, b, done, e.window, m) ==> m <= n)
      && r.fills == b.fills + [TradeOf(day, o, t, e.window, n, DealPrice(o, e.window.candle, t.impact))]
    else
      r.fills == b.fills && r.cash == b.cash && r.held == b.held && r.done == b.done
  }

  lemma StepFillsTheMost(day: int, orders: Orders, t: Terms, b: Book, e: Event)
    requires e.order < |orders| == |b.done| == |b.reasons| && b.done[e.order] <= orders[e.order].intent.lots
    ensures FillsTheMost(day, orders[e.order].intent, t, b, Step(day, orders, t, b, e), e)
  {
    var o, done := orders[e.order].intent, b.done[e.order];
    var verdict := Decide(o, t, b, done, e.window);
    if verdict.Deal? {
      DealIsJustified(o, t, b, done, e.window);
      FirstLotFits(o, t, b, done, e.window, verdict.lots);
      forall m | Fits(o, t, b, done, e.window, m) ensures m <= verdict.lots {
        DealIsTheGreatestThatFits(o, t, b, done, e.window, m);
      }
    } else if Tradable(o, t, e.window) {
      DealIsTheGreatestThatFits(o, t, b, done, e.window, 1);
    }
  }

  lemma FirstLotFits(o: OrderIntent, t: Terms, b: Book, done: int, w: Window, n: int)
    requires done <= o.lots && Tradable(o, t, w) && Fits(o, t, b, done, w, n)
    ensures Fits(o, t, b, done, w, 1)
  {
    DealIsTheGreatestThatFits(o, t, b, done, w, n);
    DealIsTheGreatestThatFits(o, t, b, done, w, 1);
  }

  // ---------------------------------------------------------------- the shared volume budget

  ghost predicate WithinBudget(orders: Orders, windows: WindowBook, t: Terms, b: Book) {
    forall i, w :: 0 <= i < |orders| && w in WindowsOf(windows, Secid(orders[i])) ==>
                     Consumed(b.consumed, (Secid(orders[i]), w.start)) <= Budget(w, t)
  }

  lemma StartsDiffer(day: int, ws: seq<Window>, v: Window, w: Window)
    requires SameSession(day, ws) && v in ws && w in ws && v.start == w.start
    ensures v == w
  {
    var j :| 0 <= j < |ws| && ws[j] == v;
    var k :| 0 <= k < |ws| && ws[k] == w;
    StartsIncrease(day, ws);
  }

  lemma StartsIncrease(day: int, ws: seq<Window>)
    requires SameSession(day, ws)
    ensures forall j, k :: 0 <= j < k < |ws| ==> ws[j].start < ws[k].start
  {
    forall j, k | 0 <= j < k < |ws| ensures ws[j].start < ws[k].start {
      assert ws[j].end <= ws[k].start;
    }
  }

  lemma StepStaysWithinBudget(day: int, orders: Orders, windows: WindowBook, t: Terms, cash: real,
                              held: map<string, int>, b: Book, e: Event)
    requires Admissible(day, orders, windows) && IsEvent(orders, windows, e)
    requires Balanced(orders, cash, held, b) && WithinBudget(orders, windows, t, b)
    ensures WithinBudget(orders, windows, t, Step(day, orders, t, b, e))
  {
    var o := orders[e.order].intent;
    var verdict := Decide(o, t, b, b.done[e.order], e.window);
    if verdict.Deal? {
      DealIsJustified(o, t, b, b.done[e.order], e.window);
      var r := Step(day, orders, t, b, e);
      forall i, w | 0 <= i < |orders| && w in WindowsOf(windows, Secid(orders[i]))
        ensures Consumed(r.consumed, (Secid(orders[i]), w.start)) <= Budget(w, t)
      {
        if Secid(orders[i]) == o.instrument.secid && w.start == e.window.start {
          StartsDiffer(day, WindowsOf(windows, Secid(orders[i])), w, e.window);
        }
      }
    }
  }

  lemma BudgetIsNotNegative(w: Window, t: Terms)
    ensures 0 <= Budget(w, t)
  {
    assert 0.0 <= w.candle.volume * t.participation;
  }

  lemma {:induction false} ReplayStaysWithinBudget(
    day: int, orders: Orders, windows: WindowBook, t: Terms, cash: real, held: map<string, int>, s: seq<Event>)
    requires Admissible(day, orders, windows)
    requires Indexed(orders, s) && forall k :: 0 <= k < |s| ==> IsEvent(orders, windows, s[k])
    ensures WithinBudget(orders, windows, t, Replay(day, orders, t, Opening(orders, cash, held), s))
  {
    if s == [] {
      forall i, w | 0 <= i < |orders| && w in WindowsOf(windows, Secid(orders[i])) ensures 0 <= Budget(w, t) {
        BudgetIsNotNegative(w, t);
      }
    } else {
      var before := s[..|s| - 1];
      ReplayStaysWithinBudget(day, orders, windows, t, cash, held, before);
      ReplayKeepsBalance(day, orders, t, cash, held, before);
      StepStaysWithinBudget(day, orders, windows, t, cash, held,
                            Replay(day, orders, t, Opening(orders, cash, held), before), s[|s| - 1]);
    }
  }

  lemma UnitsStayWithinBudget(
    day: int, orders: Orders, windows: WindowBook, cash: real, held: map<string, int>, t: Terms, i: nat, w: Window)
    requires Admissible(day, orders, windows)
    requires i < |orders| && w in WindowsOf(windows, Secid(orders[i]))
    ensures UnitsIn(Match(day, orders, windows, cash, held, t).fills, Secid(orders[i]), w.start) <= Budget(w, t)
  {
    ScheduleIsIndexed(day, orders, windows);
    ScheduleIsUnique(day, orders, windows);
    var s := Schedule(orders, windows);
    assert forall k :: 0 <= k < |s| ==> s[k] in s;
    ReplayStaysWithinBudget(day, orders, windows, t, cash, held, s);
    ReplayKeepsBalance(day, orders, t, cash, held, s);
  }

  lemma BudgetIsAShare(w: Window, t: Terms, units: int)
    requires units <= Budget(w, t)
    ensures units as real <= w.candle.volume * t.participation
  {
  }

  /** Buys and sells of all orders together never take more than the participation share of a window. */
  lemma SharedVolumeBudget(
    day: int, orders: Orders, windows: WindowBook, cash: real, held: map<string, int>, t: Terms, i: nat, w: Window)
    requires Admissible(day, orders, windows)
    requires i < |orders| && w in WindowsOf(windows, Secid(orders[i]))
    ensures UnitsIn(Match(day, orders, windows, cash, held, t).fills, Secid(orders[i]), w.start) as real <=
            w.candle.volume * t.participation
  {
    UnitsStayWithinBudget(day, orders, windows, cash, held, t, i, w);
    BudgetIsAShare(w, t, UnitsIn(Match(day, orders, windows, cash, held, t).fills, Secid(orders[i]), w.start));
  }

  // ---------------------------------------------------------------- no lookahead

  function Until(ws: seq<Window>, cutoff: int): seq<Window> {
    if ws == [] then []
    else
      Until(ws[..|ws| - 1], cutoff) + if ws[|ws| - 1].end <= cutoff then [ws[|ws| - 1]] else []
  }

  /** Only the windows that are complete by the cutoff. */
  function Completed(windows: WindowBook, cutoff: int): WindowBook {
    map s | s in windows :: Until(windows[s], cutoff)
  }

  function FillsUntil(fills: seq<Trade>, cutoff: int): seq<Trade> {
    if fills == [] then []
    else
      FillsUntil(fills[..|fills| - 1], cutoff)
      + if fills[|fills| - 1].windowEnd <= cutoff then [fills[|fills| - 1]] else []
  }

  lemma {:induction false} UntilSelects(ws: seq<Window>, cutoff: int, w: Window)
    ensures w in Until(ws, cutoff) <==> w in ws && w.end <= cutoff
  {
    if ws != [] {
      UntilSelects(ws[..|ws| - 1], cutoff, w);
      assert ws == ws[..|ws| - 1] + [ws[|ws| - 1]];
    }
  }

  lemma {:induction false} UntilStaysOrdered(day: int, ws: seq<Window>, cutoff: int)
    requires SameSession(day, ws)
    ensures SameSession(day, Until(ws, cutoff))
  {
    if ws != [] {
      var n := |ws| - 1;
      UntilStaysOrdered(day, ws[..n], cutoff);
      var u := Until(ws[..n], cutoff);
      forall j | 0 <= j < |u| ensures u[j].end <= ws[n].start {
        UntilSelects(ws[..n], cutoff, u[j]);
        var m :| 0 <= m < n && ws[..n][m] == u[j];
        assert ws[m].end <= ws[n].start;
      }
    }
  }

  lemma CompletedIsAdmissible(day: int, orders: Orders, windows: WindowBook, cutoff: int)
    requires Admissible(day, orders, windows)
    ensures Admissible(day, orders, Completed(windows, cutoff))
    ensures forall e :: IsEvent(orders, Completed(windows, cutoff), e) <==>
                        IsEvent(orders, windows, e) && e.end <= cutoff
  {
    var cut := Completed(windows, cutoff);
    forall s, w: Window ensures w in WindowsOf(cut, s) <==> w in WindowsOf(windows, s) && w.end <= cutoff {
      UntilSelects(WindowsOf(windows, s), cutoff, w);
    }
    forall i | 0 <= i < |orders| ensures SameSession(day, WindowsOf(cut, Secid(orders[i]))) {
      UntilStaysOrdered(day, WindowsOf(windows, Secid(orders[i])), cutoff);
    }
  }

  /** A strictly increasing schedule splits at the cutoff. */
  lemma {:induction false} CutPoint(s: seq<Event>, cutoff: int) returns (k: nat)
    requires Strict(s)
    ensures k <= |s|
    ensures forall j :: 0 <= j < k ==> s[j].end <= cutoff
    ensures forall j :: k <= j < |s| ==> cutoff < s[j].end
  {
    if s == [] || s[|s| - 1].end <= cutoff {
      k := |s|;
      forall j | 0 <= j < k ensures s[j].end <= cutoff {
        assert j < |s| - 1 ==> Before(s[j], s[|s| - 1]);
      }
    } else {
      k := CutPoint(s[..|s| - 1], cutoff);
    }
  }

  lemma CompletedScheduleIsAPrefix(day: int, orders: Orders, windows: WindowBook, cutoff: int) returns (k: nat)
    requires Admissible(day, orders, windows)
    ensures Admissible(day, orders, Completed(windows, cutoff))
    ensures k <= |Schedule(orders, windows)|
    ensures Schedule(orders, Completed(windows, cutoff)) == Schedule(orders, windows)[..k]
    ensures forall j :: 0 <= j < k ==> Schedule(orders, windows)[j].end <= cutoff
    ensures forall j :: k <= j < |Schedule(orders, windows)| ==> cutoff < Schedule(orders, windows)[j].end
  {
    var s := Schedule(orders, windows);
    ScheduleIsUnique(day, orders, windows);
    CompletedIsAdmissible(day, orders, windows, cutoff);
    k := CutPoint(s, cutoff);
    assert IsSchedule(orders, Completed(windows, cutoff), s[..k]) by {
      forall e ensures e in s[..k] <==> e in s && e.end <= cutoff {
        CutSelects(s, k, cutoff, e);
      }
    }
    ScheduleIsUnique(day, orders, Completed(windows, cutoff));
  }

  lemma CutSelects(s: seq<Event>, k: nat, cutoff: int, e: Event)
    requires k <= |s|
    requires forall j :: 0 <= j < k ==> s[j].end <= cutoff
    requires forall j :: k <= j < |s| ==> cutoff < s[j].end
    ensures e in s[..k] <==> e in s && e.end <= cutoff
  {
    if e in s && e.end <= cutoff {
      var j :| 0 <= j < |s| && s[j] == e;
      assert s[..k][j] == e;
    }
  }

  predicate AddsAtMostOne(before: seq<Trade>, after: seq<Trade>, end: int) {
    || after == before
    || (|after| == |before| + 1 && after[..|before|] == before && after[|before|].windowEnd == end)
  }

  lemma StepAddsAtMostOneFill(day: int, orders: Orders, t: Terms, b: Book, e: Event)
    requires e.order < |orders| == |b.done| == |b.reasons|
    ensures AddsAtMostOne(b.fills, Step(day, orders, t, b, e).fills, e.window.end)
  {
  }

  lemma FillsUntilExtends(before: seq<Trade>, after: seq<Trade>, end: int, cutoff: int)
    requires AddsAtMostOne(before, after, end)
    ensures before <= after
    ensures FillsUntil(after, cutoff) == FillsUntil(before, cutoff) + if end <= cutoff then after[|before|..] else []
  {
    if after != before {
      assert after[|before|..] == [after[|before|]];
    }
  }

  lemma LastEventExtends(day: int, orders: Orders, t: Terms, b: Book, s: seq<Event>, cutoff: int)
    requires s != [] && Indexed(orders, s) && |b.done| == |b.reasons| == |orders|
    requires s[|s| - 1].end == s[|s| - 1].window.end
    ensures var before, after := Replay(day, orders, t, b, s[..|s| - 1]).fills, Replay(day, orders, t, b, s).fills;
            && before <= after
            && FillsUntil(after, cutoff) ==
               FillsUntil(before, cutoff) + if s[|s| - 1].end <= cutoff then after[|before|..] else []
  {
    var before := Replay(day, orders, t, b, s[..|s| - 1]);
    StepAddsAtMostOneFill(day, orders, t, before, s[|s| - 1]);
    FillsUntilExtends(before.fills, Replay(day, orders, t, b, s).fills, s[|s| - 1].end, cutoff);
  }

  /** Events that end by the cutoff only add fills that end by it. */
  lemma {:induction false} EarlyEventsAddEarlyFills(
    day: int, orders: Orders, t: Terms, b: Book, s: seq<Event>, cutoff: int)
    requires Indexed(orders, s) && |b.done| == |b.reasons| == |orders| && b.fills == []
    requires forall j :: 0 <= j < |s| ==> s[j].end == s[j].window.end <= cutoff
    ensures FillsUntil(Replay(day, orders, t, b, s).fills, cutoff) == Replay(day, orders, t, b, s).fills
  {
    if s != [] {
      EarlyEventsAddEarlyFills(day, orders, t, b, s[..|s| - 1], cutoff);
      LastEventExtends(day, orders, t, b, s, cutoff);
    }
  }

  /** Events that end after the cutoff add no fill that ends by it. */
  lemma {:induction false} LaterEventsAddLaterFills(
    day: int, orders: Orders, t: Terms, b: Book, s: seq<Event>, k: nat, cutoff: int)
    requires Indexed(orders, s) && |b.done| == |b.reasons| == |orders| && k <= |s| && b.fills == []
    requires forall j :: 0 <= j < |s| ==> s[j].end == s[j].window.end
    requires forall j :: 0 <= j < k ==> s[j].end <= cutoff
    requires forall j :: k <= j < |s| ==> cutoff < s[j].end
    ensures Replay(day, orders, t, b, s[..k]).fills <= Replay(day, orders, t, b, s).fills
    ensures FillsUntil(Replay(day, orders, t, b, s).fills, cutoff) == Replay(day, orders, t, b, s[..k]).fills
  {
    if k == |s| {
      assert s[..k] == s;
      EarlyEventsAddEarlyFills(day, orders, t, b, s, cutoff);
    } else {
      LaterEventsAddLaterFills(day, orders, t, b, s[..|s| - 1], k, cutoff);
      assert s[..|s| - 1][..k] == s[..k];
      LastEventExtends(day, orders, t, b, s, cutoff);
    }
  }

  /**
   No lookahead: a session replayed on only the windows that are complete by the cutoff makes exactly
   the fills of the full session whose windows end by then, in the same order, and its cash and
   positions are what those fills alone leave.
   */
  lemma NoLookahead(day: int, orders: Orders, windows: WindowBook, cash: real, held: map<string, int>, t: Terms,
                    cutoff: int)
    requires Admissible(day, orders, windows)
    ensures Admissible(day, orders, Completed(windows, cutoff))
    ensures var full := Match(day, orders, windows, cash, held, t);
            var cut := Match(day, orders, Completed(windows, cutoff), cash, held, t);
            && cut.fills <= full.fills
            && cut.fills == FillsUntil(full.fills, cutoff)
            && cut.cash == cash + CashFlow(FillsUntil(full.fills, cutoff))
            && forall s :: Lots(cut.held, s) == Lots(held, s) + NetLots(FillsUntil(full.fills, cutoff), s)
  {
    var s := Schedule(orders, windows);
    var k := CompletedScheduleIsAPrefix(day, orders, windows, cutoff);
    ScheduleIsIndexed(day, orders, windows);
    ScheduleIsUnique(day, orders, windows);
    assert forall j :: 0 <= j < |s| ==> s[j] in s;
    LaterEventsAddLaterFills(day, orders, t, Opening(orders, cash, held), s, k, cutoff);
    Conservation(day, orders, Completed(windows, cutoff), cash, held, t);
  }

  /** Two futures that agree up to the cutoff produce the same fills up to it. */
  lemma TheFutureIsIrrelevant(day: int, orders: Orders, one: WindowBook, other: WindowBook, cash: real,
                              held: map<string, int>, t: Terms, cutoff: int)
    requires Admissible(day, orders, one) && Admissible(day, orders, other)
    requires Completed(one, cutoff) == Completed(other, cutoff)
    ensures FillsUntil(Match(day, orders, one, cash, held, t).fills, cutoff) ==
            FillsUntil(Match(day, orders, other, cash, held, t).fills, cutoff)
  {
    NoLookahead(day, orders, one, cash, held, t, cutoff);
    NoLookahead(day, orders, other, cash, held, t, cutoff);
  }
}
