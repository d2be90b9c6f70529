/**
 One day of the backtest in the terms of its inputs: what shorts cost, which terms the matcher gets, what the
 books are worth, and what the day leaves for the next one.
 */
module BacktestRules {
  import opened Domain
  import opened Sums
  import opened Matcher
  import opened Backtest

  // ---------------------------------------------------------------- money

  function UnitsOf(c: Config, secid: string, lots: int): int {
    if secid in c.universe then lots * c.universe[secid].lotSize else 0
  }

  /** The interest on a value at a yearly rate. */
  function Interest(value: real, rate: real, days: int): real {
    value * rate * (days as real / 365.0)
  }

  /** What the short position in a security costs over so many days. */
  function OwedOn(c: Config, positions: map<string, int>, closes: map<string, real>, days: int, secid: string): real {
    if secid in positions && secid in closes && positions[secid] < 0 then
      Interest(UnitsOf(c, secid, -positions[secid]) as real * closes[secid],
               c.settings.shortFinancingRate * c.costMultiplier, days)
    else 0.0
  }

  /** The cost is the sum of what each short position costs. */
  ghost predicate IsFinancing(c: Config, positions: map<string, int>, closes: map<string, real>, days: int, cost: real) {
    exists costs: map<string, real> ::
      cost == Total(costs) && forall secid :: At(costs, secid) == OwedOn(c, positions, closes, days, secid)
  }

  /** What the position in a security is worth at its last close. */
  function WorthOf(c: Config, positions: map<string, int>, closes: map<string, real>, secid: string): real {
    if secid in positions && secid in closes then UnitsOf(c, secid, positions[secid]) as real * closes[secid] else 0.0
  }

  ghost predicate IsWorth(c: Config, positions: map<string, int>, closes: map<string, real>, worth: real) {
    exists values: map<string, real> ::
      worth == Total(values) && forall secid :: At(values, secid) == WorthOf(c, positions, closes, secid)
  }

  lemma ShortCostMeans(c: Config, secid: string, lots: int, close: real, days: int)
    requires lots < 0
    ensures ShortCost(c, secid, lots, close, days) ==
            Interest(UnitsOf(c, secid, -lots) as real * close, c.settings.shortFinancingRate * c.costMultiplier, days)
  {
    var size := LotSize(c, secid);
    assert lots * size <= 0 && -lots * size == -(lots * size);
    var value := (-lots * size) as real * close;
    InterestMeans(value, c.settings.shortFinancingRate, c.costMultiplier, days as real);
  }

  lemma InterestMeans(value: real, rate: real, multiplier: real, n: real)
    ensures value * rate * multiplier * n / 365.0 == value * (rate * multiplier) * (n / 365.0)
  {
    assert value * rate * multiplier == value * (rate * multiplier);
  }

  lemma FinancingMeans(c: Config, positions: map<string, int>, closes: map<string, real>, days: int)
    ensures IsFinancing(c, positions, closes, days, Total(ShortCosts(c, positions, closes, days)))
  {
    var costs := ShortCosts(c, positions, closes, days);
    forall secid ensures At(costs, secid) == OwedOn(c, positions, closes, days, secid) {
      if secid in costs {
        ShortCostMeans(c, secid, positions[secid], closes[secid], days);
      }
    }
  }

  /** There is only one such cost. */
  lemma FinancingIsUnique(c: Config, positions: map<string, int>, closes: map<string, real>, days: int, x: real, y: real)
    requires IsFinancing(c, positions, closes, days, x) && IsFinancing(c, positions, closes, days, y)
    ensures x == y
  {
    var a: map<string, real> :| x == Total(a) && forall secid :: At(a, secid) == OwedOn(c, positions, closes, days, secid);
    var b: map<string, real> :| y == Total(b) && forall secid :: At(b, secid) == OwedOn(c, positions, closes, days, secid);
    TotalIsExtensional(a, b);
  }

  lemma WorthMeans(c: Config, positions: map<string, int>, closes: map<string, real>)
    ensures IsWorth(c, positions, closes, Total(Marks(c, positions, closes)))
  {
    var values := Marks(c, positions, closes);
    assert forall secid :: At(values, secid) == WorthOf(c, positions, closes, secid);
  }

  /** A day without shorts costs nothing. */
  lemma WithoutShortsNothingIsOwed(c: Config, positions: map<string, int>, closes: map<string, real>, days: int, cost: real)
    requires IsFinancing(c, positions, closes, days, cost)
    requires forall secid :: secid in positions ==> positions[secid] >= 0
    ensures cost == 0.0
  {
    var costs: map<string, real> :|
      cost == Total(costs) && forall secid :: At(costs, secid) == OwedOn(c, positions, closes, days, secid);
    TotalIsExtensional(costs, map[]);
  }

  /** Two spans of days together cost what they cost one after the other. */
  lemma FinancingAddsUp(c: Config, positions: map<string, int>, closes: map<string, real>, m: int, n: int, x: real, y: real)
    requires IsFinancing(c, positions, closes, m, x) && IsFinancing(c, positions, closes, n, y)
    ensures IsFinancing(c, positions, closes, m + n, x + y)
  {
    FinancingMeans(c, positions, closes, m);
    FinancingMeans(c, positions, closes, n);
    FinancingMeans(c, positions, closes, m + n);
    FinancingIsUnique(c, positions, closes, m, x, Total(ShortCosts(c, positions, closes, m)));
    FinancingIsUnique(c, positions, closes, n, y, Total(ShortCosts(c, positions, closes, n)));
    var a, b := ShortCosts(c, positions, closes, m), ShortCosts(c, positions, closes, n);
    var both := ShortCosts(c, positions, closes, m + n);
    forall secid ensures At(both, secid) == At(a, secid) + At(b, secid) {
      if secid in both {
        SpansAddUp(c, secid, positions[secid], closes[secid], m, n);
      }
    }
    TotalOfSums(a, b, both);
  }

  lemma SpansAddUp(c: Config, secid: string, lots: int, close: real, m: int, n: int)
    requires lots < 0
    ensures ShortCost(c, secid, lots, close, m + n) == ShortCost(c, secid, lots, close, m) + ShortCost(c, secid, lots, close, n)
  {
    ShortCostMeans(c, secid, lots, close, m);
    ShortCostMeans(c, secid, lots, close, n);
    ShortCostMeans(c, secid, lots, close, m + n);
    InterestAddsUp(UnitsOf(c, secid, -lots) as real * close, c.settings.shortFinancingRate * c.costMultiplier, m, n);
  }

  lemma InterestAddsUp(value: real, rate: real, m: int, n: int)
    ensures Interest(value, rate, m + n) == Interest(value, rate, m) + Interest(value, rate, n)
  {
    var base := value * rate;
    assert (m + n) as real / 365.0 == m as real / 365.0 + n as real / 365.0;
    assert base * (m as real / 365.0 + n as real / 365.0) == base * (m as real / 365.0) + base * (n as real / 365.0);
  }

  // ---------------------------------------------------------------- the terms

  /** What the matcher is told: the reserve, half spread and slippage in basis points, the rates with their multiplier. */
  predicate AreTerms(c: Config, t: Terms) {
    && t.reserve == c.settings.initialCash * c.reserveWeight
    && t.impact * 10000.0 == c.settings.halfSpreadBps * c.costMultiplier + c.settings.slippageBps * c.costMultiplier
    && t.commission == c.costMultiplier * c.settings.commissionRate
    && t.participation == c.settings.participation && t.latency == c.settings.arrivalDelay
  }

  lemma TermsIff(c: Config, t: Terms)
    ensures AreTerms(c, t) <==> t == TermsOf(c)
  {
    var s := c.settings;
    ImpactMeans(t.impact, s.halfSpreadBps, s.slippageBps, c.costMultiplier);
  }

  lemma ImpactMeans(impact: real, halfSpread: real, slippage: real, multiplier: real)
    ensures impact * 10000.0 == halfSpread * multiplier + slippage * multiplier <==>
            impact == (halfSpread + slippage) * multiplier / 10000.0
  {
    assert (halfSpread + slippage) * multiplier == halfSpread * multiplier + slippage * multiplier;
  }

  // ---------------------------------------------------------------- a day

  /** The state after financing: charged for the days since the last decision. */
  ghost predicate IsCharged(c: Config, s: State, d: DayInput, r: State) {
    match s.previous
    case None => r == s
    case Some(previous) =>
      exists cost :: IsFinancing(c, s.positions, s.closes, d.date - previous, cost)
                     && r == s.(cash := s.cash - cost, financing := s.financing + [cost])
  }

  /** The windows of a day: those of its sub-sessions, or the whole day as one window of its candle. */
  ghost predicate AreWindows(d: DayInput, windows: WindowBook) {
    match d.windows
    case Some(book) => windows == book
    case None =>
      && windows.Keys == d.rows.Keys
      && forall secid :: secid in d.rows ==> windows[secid] == [WindowData(0, 86400, d.rows[secid])]
  }

  /** The state after the session `m`: its cash and positions, the day's closes, and a point on the curve once it has started. */
  ghost predicate IsMarked(c: Config, s: State, d: DayInput, m: Session, r: State) {
    && r.positions == m.held && r.cash == m.cash && r.financing == s.financing
    && r.trades == s.trades + m.fills && r.outcomes == s.outcomes + m.outcomes
    && r.closes.Keys == s.closes.Keys + d.rows.Keys
    && (forall secid :: secid in d.rows ==> r.closes[secid] == d.rows[secid].close)
    && (forall secid :: secid in s.closes && secid !in d.rows ==> r.closes[secid] == s.closes[secid])
    && r.started == (s.started || d.ready)
    && (if !r.started then r.points == s.points
        else exists worth :: IsWorth(c, m.held, r.closes, worth) && r.points == s.points + [Point(d.date, m.cash + worth)])
  }

  /** What the day leaves for the next one: the orders of its decision, if there was one, and its date. */
  predicate IsPlanned(s: State, d: DayInput, r: State) {
    if d.ready then r.pending == d.orders && r.previous == Some(d.date) else r.pending == [] && r.previous == s.previous
  }

  /** A day after its financing. */
  ghost predicate IsSession(c: Config, s: State, d: DayInput, r: Result<State>) {
    if c.firstDecision.Some? && d.date < c.firstDecision.value then r == Ok(s)
    else
      exists windows, t ::
        && AreWindows(d, windows) && AreTerms(c, t)
        && if !Admissible(d.date, s.pending, windows) then r.Err?
           else
             var m := Match(d.date, s.pending, windows, s.cash, s.positions, t);
             if d.ready && m.cash < 0.0 then r.Err?
             else r.Ok? && IsMarked(c, s, d, m, r.value) && IsPlanned(s, d, r.value)
  }

  ghost predicate DayIsRight(c: Config, s: State, d: DayInput, r: Result<State>) {
    exists charged :: IsCharged(c, s, d, charged) && IsSession(c, charged, d, r)
  }

  lemma ChargeIsRight(c: Config, s: State, d: DayInput)
    ensures IsCharged(c, s, d, ChargeFinancing(c, s, d))
  {
    if s.previous.Some? {
      FinancingMeans(c, s.positions, s.closes, d.date - s.previous.value);
    }
  }

  lemma MarkIsRight(c: Config, s: State, d: DayInput, m: Session)
    ensures var marked := Mark(c, AfterMatch(s, d, m), d);
            IsMarked(c, s, d, m, marked) && marked.previous == s.previous
  {
    WorthMeans(c, m.held, Closes(s.closes, d.rows));
  }

  lemma MarkedSurvivesPlanning(c: Config, s: State, d: DayInput, m: Session, r: State, pending: Orders, previous: Option<int>)
    requires IsMarked(c, s, d, m, r)
    ensures IsMarked(c, s, d, m, r.(pending := pending, previous := previous))
  {
  }

  lemma SessionIsRight(c: Config, s: State, d: DayInput)
    requires !WarmUp(c, d)
    ensures IsSession(c, s, d, if !Admissible(d.date, s.pending, WindowsOfDay(d)) then Err("match_session")
                               else Plan(Mark(c, AfterMatch(s, d, Match(d.date, s.pending, WindowsOfDay(d), s.cash, s.positions,
                                                                        TermsOf(c))), d), d))
  {
    TermsIff(c, TermsOf(c));
    assert AreWindows(d, WindowsOfDay(d));
    if Admissible(d.date, s.pending, WindowsOfDay(d)) {
      var m := Match(d.date, s.pending, WindowsOfDay(d), s.cash, s.positions, TermsOf(c));
      MarkIsRight(c, s, d, m);
      var marked := Mark(c, AfterMatch(s, d, m), d);
      MarkedSurvivesPlanning(c, s, d, m, marked, [], marked.previous);
      MarkedSurvivesPlanning(c, s, d, m, marked, d.orders, Some(d.date));
    }
  }

  /** Every day of a backtest, on the books that the days before it left. */
  lemma EveryDayIsRight(c: Config, days: seq<DayInput>, k: nat)
    requires k < |days| && Run(c, days[..k]).Ok?
    ensures Run(c, []).value == Opened(c) && Opened(c).cash == c.settings.initialCash && Opened(c).positions == map[]
    ensures DayIsRight(c, Run(c, days[..k]).value, days[k], Run(c, days[..k + 1]))
  {
    var s, d := Run(c, days[..k]).value, days[k];
    assert days[..k + 1][..k] == days[..k];
    ChargeIsRight(c, s, d);
    if !WarmUp(c, d) {
      SessionIsRight(c, ChargeFinancing(c, s, d), d);
    }
    assert IsSession(c, ChargeFinancing(c, s, d), d, Run(c, days[..k + 1]));
  }

  // ---------------------------------------------------------------- the curve

  ghost predicate InDateOrder(points: seq<Point>) {
    forall i, j :: 0 <= i < j < |points| ==> points[i].date < points[j].date
  }

  ghost predicate Until(points: seq<Point>, date: int) {
    InDateOrder(points) && forall i :: 0 <= i < |points| ==> points[i].date <= date
  }

  ghost predicate AddsPoint(before: seq<Point>, after: seq<Point>, date: int) {
    after == before || (after != [] && after[..|after| - 1] == before && after[|after| - 1].date == date)
  }

  lemma MarkAddsItsPoint(c: Config, s: State, d: DayInput)
    ensures AddsPoint(s.points, Mark(c, s, d).points, d.date)
  {
  }

  lemma DayAddsItsPoint(c: Config, s: State, d: DayInput)
    requires DayStep(c, s, d).Ok?
    ensures AddsPoint(s.points, DayStep(c, s, d).value.points, d.date)
  {
    var charged := ChargeFinancing(c, s, d);
    if !WarmUp(c, d) {
      var m := Match(d.date, charged.pending, WindowsOfDay(d), charged.cash, charged.positions, TermsOf(c));
      MarkAddsItsPoint(c, AfterMatch(charged, d, m), d);
    }
  }

  lemma OnePointLater(points: seq<Point>, next: seq<Point>, before: int, date: int)
    requires Until(points, before) && before < date
    requires AddsPoint(points, next, date)
    ensures Until(next, date)
  {
    if next != points {
      forall i | 0 <= i < |next| ensures next[i].date <= date && (i < |next| - 1 ==> next[i].date < date) {
        assert i < |next| - 1 ==> next[i] == points[i];
      }
    }
  }

  /** The points of a run are in the order of its days. */
  lemma {:induction false} CurveIsInDateOrder(c: Config, days: seq<DayInput>)
    requires Ascending(days) && Run(c, days).Ok?
    ensures if days == [] then Run(c, days).value.points == [] else Until(Run(c, days).value.points, days[|days| - 1].date)
  {
    if days != [] {
      var n := |days| - 1;
      CurveIsInDateOrder(c, days[..n]);
      var s := Run(c, days[..n]).value;
      DayAddsItsPoint(c, s, days[n]);
      OnePointLater(s.points, Run(c, days).value.points, if n == 0 then days[n].date - 1 else days[n - 1].date, days[n].date);
    }
  }

  /** How many points are before the start. */
  function CountBefore(points: seq<Point>, start: int): (k: nat)
    ensures k <= |points|
  {
    if points == [] then 0
    else CountBefore(points[..|points| - 1], start) + if points[|points| - 1].date < start then 1 else 0
  }

  lemma {:induction false} CountIsTheBoundary(points: seq<Point>, start: int)
    requires InDateOrder(points)
    ensures forall i :: 0 <= i < |points| ==> (points[i].date < start <==> i < CountBefore(points, start))
  {
    if points != [] {
      var n := |points| - 1;
      CountIsTheBoundary(points[..n], start);
      assert forall i :: 0 <= i < n ==> points[..n][i] == points[i];
      if n > 0 && points[n].date < start {
        assert points[n - 1].date < points[n].date;
      }
    }
  }

  /** Out of sample is the rest of the curve from the first point that is not before the start. */
  lemma {:induction false} OutOfSampleIsTheRest(points: seq<Point>, start: int)
    requires InDateOrder(points)
    ensures OutOfSample(points, start) == points[CountBefore(points, start)..]
  {
    if points != [] {
      var n := |points| - 1;
      OutOfSampleIsTheRest(points[..n], start);
      RestGrows(points, CountBefore(points[..n], start));
      if points[n].date < start {
        CountIsTheBoundary(points, start);
      }
    }
  }

  lemma RestGrows(points: seq<Point>, k: nat)
    requires points != [] && k <= |points| - 1
    ensures points[k..] == points[..|points| - 1][k..] + [points[|points| - 1]]
  {
  }

  /** The points from the start date on, by index. */
  ghost function IndicesFrom(points: seq<Point>, start: int): set<int> {
    set i | 0 <= i < |points| && start <= points[i].date
  }

  lemma IndicesOfLast(points: seq<Point>, start: int)
    requires points != []
    ensures var n := |points| - 1;
            IndicesFrom(points, start) == IndicesFrom(points[..n], start) + if start <= points[n].date then {n} else {}
  {
  }

  lemma {:induction false} OutOfSampleCount(points: seq<Point>, start: int)
    ensures |OutOfSample(points, start)| == |IndicesFrom(points, start)|
  {
    if points == [] {
      assert IndicesFrom(points, start) == {};
    } else {
      OutOfSampleCount(points[..|points| - 1], start);
      IndicesOfLast(points, start);
    }
  }

  /** A curve can be measured if two points are on or after the start, and no point with a next one is worth nothing. */
  lemma MeasurableIff(points: seq<Point>, start: int)
    ensures Measurable(points, start) <==>
            && |IndicesFrom(points, start)| > 1 && |points| > 1
            && !(exists i :: 0 <= i && i + 1 < |points| && points[i].equity == 0.0)
  {
    OutOfSampleCount(points, start);
  }
}
