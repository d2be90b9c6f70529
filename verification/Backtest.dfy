/**
 The day loop of `run_backtest` (src/moex_bot/backtest.py): financing, matching of the pending plan,
 marking to market and the next plan, and the attribution of the result to securities.

 The planning harness is an oracle: whatever orders it returns for a day are an input of that day.
 */
module Backtest {
  import opened Domain
  import opened Sums
  import opened Matcher
  import opened MatcherTheorems
  import opened MatcherLoop
  import Drawdown

  datatype SettingsData = SettingsData(
    initialCash: real, commissionRate: real, halfSpreadBps: real, slippageBps: real,
    shortFinancingRate: real, participation: real, arrivalDelay: int, oosStart: int)

  type Settings = s: SettingsData |
      0.0 < s.initialCash && 0.0 <= s.commissionRate && 0.0 <= s.halfSpreadBps && 0.0 <= s.slippageBps &&
      0.0 <= s.shortFinancingRate && 0.0 < s.participation <= 1.0 && 0 <= s.arrivalDelay <= 86400
    witness SettingsData(1.0, 0.0, 0.0, 0.0, 0.0, 1.0, 0, 0)

  datatype ConfigData = ConfigData(
    settings: Settings, reserveWeight: real, costMultiplier: real,
    universe: map<string, Instrument>, firstDecision: Option<int>)

  type Config = c: ConfigData | 0.0 <= c.reserveWeight <= 1.0 && 0.0 < c.costMultiplier
    witness ConfigData(SettingsData(1.0, 0.0, 0.0, 0.0, 0.0, 1.0, 0, 0), 0.0, 1.0, map[], None)

  /** One trading date: its candles, its execution windows, and what the harness decides on it. */
  datatype DayInput = DayInput(
    date: int, rows: map<string, Candle>, windows: Option<WindowBook>, ready: bool, orders: Orders)

  datatype Point = Point(date: int, equity: real)

  datatype State = State(
    cash: real, positions: map<string, int>, pending: Orders, trades: seq<Trade>, outcomes: seq<Outcome>,
    points: seq<Point>, started: bool, closes: map<string, real>, financing: seq<real>, previous: Option<int>)

  datatype Report = Report(
    startEquity: real, endEquity: real, drawdown: real, oosDrawdown: real, shortFinancing: real,
    securityPnl: map<string, real>,
    trades: seq<Trade>, outcomes: seq<Outcome>)

  function TermsOf(c: Config): Terms {
    var s := c.settings;
    var reserve := s.initialCash * c.reserveWeight;
    var impact := (s.halfSpreadBps + s.slippageBps) * c.costMultiplier / 10000.0;
    var commission := s.commissionRate * c.costMultiplier;
    assert 0.0 <= reserve;
    assert 0.0 <= (s.halfSpreadBps + s.slippageBps) * c.costMultiplier;
    assert 0.0 <= commission;
    TermsData(reserve, impact, commission, s.participation, s.arrivalDelay)
  }

  /** Without sub-session windows the whole day is one window. */
  function WindowsOfDay(d: DayInput): WindowBook {
    match d.windows
    case Some(book) => book
    case None => map secid | secid in d.rows :: [WindowData(0, 86400, d.rows[secid])]
  }

  function LotSize(c: Config, secid: string): int {
    if secid in c.universe then c.universe[secid].lotSize else 0
  }

  function Value(c: Config, secid: string, lots: int, close: real): real {
    (lots * LotSize(c, secid)) as real * close
  }

  /** The marked value of each position that has a close. */
  function Marks(c: Config, positions: map<string, int>, closes: map<string, real>): map<string, real> {
    map s | s in positions && s in closes :: Value(c, s, positions[s], closes[s])
  }

  function ShortCost(c: Config, secid: string, lots: int, close: real, days: int): real {
    AbsInt(lots * LotSize(c, secid)) as real * close * c.settings.shortFinancingRate * c.costMultiplier
    * days as real / 365.0
  }

  function ShortCosts(c: Config, positions: map<string, int>, closes: map<string, real>, days: int): map<string, real> {
    map s | s in positions && positions[s] < 0 && s in closes :: ShortCost(c, s, positions[s], closes[s], days)
  }

  function Closes(closes: map<string, real>, rows: map<string, Candle>): map<string, real> {
    closes + map s | s in rows :: rows[s].close
  }

  const OPENING_STATE: State := State(0.0, map[], [], [], [], [], false, map[], [], None)

  function Opened(c: Config): State {
    OPENING_STATE.(cash := c.settings.initialCash)
  }

  ghost function ChargeFinancing(c: Config, s: State, d: DayInput): State {
    match s.previous
    case None => s
    case Some(previous) =>
      var cost := Total(ShortCosts(c, s.positions, s.closes, d.date - previous));
      s.(cash := s.cash - cost, financing := s.financing + [cost])
  }

  predicate WarmUp(c: Config, d: DayInput) {
    c.firstDecision.Some? && d.date < c.firstDecision.value
  }

  function AfterMatch(s: State, d: DayInput, m: Session): State {
    s.(cash := m.cash, positions := m.held, trades := s.trades + m.fills, outcomes := s.outcomes + m.outcomes,
    closes := Closes(s.closes, d.rows), started := s.started || d.ready)
  }

  ghost function Mark(c: Config, s: State, d: DayInput): State {
    if !s.started then s
    else s.(points := s.points + [Point(d.date, s.cash + Total(Marks(c, s.positions, s.closes)))])
  }

  /** The snapshot given to the harness refuses negative cash. */
  function Plan(s: State, d: DayInput): Result<State> {
    if !d.ready then Ok(s.(pending := []))
    else if s.cash < 0.0 then Err("portfolio cash values cannot be negative")
    else Ok(s.(pending := d.orders, previous := Some(d.date)))
  }

  ghost function DayStep(c: Config, s: State, d: DayInput): Result<State> {
    var charged := ChargeFinancing(c, s, d);
    if WarmUp(c, d) then Ok(charged)
    else if !Admissible(d.date, charged.pending, WindowsOfDay(d)) then Err("match_session")
    else
      var m := Match(d.date, charged.pending, WindowsOfDay(d), charged.cash, charged.positions, TermsOf(c));
      Plan(Mark(c, AfterMatch(charged, d, m), d), d)
  }

  ghost function Run(c: Config, days: seq<DayInput>): Result<State> {
    if days == [] then Ok(Opened(c))
    else
      var before := Run(c, days[..|days| - 1]);
      if before.Err? then before else DayStep(c, before.value, days[|days| - 1])
  }

  function RealSum(xs: seq<real>): real {
    if xs == [] then 0.0 else RealSum(xs[..|xs| - 1]) + xs[|xs| - 1]
  }

  // ---------------------------------------------------------------- attribution

  function FlowOf(trades: seq<Trade>, secid: string): real {
    if trades == [] then 0.0
    else
      var f := trades[|trades| - 1];
      FlowOf(trades[..|trades| - 1], secid)
      + if f.secid != secid then 0.0 else if f.side == Buy then -(f.gross + f.commission) else f.gross - f.commission
  }

  function TradedPnl(trades: seq<Trade>): map<string, real> {
    if trades == [] then map[]
    else
      var f := trades[|trades| - 1];
      var pnl := TradedPnl(trades[..|trades| - 1]);
      pnl[f.secid := At(pnl, f.secid) + Flow(f)]
  }

  /** Profit and loss of one security: its trade flows and the mark of what is still held. */
  ghost predicate IsSecurityPnl(c: Config, s: State, pnl: map<string, real>) {
    && (forall secid :: At(pnl, secid) == FlowOf(s.trades, secid) + At(Marks(c, s.positions, s.closes), secid))
    && (forall secid :: secid in pnl <==>
                        || (secid in s.positions && secid in s.closes)
                        || exists f :: f in s.trades && f.secid == secid)
  }

  lemma {:induction false} TradedPnlTotal(trades: seq<Trade>)
    ensures Total(TradedPnl(trades)) == CashFlow(trades)
  {
    if trades == [] {
      assert Total(map[]) == 0.0;
    } else {
      var n := |trades| - 1;
      TradedPnlTotal(trades[..n]);
      var pnl := TradedPnl(trades[..n]);
      TotalUpdate(pnl, trades[n].secid, At(pnl, trades[n].secid) + Flow(trades[n]));
    }
  }

  lemma {:induction false} TradedPnlIsFlow(trades: seq<Trade>, secid: string)
    ensures At(TradedPnl(trades), secid) == FlowOf(trades, secid)
    ensures secid in TradedPnl(trades) <==> exists f :: f in trades && f.secid == secid
  {
    if trades != [] {
      var n := |trades| - 1;
      TradedPnlIsFlow(trades[..n], secid);
      assert trades == trades[..n] + [trades[n]];
      assert forall f :: f in trades <==> f in trades[..n] || f == trades[n];
    }
  }

  lemma SecurityPnlTotal(c: Config, s: State, pnl: map<string, real>)
    requires IsSecurityPnl(c, s, pnl)
    ensures Total(pnl) == CashFlow(s.trades) + Total(Marks(c, s.positions, s.closes))
  {
    TradedPnlTotal(s.trades);
    forall secid ensures At(pnl, secid) == At(TradedPnl(s.trades), secid) + At(Marks(c, s.positions, s.closes), secid) {
      TradedPnlIsFlow(s.trades, secid);
    }
    TotalOfSums(TradedPnl(s.trades), Marks(c, s.positions, s.closes), pnl);
  }

  // ---------------------------------------------------------------- what every day keeps

  ghost predicate Ledger(c: Config, s: State) {
    && s.cash == c.settings.initialCash + CashFlow(s.trades) - RealSum(s.financing)
    && (forall secid :: Lots(s.positions, secid) == NetLots(s.trades, secid))
    && (!s.started ==>
          && s.cash == c.settings.initialCash && s.positions == map[] && s.pending == [] && s.trades == []
          && s.points == [] && s.previous == None && s.financing == [])
    && (s.started ==>
          && s.points != []
          && s.points[0].equity == c.settings.initialCash)
  }

  /** The last equity point marks the current books. */
  ghost predicate Marked(c: Config, s: State) {
    s.started ==>
      s.points != [] && s.points[|s.points| - 1].equity == s.cash + Total(Marks(c, s.positions, s.closes))
  }

  lemma {:induction false} CashFlowAppend(a: seq<Trade>, b: seq<Trade>)
    ensures CashFlow(a + b) == CashFlow(a) + CashFlow(b)
    ensures forall secid :: NetLots(a + b, secid) == NetLots(a, secid) + NetLots(b, secid)
  {
    if b == [] {
      assert a + b == a;
    } else {
      var n := |b| - 1;
      CashFlowAppend(a, b[..n]);
      assert (a + b)[..|a| + n] == a + b[..n];
    }
  }

  lemma RealSumAppend(xs: seq<real>, x: real)
    ensures RealSum(xs + [x]) == RealSum(xs) + x
  {
    assert (xs + [x])[..|xs|] == xs;
  }

  /** A session without orders changes nothing. */
  lemma EmptyPlan(day: int, windows: WindowBook, cash: real, held: map<string, int>, t: Terms)
    ensures Admissible(day, [], windows)
    ensures Match(day, [], windows, cash, held, t) == Session(cash, held, [], [])
  {
    assert Schedule([], windows) == [];
  }

  lemma MatchKeepsLedger(c: Config, s: State, d: DayInput)
    requires Ledger(c, s) && Admissible(d.date, s.pending, WindowsOfDay(d))
    ensures var m := Match(d.date, s.pending, WindowsOfDay(d), s.cash, s.positions, TermsOf(c));
            var r := AfterMatch(s, d, m);
            && r.cash == c.settings.initialCash + CashFlow(r.trades) - RealSum(r.financing)
            && (forall secid :: Lots(r.positions, secid) == NetLots(r.trades, secid))
            && (!s.started ==> r.cash == s.cash && r.positions == map[] && r.trades == [])
  {
    var m := Match(d.date, s.pending, WindowsOfDay(d), s.cash, s.positions, TermsOf(c));
    Conservation(d.date, s.pending, WindowsOfDay(d), s.cash, s.positions, TermsOf(c));
    CashFlowAppend(s.trades, m.fills);
    if !s.started {
      EmptyPlan(d.date, WindowsOfDay(d), s.cash, s.positions, TermsOf(c));
    }
  }

  lemma FinancingKeepsLedger(c: Config, s: State, d: DayInput)
    requires Ledger(c, s)
    ensures Ledger(c, ChargeFinancing(c, s, d))
  {
    if s.previous.Some? {
      RealSumAppend(s.financing, Total(ShortCosts(c, s.positions, s.closes, d.date - s.previous.value)));
    }
  }

  lemma DayKeepsLedger(c: Config, s: State, d: DayInput)
    requires Ledger(c, s) && Marked(c, s) && (s.started ==> !WarmUp(c, d))
    requires DayStep(c, s, d).Ok?
    ensures Ledger(c, DayStep(c, s, d).value) && Marked(c, DayStep(c, s, d).value)
  {
    FinancingKeepsLedger(c, s, d);
    var charged := ChargeFinancing(c, s, d);
    if !WarmUp(c, d) {
      MatchKeepsLedger(c, charged, d);
      if !s.started && d.ready {
        assert Marks(c, map[], Closes(s.closes, d.rows)) == map[];
        assert Total(map[]) == 0.0;
      }
    }
  }

  predicate Ascending(days: seq<DayInput>) {
    forall i, j :: 0 <= i < j < |days| ==> days[i].date < days[j].date
  }

  lemma {:induction false} RunKeepsLedger(c: Config, days: seq<DayInput>)
    requires Ascending(days) && Run(c, days).Ok?
    ensures Ledger(c, Run(c, days).value) && Marked(c, Run(c, days).value)
    ensures Run(c, days).value.started ==> exists i :: 0 <= i < |days| && !WarmUp(c, days[i])
  {
    if days != [] {
      var n := |days| - 1;
      RunKeepsLedger(c, days[..n]);
      var s := Run(c, days[..n]).value;
      if s.started {
        var i :| 0 <= i < n && !WarmUp(c, days[..n][i]);
        assert days[i].date < days[n].date;
        assert !WarmUp(c, days[i]);
      }
      DayKeepsLedger(c, s, days[n]);
      if Run(c, days).value.started && !s.started {
        assert !WarmUp(c, days[n]);
      }
    }
  }

  /**
   The attribution identity: on every completed run the equity curve starts at the initial cash, every
   position is the net of its trades, and the profits of the securities add up to the change of equity
   before short financing.
   */
  lemma AttributionIdentity(c: Config, days: seq<DayInput>, pnl: map<string, real>)
    requires Ascending(days) && Run(c, days).Ok? && Run(c, days).value.started
    requires IsSecurityPnl(c, Run(c, days).value, pnl)
    ensures var s := Run(c, days).value;
            && s.points != []
            && s.points[0].equity == c.settings.initialCash
            && Total(pnl) == s.points[|s.points| - 1].equity - c.settings.initialCash + RealSum(s.financing)
            && forall secid :: Lots(s.positions, secid) == NetLots(s.trades, secid)
  {
    RunKeepsLedger(c, days);
    SecurityPnlTotal(c, Run(c, days).value, pnl);
  }

  // ---------------------------------------------------------------- the loops

  method SecurityPnl(c: Config, s: State) returns (pnl: map<string, real>)
    ensures IsSecurityPnl(c, s, pnl)
  {
    pnl := map[];
    for k := 0 to |s.trades|
      invariant pnl == TradedPnl(s.trades[..k])
    {
      var trade := s.trades[k];
      assert s.trades[..k + 1][..k] == s.trades[..k];
      var direction := if trade.side == Buy then -1.0 else 1.0;
      pnl := pnl[trade.secid := At(pnl, trade.secid) + direction * trade.gross];
      pnl := pnl[trade.secid := pnl[trade.secid] - trade.commission];
    }
    assert s.trades[..|s.trades|] == s.trades;
    forall secid
      ensures At(pnl, secid) == FlowOf(s.trades, secid)
      ensures secid in pnl <==> exists f :: f in s.trades && f.secid == secid
    {
      TradedPnlIsFlow(s.trades, secid);
    }
    ghost var traded := pnl;
    var rest := s.positions.Keys;
    ghost var marks := Marks(c, s.positions, s.closes);
    while rest != {}
      invariant rest <= s.positions.Keys
      invariant forall k :: At(pnl, k) == At(traded, k) + if k in rest then 0.0 else At(marks, k)
      invariant forall k :: k in pnl <==> k in traded || (k in marks && k !in rest)
      decreases rest
    {
      var secid :| secid in rest;
      if secid in s.closes {
        pnl := pnl[secid := At(pnl, secid) + Value(c, secid, s.positions[secid], s.closes[secid])];
      }
      rest := rest - {secid};
    }
  }

  method RunDays(c: Config, days: seq<DayInput>) returns (r: Result<State>)
    ensures r.Ok? <==> Run(c, days).Ok?
    ensures r.Ok? ==> r == Run(c, days)
  {
    var s := Opened(c);
    for k := 0 to |days|
      invariant Run(c, days[..k]) == Ok(s)
    {
      assert days[..k + 1][..k] == days[..k];
      var stepped := TradingDay(c, s, days[k]);
      if stepped.Err? {
        RunStaysFailed(c, days, k + 1);
        return stepped;
      }
      s := stepped.value;
    }
    assert days[..|days|] == days;
    return Ok(s);
  }

  method TotalFinancing(costs: seq<real>) returns (financing: real)
    ensures financing == RealSum(costs)
  {
    financing := 0.0;
    for k := 0 to |costs|
      invariant financing == RealSum(costs[..k])
    {
      assert costs[..k + 1][..k] == costs[..k];
      financing := financing + costs[k];
    }
    assert costs[..|costs|] == costs;
  }

  function Equities(points: seq<Point>): seq<real> {
    seq(|points|, i requires 0 <= i < |points| => points[i].equity)
  }

  /** The points from the out-of-sample start on. */
  function OutOfSample(points: seq<Point>, start: int): seq<Point> {
    if points == [] then []
    else
      var last := points[|points| - 1];
      OutOfSample(points[..|points| - 1], start) + if start <= last.date then [last] else []
  }

  /** Two points in and out of sample, and no return from an equity of zero. */
  predicate Measurable(points: seq<Point>, oosStart: int) {
    && 2 <= |points| && 2 <= |OutOfSample(points, oosStart)|
    && forall i :: 0 <= i < |points| - 1 ==> points[i].equity != 0.0
  }

  /** The daily returns divide by every point but the last. */
  method ReturnsExist(points: seq<Point>) returns (ok: bool)
    ensures ok <==> forall i :: 0 <= i < |points| - 1 ==> points[i].equity != 0.0
  {
    for k := 0 to |points|
      invariant forall i :: 0 <= i < k && i < |points| - 1 ==> points[i].equity != 0.0
    {
      if k < |points| - 1 && points[k].equity == 0.0 {
        return false;
      }
    }
    return true;
  }

  method SelectOutOfSample(points: seq<Point>, start: int) returns (oos: seq<Point>)
    ensures oos == OutOfSample(points, start)
  {
    oos := [];
    for k := 0 to |points|
      invariant oos == OutOfSample(points[..k], start)
    {
      assert points[..k + 1][..k] == points[..k];
      if start <= points[k].date {
        oos := oos + [points[k]];
      }
    }
    assert points[..|points|] == points;
  }

  /** Drawdowns in and out of sample, when the metrics can be computed at all. */
  method Measure(points: seq<Point>, oosStart: int) returns (r: Result<(real, real)>)
    ensures r.Ok? <==> Measurable(points, oosStart)
    ensures r.Ok? ==> r.value == (Drawdown.DrawdownOf(Equities(points)),
                                  Drawdown.DrawdownOf(Equities(OutOfSample(points, oosStart))))
  {
    if |points| < 2 {
      return Err("backtest produced fewer than two equity points");
    }
    var ok := ReturnsExist(points);
    if !ok {
      return Err("division by zero");
    }
    var drawdown := Drawdown.MaxDrawdown(Equities(points));
    var oos := SelectOutOfSample(points, oosStart);
    if |oos| < 2 {
      return Err("backtest produced fewer than two OOS equity points");
    }
    var oosDrawdown := Drawdown.MaxDrawdown(Equities(oos));
    return Ok((drawdown, oosDrawdown));
  }

  method RunBacktest(c: Config, days: seq<DayInput>) returns (r: Result<Report>)
    requires Ascending(days)
    ensures r.Ok? <==> Run(c, days).Ok? && Measurable(Run(c, days).value.points, c.settings.oosStart)
    ensures r.Ok? ==>
              && r.value.drawdown == Drawdown.DrawdownOf(Equities(Run(c, days).value.points))
              && r.value.oosDrawdown ==
                 Drawdown.DrawdownOf(Equities(OutOfSample(Run(c, days).value.points, c.settings.oosStart)))
    ensures r.Ok? ==>
              && r.value.startEquity == c.settings.initialCash
              && Total(r.value.securityPnl) == r.value.endEquity - c.settings.initialCash + r.value.shortFinancing
              && r.value.trades == Run(c, days).value.trades && r.value.outcomes == Run(c, days).value.outcomes
              && IsSecurityPnl(c, Run(c, days).value, r.value.securityPnl)
  {
    var ran := RunDays(c, days);
    if ran.Err? {
      return Err(ran.error);
    }
    var s := ran.value;
    var measured := Measure(s.points, c.settings.oosStart);
    if measured.Err? {
      return Err(measured.error);
    }
    var pnl := SecurityPnl(c, s);
    RunKeepsLedger(c, days);
    AttributionIdentity(c, days, pnl);
    var financing := TotalFinancing(s.financing);
    return Ok(Report(s.points[0].equity, s.points[|s.points| - 1].equity, measured.value.0, measured.value.1, financing,
                     pnl, s.trades, s.outcomes));
  }

  lemma {:induction false} RunStaysFailed(c: Config, days: seq<DayInput>, k: nat)
    requires k <= |days| && Run(c, days[..k]).Err?
    ensures Run(c, days).Err?
    decreases |days| - k
  {
    if k == |days| {
      assert days[..k] == days;
    } else {
      assert days[..k + 1][..k] == days[..k];
      RunStaysFailed(c, days, k + 1);
    }
  }

  method TradingDay(c: Config, s: State, d: DayInput) returns (r: Result<State>)
    ensures r.Ok? <==> DayStep(c, s, d).Ok?
    ensures r.Ok? ==> r == DayStep(c, s, d)
  {
    var state := Finance(c, s, d);
    if WarmUp(c, d) {
      return Ok(state);
    }
    var matched := ExecutePending(c, state, d);
    if matched.Err? {
      return matched;
    }
    r := MarkAndPlan(c, matched.value, d);
  }

  method Finance(c: Config, s: State, d: DayInput) returns (r: State)
    ensures r == ChargeFinancing(c, s, d)
  {
    r := s;
    if s.previous.Some? {
      var financing := Sum(ShortCosts(c, s.positions, s.closes, d.date - s.previous.value));
      r := r.(cash := r.cash - financing, financing := r.financing + [financing]);
    }
  }

  method ExecutePending(c: Config, s: State, d: DayInput) returns (r: Result<State>)
    ensures r.Ok? <==> Admissible(d.date, s.pending, WindowsOfDay(d))
    ensures r.Ok? ==>
              r.value == AfterMatch(
                           s, d, Match(d.date, s.pending, WindowsOfDay(d), s.cash, s.positions, TermsOf(c)))
  {
    var matched := MatchSession(d.date, s.pending, WindowsOfDay(d), s.cash, s.positions, TermsOf(c));
    if matched.Err? {
      return Err(matched.error);
    }
    var m := matched.value;
    var state := s.(cash := m.cash, positions := m.held, trades := s.trades + m.fills,
    outcomes := s.outcomes + m.outcomes, closes := Closes(s.closes, d.rows));
    if d.ready {
      state := state.(started := true);
    }
    return Ok(state);
  }

  method MarkAndPlan(c: Config, s: State, d: DayInput) returns (r: Result<State>)
    ensures r.Ok? <==> Plan(Mark(c, s, d), d).Ok?
    ensures r.Ok? ==> r == Plan(Mark(c, s, d), d)
  {
    var state := s;
    if state.started {
      var marked := Sum(Marks(c, state.positions, state.closes));
      state := state.(points := state.points + [Point(d.date, state.cash + marked)]);
    }
    if !d.ready {
      return Ok(state.(pending := []));
    }
    if state.cash < 0.0 {
      return Err("portfolio cash values cannot be negative");
    }
    return Ok(state.(pending := d.orders, previous := Some(d.date)));
  }
}
