/**
 The persistent daily budgets of the production canary. Attempts and turnover of a Moscow day are
 counted for the day of the clock but stored under the day of the snapshot, so the budgets hold for
 every run whose captures do not straddle midnight, and a capture that does can break them.
 */
module LiveBudget {
  import opened Domain
  import opened Journal
  import opened JournalTheorems
  import opened LiveLedger

  /** Capture and clock are on the same Moscow day. */
  predicate SameDay(op: LiveOp) {
    op.Ask? && op.capture.Ok? ==> MoscowDay(op.capture.value.startedAt) == MoscowDay(op.now)
  }

  predicate DayWithin(setup: Setup, rows: seq<Row>, day: int) {
    && CountOn(rows, setup.scope, day) <= MaxInt(0, setup.policy.maxOrdersPerDay)
    && TurnoverOn(rows, setup.scope, day) <= Max(0.0, setup.policy.maxDailyTurnover)
  }

  ghost predicate Within(setup: Setup, rows: seq<Row>) {
    forall day :: DayWithin(setup, rows, day)
  }

  lemma AppendCounts(rows: seq<Row>, r: Row, scope: string, day: int)
    ensures CountOn(rows + [r], scope, day) == CountOn(rows, scope, day) + if OnDay(r, scope, day) then 1 else 0
    ensures TurnoverOn(rows + [r], scope, day) ==
            TurnoverOn(rows, scope, day) + if OnDay(r, scope, day) then r.record.intent.notional else 0.0
  {
    assert (rows + [r])[..|rows|] == rows;
  }

  lemma {:induction false} UpdateCounts(a: seq<Row>, b: seq<Row>, scope: string, day: int)
    requires |a| == |b|
    requires forall i :: 0 <= i < |a| ==>
                           && a[i].account == b[i].account && a[i].snapshotAt == b[i].snapshotAt
                           && a[i].record.intent.notional == b[i].record.intent.notional
    ensures CountOn(a, scope, day) == CountOn(b, scope, day) && TurnoverOn(a, scope, day) == TurnoverOn(b, scope, day)
  {
    if a != [] {
      UpdateCounts(a[..|a| - 1], b[..|b| - 1], scope, day);
    }
  }

  /** The budget check as the caller can make it: the day of the snapshot has room for the order. */
  predicate HasRoom(setup: Setup, rows: seq<Row>, day: int, notional: real) {
    && CountOn(rows, setup.scope, day) < setup.policy.maxOrdersPerDay
    && TurnoverOn(rows, setup.scope, day) + notional <= setup.policy.maxDailyTurnover
  }

  lemma AppendStaysWithin(setup: Setup, rows: seq<Row>, r: Row)
    requires Within(setup, rows) && r.account == setup.scope
    ensures Within(setup, rows + [r]) <==> HasRoom(setup, rows, MoscowDay(r.snapshotAt), r.record.intent.notional)
  {
    var today := MoscowDay(r.snapshotAt);
    AppendCounts(rows, r, setup.scope, today);
    assert DayWithin(setup, rows, today);
    if HasRoom(setup, rows, today, r.record.intent.notional) {
      forall day ensures DayWithin(setup, rows + [r], day) {
        AppendCounts(rows, r, setup.scope, day);
        assert DayWithin(setup, rows, day);
      }
    } else {
      assert !DayWithin(setup, rows + [r], today) by {
        assert r.record.intent.notional > 0.0;
        TurnoverIsNotNegative(rows, setup.scope, today);
      }
    }
  }

  lemma {:induction false} TurnoverIsNotNegative(rows: seq<Row>, scope: string, day: int)
    ensures TurnoverOn(rows, scope, day) >= 0.0
  {
    if rows != [] {
      TurnoverIsNotNegative(rows[..|rows| - 1], scope, day);
    }
  }

  /** A granted order keeps every day within its budget exactly when the day of its snapshot has room. */
  lemma BudgetHoldsIff(setup: Setup, b: Book, op: LiveOp)
    requires LiveKept(setup, b) && Within(setup, b.rows) && op.Ask?
    requires var r := ReserveLive(setup, b, op.intent, op.permission, op.capture, op.now); r.Ok? && r.value.1.Some?
    ensures op.capture.Ok?
    ensures Within(setup, ApplyLive(setup, b, op).rows) <==>
            HasRoom(setup, b.rows, MoscowDay(op.capture.value.startedAt), op.intent.notional)
    ensures SameDay(op) ==> HasRoom(setup, b.rows, MoscowDay(op.capture.value.startedAt), op.intent.notional)
  {
    var row := AskAppends(setup, b, op);
    AppendStaysWithin(setup, b.rows, row);
    AuthorizedHasRoom(op.intent, setup, op.capture.value, b.rows, op.now);
  }

  lemma AuthorizedHasRoom(intent: OrderIntent, setup: Setup, s: LiveState, rows: seq<Row>, now: int)
    requires Authorize(intent, setup, s, rows, now).Ok?
    ensures HasRoom(setup, rows, MoscowDay(now), intent.notional)
  {
  }

  lemma SeeStaysWithin(setup: Setup, b: Book, op: LiveOp)
    requires LiveKept(setup, b) && Within(setup, b.rows) && op.See?
    ensures Within(setup, ApplyLive(setup, b, op).rows)
  {
    if Record(b, setup.scope, op.result, op.now).Ok? {
      var k := RecordChangesOneRow(b, setup.scope, op.result, op.now);
      var rows := Record(b, setup.scope, op.result, op.now).value.rows;
      assert RowOk(b.rows[k]);
      forall day ensures DayWithin(setup, rows, day) {
        assert DayWithin(setup, b.rows, day);
        UpdateCounts(b.rows, rows, setup.scope, day);
      }
    }
  }

  // ---------------------------------------------------------------- whole runs

  predicate IsGranted(setup: Setup, b: Book, op: LiveOp) {
    && op.Ask?
    && var r := ReserveLive(setup, b, op.intent, op.permission, op.capture, op.now);
       r.Ok? && r.value.1.Some?
  }

  /** At every moment of the run every day is within its budgets. */
  ghost predicate AlwaysWithin(setup: Setup, ops: seq<LiveOp>) {
    && Within(setup, RunLive(setup, ops).rows)
    && (ops != [] ==> AlwaysWithin(setup, ops[..|ops| - 1]))
  }

  /** Whenever an order is granted the day of its snapshot has room for it. */
  ghost predicate GrantsHaveRoom(setup: Setup, ops: seq<LiveOp>) {
    ops != [] ==>
      var b, op := RunLive(setup, ops[..|ops| - 1]), ops[|ops| - 1];
      && GrantsHaveRoom(setup, ops[..|ops| - 1])
      && (IsGranted(setup, b, op) && op.capture.Ok? ==>
            HasRoom(setup, b.rows, MoscowDay(op.capture.value.startedAt), op.intent.notional))
  }

  /** The daily budgets hold throughout a run if and only if every granted order finds room on its snapshot's day. */
  lemma {:induction false} BudgetsHoldThroughoutIff(setup: Setup, ops: seq<LiveOp>)
    ensures AlwaysWithin(setup, ops) <==> GrantsHaveRoom(setup, ops)
  {
    if ops != [] {
      var n := |ops| - 1;
      var b, op := RunLive(setup, ops[..n]), ops[n];
      BudgetsHoldThroughoutIff(setup, ops[..n]);
      if AlwaysWithin(setup, ops[..n]) {
        EveryLiveRunIsKept(setup, ops[..n]);
        OneMoreStaysWithinIff(setup, b, op);
      }
    }
  }

  lemma OneMoreStaysWithinIff(setup: Setup, b: Book, op: LiveOp)
    requires LiveKept(setup, b) && Within(setup, b.rows)
    ensures Within(setup, ApplyLive(setup, b, op).rows) <==>
            (IsGranted(setup, b, op) && op.capture.Ok? ==>
               HasRoom(setup, b.rows, MoscowDay(op.capture.value.startedAt), op.intent.notional))
  {
    if op.See? {
      SeeStaysWithin(setup, b, op);
    } else if IsGranted(setup, b, op) {
      BudgetHoldsIff(setup, b, op);
    } else {
      RefusedAskIsSilent(setup, b, op);
    }
  }

  /** Every day of every run stays within the attempt and turnover limits when no capture straddles midnight. */
  lemma {:induction false} DailyBudgets(setup: Setup, ops: seq<LiveOp>)
    requires forall i :: 0 <= i < |ops| ==> SameDay(ops[i])
    ensures Within(setup, RunLive(setup, ops).rows)
  {
    if ops != [] {
      var n := |ops| - 1;
      var b, op := RunLive(setup, ops[..n]), ops[n];
      DailyBudgets(setup, ops[..n]);
      EveryLiveRunIsKept(setup, ops[..n]);
      OneMoreStaysWithinIff(setup, b, op);
      if IsGranted(setup, b, op) {
        BudgetHoldsIff(setup, b, op);
      }
    }
  }

  // ---------------------------------------------------------------- a capture across midnight

  const SHARE_X: Instrument := InstrumentData("X", "uid-x", 1, 1.0, "RUB", "I", "S", "C", "share", false)
  const ONE_A_DAY: Policy := Policy({"X"}, {}, "T", 1000.0, 10000.0, 1, 100000.0, 0.1, false)
  const CANARY: Setup := Setup("prod:A", "A", ONE_A_DAY, "release")

  function BuyX(id: string): OrderIntent {
    IntentData(id, SHARE_X, Buy, 1, 100.0, 100.0, "", false, "limit")
  }

  function Market(startedAt: int): LiveState {
    LiveState("A", "T", "ACCOUNT_STATUS_OPEN", "ACCOUNT_ACCESS_LEVEL_FULL_ACCESS", startedAt, startedAt, SHARE_X, true, startedAt,
              100.0, 100.0, 1000.0, 1000.0, 0.0, 0.0, 100.0, [], 0, {})
  }

  function AskX(id: string, startedAt: int, now: int): LiveOp {
    Ask(BuyX(id), Permission("A", BuyX(id), ONE_A_DAY, "release", now, now + 300, true), Ok(Market(startedAt)), now)
  }

  /** The broker rejects the first order of the day. */
  function Rejection(id: string): OrderRecord {
    OrderRecord(BuyX(RequestIdOf(CANARY, BuyX(id))), Rejected, 0, None, "")
  }

  function RejectedRow(id: string, startedAt: int, now: int): Row {
    Row("prod:A", id, 1, RequestIdOf(CANARY, BuyX(id)), BuyX(id), id, Status(Rejected), startedAt, Some(now), Rejection(id))
  }

  lemma MarketIsAcceptable(id: string, startedAt: int)
    ensures Acceptable(BuyX(id), ONE_A_DAY, Market(startedAt)) && BookOk(BuyX(id), Market(startedAt))
    ensures Eligible(Market(startedAt), ONE_A_DAY)
  {
    TickDownIsGreatest(100.0, 1.0);
  }

  lemma MarketBuyFits(id: string, startedAt: int, rows: seq<Row>)
    requires forall uid :: uid in Uids(rows, "prod:A") ==> Owned(rows, "prod:A", uid) == 0
    ensures BuyFits(BuyX(id), ONE_A_DAY, Market(startedAt), rows, "prod:A")
  {
    NothingOwnedIsWorthNothing(Market(startedAt), rows, "prod:A", Uids(rows, "prod:A"));
  }

  lemma MarketAuthorizes(id: string, startedAt: int, now: int, rows: seq<Row>)
    requires 0 <= now - startedAt <= 10
    requires CountOn(rows, "prod:A", MoscowDay(now)) == 0 && TurnoverOn(rows, "prod:A", MoscowDay(now)) == 0.0
    requires forall uid :: uid in Uids(rows, "prod:A") ==> Owned(rows, "prod:A", uid) == 0
    ensures Authorize(BuyX(id), CANARY, Market(startedAt), rows, now).Ok?
  {
    MarketIsAcceptable(id, startedAt);
    MarketBuyFits(id, startedAt, rows);
  }

  lemma {:induction false} NothingOwnedIsWorthNothing(s: LiveState, rows: seq<Row>, scope: string, uids: seq<string>)
    requires forall uid :: uid in uids ==> Owned(rows, scope, uid) == 0
    ensures Gross(s, rows, scope, uids) == 0.0
  {
    if uids != [] {
      NothingOwnedIsWorthNothing(s, rows, scope, uids[..|uids| - 1]);
    }
  }

  lemma AskPasses(id: string, startedAt: int, now: int, rows: seq<Row>)
    requires 0 <= now - startedAt <= 10
    requires CountOn(rows, "prod:A", MoscowDay(now)) == 0 && TurnoverOn(rows, "prod:A", MoscowDay(now)) == 0.0
    requires forall uid :: uid in Uids(rows, "prod:A") ==> Owned(rows, "prod:A", uid) == 0
    ensures var op := AskX(id, startedAt, now);
            AuthorizeWith(CANARY, op.intent, op.permission, op.capture, op.now)(rows) == Ok(startedAt)
  {
    MarketAuthorizes(id, startedAt, now, rows);
  }

  /** Nothing in the journal stands in the way of the first attempt of an authorized order. */
  lemma GrantedAsk(setup: Setup, b: Book, op: LiveOp, t: int)
    requires op.Ask? && b.migration == Ready && !HasPending(b.rows, setup.scope)
    requires LastOf(b.rows, setup.scope, op.intent.orderRequestId).None?
    requires !HasRequest(b.rows, RequestIdOf(setup, op.intent))
    requires var latest := LatestOf(b.rows, setup.scope);
             latest.Some? && latest.value.completedAt.Some? ==> latest.value.completedAt.value < t
    requires AuthorizeWith(setup, op.intent, op.permission, op.capture, op.now)(b.rows) == Ok(t)
    ensures ApplyLive(setup, b, op) ==
            b.(rows := b.rows + [NewRow(setup.scope, op.intent, op.intent.orderRequestId, t, 1, RequestIdOf(setup, op.intent))])
  {
  }

  lemma RejectionIsRecorded(b: Book, id: string, startedAt: int, now: int)
    requires b.rows == [NewRow("prod:A", BuyX(id), id, startedAt, 1, RequestIdOf(CANARY, BuyX(id)))] && startedAt <= now
    ensures ApplyLive(CANARY, b, See(Rejection(id), now)) == b.(rows := [RejectedRow(id, startedAt, now)])
  {
    assert IndexOf(b.rows, "prod:A", RequestIdOf(CANARY, BuyX(id))) == 0;
    assert b.rows[0 := RejectedRow(id, startedAt, now)] == [RejectedRow(id, startedAt, now)];
  }

  const FIRST_DAY: Book := Book(Ready, None, [RejectedRow("a", 100, 200)])

  lemma FirstAttempt()
    ensures ApplyLive(CANARY, ApplyLive(CANARY, Journal.Fresh(false), AskX("a", 100, 100)), See(Rejection("a"), 200)) == FIRST_DAY
  {
    AskPasses("a", 100, 100, []);
    GrantedAsk(CANARY, Journal.Fresh(false), AskX("a", 100, 100), 100);
    RejectionIsRecorded(ApplyLive(CANARY, Journal.Fresh(false), AskX("a", 100, 100)), "a", 100, 200);
  }

  lemma LedgerOfFirstDay()
    ensures var rows := FIRST_DAY.rows;
            && CountOn(rows, "prod:A", 1) == 0 && TurnoverOn(rows, "prod:A", 1) == 0.0 && CountOn(rows, "prod:A", 0) == 1
            && (forall uid :: uid in Uids(rows, "prod:A") ==> Owned(rows, "prod:A", uid) == 0)
            && LastOf(rows, "prod:A", "b").None? && LatestOf(rows, "prod:A") == Some(rows[0])
            && !HasPending(rows, "prod:A") && !HasRequest(rows, RequestIdOf(CANARY, BuyX("b")))
  {
    var first := RejectedRow("a", 100, 200);
    assert [first][..0] == [];
    assert Uids([], "prod:A") == [] && Owned([], "prod:A", "uid-x") == 0 && CountOn([], "prod:A", 1) == 0;
    assert LatestOf([], "prod:A").None? && LastOf([], "prod:A", "b").None?;
    assert RequestIdOf(CANARY, BuyX("a"))[7] == 'a' && RequestIdOf(CANARY, BuyX("b"))[7] == 'b';
  }

  function SecondRow(): Row {
    NewRow("prod:A", BuyX("b"), "b", 75595, 1, RequestIdOf(CANARY, BuyX("b")))
  }

  lemma SecondAttempt()
    ensures ApplyLive(CANARY, FIRST_DAY, AskX("b", 75595, 75605)) == FIRST_DAY.(rows := FIRST_DAY.rows + [SecondRow()])
  {
    LedgerOfFirstDay();
    AskPasses("b", 75595, 75605, FIRST_DAY.rows);
    GrantedAsk(CANARY, FIRST_DAY, AskX("b", 75595, 75605), 75595);
  }

  lemma BothAreOnTheFirstDay()
    ensures CountOn(FIRST_DAY.rows + [SecondRow()], "prod:A", MoscowDay(100)) == 2
  {
    LedgerOfFirstDay();
    AppendCounts(FIRST_DAY.rows, SecondRow(), "prod:A", 0);
  }

  /**
   A limit of one attempt a day is broken by a capture that starts five seconds before midnight and is
   authorized five seconds after it: two attempts are stored under the first day.
   */
  lemma MidnightOverruns()
    ensures ONE_A_DAY.maxOrdersPerDay == 1
    ensures exists ops :: CountOn(RunLive(CANARY, ops).rows, "prod:A", MoscowDay(100)) == 2
  {
    FirstAttempt();
    SecondAttempt();
    RunOfThree(CANARY, AskX("a", 100, 100), See(Rejection("a"), 200), AskX("b", 75595, 75605), FIRST_DAY,
               FIRST_DAY.(rows := FIRST_DAY.rows + [SecondRow()]));
    BothAreOnTheFirstDay();
  }

  lemma RunOneMore(setup: Setup, ops: seq<LiveOp>, op: LiveOp, b: Book)
    requires RunLive(setup, ops) == b
    ensures RunLive(setup, ops + [op]) == ApplyLive(setup, b, op)
  {
    assert (ops + [op])[..|ops|] == ops;
  }

  lemma RunOfThree(setup: Setup, a: LiveOp, b: LiveOp, c: LiveOp, second: Book, last: Book)
    requires ApplyLive(setup, ApplyLive(setup, Journal.Fresh(false), a), b) == second && ApplyLive(setup, second, c) == last
    ensures RunLive(setup, [] + [a] + [b] + [c]) == last
  {
    RunOneMore(setup, [], a, Journal.Fresh(false));
    RunOneMore(setup, [] + [a], b, ApplyLive(setup, Journal.Fresh(false), a));
    RunOneMore(setup, [] + [a] + [b], c, second);
  }
}
