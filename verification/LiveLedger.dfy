/**
 The production canary of src/moex_bot/live_execution.py on top of the execution journal: the ownership
 ledger, the authorization of one order, and what both keep over every sequence of orders and broker
 observations. Permission and policy digests are payload equality.
 */
module LiveLedger {
  import opened Domain
  import opened Journal
  import opened JournalTheorems

  // Why a live order is refused.
  const NOT_ELIGIBLE := "broker account type/status/access is not eligible"
  const STATE_STALE := "live broker/book state is stale or incoherent"
  const SNAPSHOT_FROM_THE_FUTURE := "broker snapshot is from the future"
  const NOT_ACCEPTABLE := "order is not acceptable to the canary"
  const BOOK_UNACCEPTABLE := "trading status, spread or confirmed price is unacceptable"
  const ORDERS_ACTIVE := "active regular/protective orders require reconciliation"
  const ATTEMPT_LIMIT_REACHED := "persistent daily order-attempt limit reached"
  const INVALID_MONEY := "live monetary state is invalid"
  const TURNOVER_LIMIT_REACHED := "persistent daily turnover limit reached"
  const HOLDINGS_DISAGREE := "bot-owned holdings disagree with broker positions"
  const ACCOUNT_SHORT := "existing account short exposure is unsupported by canary"
  const MANUAL_POSITION := "pre-existing manual position requires explicit protection"
  const SALE_TOO_LARGE := "sell would touch manual holdings or create a short"
  const BUY_TOO_LARGE := "buy exceeds the canary's risk limits"
  const PERMISSION_INVALID := "live permission is not valid"
  const ANOTHER_ACCOUNT := "fresh broker state belongs to another account"
  const LEDGER_SHORT := "bot ownership ledger contains short exposure"
  const NOT_SUBMITTED := "reserved order was not submitted"

  datatype Policy = Policy(
    allowed: set<string>, protectedSecids: set<string>, accountType: string,
    maxOrderNotional: real, maxDailyTurnover: real, maxOrdersPerDay: int, capitalLimit: real, lossWeight: real,
    allowMargin: bool)

  datatype Permission = Permission(
    account: string, intent: OrderIntent, policy: Policy, release: string, confirmedAt: int, expiresAt: int,
    admitted: bool)

  datatype Holding = Holding(instrument: Instrument, units: int, freeUnits: int, price: real)

  datatype LiveState = LiveState(
    accountId: string, accountType: string, accountStatus: string, accessLevel: string,
    startedAt: int, finishedAt: int, instrument: Instrument, tradingAllowed: bool, bookAt: int, bid: real, ask: real,
    cashAvailable: real, equity: real, dailyPnl: real, dailyTurnover: real, estimatedTotal: real,
    positions: seq<(string, Holding)>, activeOrders: int, stopUids: set<string>)

  /** The enrolled production account: `scope` is its name in the journal. */
  datatype Setup = Setup(scope: string, account: string, policy: Policy, release: string)

  // ---------------------------------------------------------------- the ownership ledger

  function Units(lots: int, lotSize: int): int {
    lots * lotSize
  }

  /** The units a row's executed lots add to what the bot owns. */
  function UnitsOf(r: Row): int {
    var units := Units(r.record.filledLots, r.record.intent.instrument.lotSize);
    if r.record.intent.side == Buy then units else -units
  }

  predicate Touches(r: Row, scope: string, uid: string) {
    r.account == scope && r.record.intent.instrument.uid == uid
  }

  function Owned(rows: seq<Row>, scope: string, uid: string): int {
    if rows == [] then 0
    else Owned(rows[..|rows| - 1], scope, uid) + if Touches(rows[|rows| - 1], scope, uid) then UnitsOf(rows[|rows| - 1]) else 0
  }

  /** The instruments of the ledger in the order in which they first appear. */
  function Uids(rows: seq<Row>, scope: string): seq<string> {
    if rows == [] then []
    else
      var before := Uids(rows[..|rows| - 1], scope);
      var r := rows[|rows| - 1];
      if r.account == scope && r.record.intent.instrument.uid !in before then before + [r.record.intent.instrument.uid]
      else before
  }

  predicate OnDay(r: Row, scope: string, day: int) {
    r.account == scope && MoscowDay(r.snapshotAt) == day
  }

  function CountOn(rows: seq<Row>, scope: string, day: int): nat {
    if rows == [] then 0
    else CountOn(rows[..|rows| - 1], scope, day) + if OnDay(rows[|rows| - 1], scope, day) then 1 else 0
  }

  function TurnoverOn(rows: seq<Row>, scope: string, day: int): real {
    if rows == [] then 0.0
    else TurnoverOn(rows[..|rows| - 1], scope, day)
         + if OnDay(rows[|rows| - 1], scope, day) then rows[|rows| - 1].record.intent.notional else 0.0
  }

  // ---------------------------------------------------------------- permission and authorization

  /** `LivePermission.validate` */
  predicate Permitted(p: Permission, setup: Setup, intent: OrderIntent, now: int) {
    && p.admitted && p.account == setup.account && p.intent == intent && p.policy == setup.policy
    && p.release == setup.release && p.confirmedAt <= now < p.expiresAt && p.expiresAt - p.confirmedAt <= 300
  }

  /** The snapshot is at most twenty seconds old and its book at most ten. */
  predicate Fresh(s: LiveState, now: int) {
    0 <= now - s.startedAt <= 20 && 0 <= now - s.bookAt <= 10
  }

  function Find(positions: seq<(string, Holding)>, uid: string): Option<Holding> {
    if positions == [] then None
    else if positions[0].0 == uid then Some(positions[0].1)
    else Find(positions[1..], uid)
  }

  function Priced(units: int, price: real): real {
    units as real * price
  }

  /** Every owned instrument is held by the broker, free, with a usable price. */
  predicate Backs(s: LiveState, rows: seq<Row>, scope: string, uids: seq<string>) {
    forall uid :: uid in uids && Owned(rows, scope, uid) != 0 ==>
                    var h := Find(s.positions, uid);
                    && h.Some? && h.value.units >= Owned(rows, scope, uid) && h.value.freeUnits >= Owned(rows, scope, uid)
                    && h.value.price > 0.0
  }

  function Gross(s: LiveState, rows: seq<Row>, scope: string, uids: seq<string>): real {
    if uids == [] then 0.0
    else
      var last := uids[|uids| - 1];
      var h := Find(s.positions, last);
      Gross(s, rows, scope, uids[..|uids| - 1])
      + if Owned(rows, scope, last) != 0 && h.Some? then Priced(Owned(rows, scope, last), h.value.price) else 0.0
  }

  /** Bot-owned value of the holdings in one group of issuers, sectors or clusters. */
  function Exposure(positions: seq<(string, Holding)>, rows: seq<Row>, scope: string, inGroup: Instrument -> bool): real {
    if positions == [] then 0.0
    else
      var (uid, h) := positions[|positions| - 1];
      Exposure(positions[..|positions| - 1], rows, scope, inGroup)
      + if inGroup(h.instrument) then Priced(Owned(rows, scope, uid), h.price) else 0.0
  }

  predicate Eligible(s: LiveState, policy: Policy) {
    && s.accountType == policy.accountType && s.accountStatus == "ACCOUNT_STATUS_OPEN"
    && s.accessLevel == "ACCOUNT_ACCESS_LEVEL_FULL_ACCESS"
  }

  /** What the canary accepts of an order by itself. */
  predicate Acceptable(intent: OrderIntent, policy: Policy, s: LiveState) {
    var i := intent.instrument;
    && s.instrument == i && i.assetClass == "share" && i.currency == "RUB"
    && intent.orderType == "limit" && !intent.confirmMarginTrade && !policy.allowMargin
    && i.secid in policy.allowed && i.secid !in policy.protectedSecids
    && TickDown(intent.limitPrice, i.tickSize) == intent.limitPrice
    && intent.notional == intent.limitPrice * intent.lots as real * i.lotSize as real
    && intent.notional <= policy.maxOrderNotional
  }

  predicate BookOk(intent: OrderIntent, s: LiveState) {
    && s.tradingAllowed && 0.0 < s.bid <= s.ask && s.ask - s.bid <= 0.005 * s.bid
    && var mid := (s.ask + s.bid) / 2.0; Abs(intent.limitPrice - mid) <= 0.01 * mid
  }

  /** The loss gate, the fee estimate, the free cash and the capital limit, given what the bot owns. */
  predicate Payable(notional: real, policy: Policy, s: LiveState, gross: real) {
    && s.dailyPnl > -(Min(s.equity, policy.capitalLimit) * policy.lossWeight)
    && notional <= s.estimatedTotal <= notional * 1.005
    && s.estimatedTotal <= s.cashAvailable
    && gross + s.estimatedTotal <= policy.capitalLimit
  }

  /** The concentration limits. */
  predicate Diversified(intent: OrderIntent, policy: Policy, s: LiveState, rows: seq<Row>, scope: string) {
    var i := intent.instrument;
    && i.sector != "unknown" && i.riskCluster != "unknown"
    && Exposure(s.positions, rows, scope, (x: Instrument) => x.issuerId == i.issuerId) + intent.notional
       <= policy.capitalLimit * 0.25
    && Exposure(s.positions, rows, scope, (x: Instrument) => x.sector == i.sector) + intent.notional
       <= policy.capitalLimit * 0.5
    && Exposure(s.positions, rows, scope, (x: Instrument) => x.riskCluster == i.riskCluster) + intent.notional
       <= policy.capitalLimit * 0.5
  }

  predicate BuyFits(intent: OrderIntent, policy: Policy, s: LiveState, rows: seq<Row>, scope: string) {
    && Payable(intent.notional, policy, s, Gross(s, rows, scope, Uids(rows, scope)))
    && Diversified(intent, policy, s, rows, scope)
  }

  /** A sale stays within what the bot owns and the broker reports free. */
  predicate SellFits(intent: OrderIntent, s: LiveState, rows: seq<Row>, scope: string) {
    var h := Find(s.positions, intent.instrument.uid);
    var units := Units(intent.lots, intent.instrument.lotSize);
    units <= Owned(rows, scope, intent.instrument.uid) && h.Some? && units <= h.value.freeUnits
  }

  /** `_authorize` with the ledger of these rows */
  function Authorize(intent: OrderIntent, setup: Setup, s: LiveState, rows: seq<Row>, now: int): Result<()> {
    var policy, scope := setup.policy, setup.scope;
    var count, turnover := CountOn(rows, scope, MoscowDay(now)), TurnoverOn(rows, scope, MoscowDay(now));
    if !Eligible(s, policy) then Err(NOT_ELIGIBLE)
    else if !(0 <= s.finishedAt - s.startedAt <= 20) || !Fresh(s, now) then Err(STATE_STALE)
    else if s.finishedAt > now then Err(SNAPSHOT_FROM_THE_FUTURE)
    else if !Acceptable(intent, policy, s) then Err(NOT_ACCEPTABLE)
    else if !BookOk(intent, s) then Err(BOOK_UNACCEPTABLE)
    else if s.activeOrders != 0 || intent.instrument.uid in s.stopUids then
      Err(ORDERS_ACTIVE)
    else if count >= policy.maxOrdersPerDay then Err(ATTEMPT_LIMIT_REACHED)
    else if s.equity <= 0.0 || s.dailyTurnover < 0.0 then Err(INVALID_MONEY)
    else if Max(s.dailyTurnover, turnover) + intent.notional > policy.maxDailyTurnover then
      Err(TURNOVER_LIMIT_REACHED)
    else if !Backs(s, rows, scope, Uids(rows, scope)) then Err(HOLDINGS_DISAGREE)
    else if exists p :: p in s.positions && p.1.units < 0 then Err(ACCOUNT_SHORT)
    else if exists p :: p in s.positions && p.1.units != 0 && p.1.instrument.secid !in policy.protectedSecids
                        && Owned(rows, scope, p.0) == 0 then
      Err(MANUAL_POSITION)
    else if intent.side == Sell && !SellFits(intent, s, rows, scope) then Err(SALE_TOO_LARGE)
    else if intent.side == Buy && !BuyFits(intent, policy, s, rows, scope) then Err(BUY_TOO_LARGE)
    else Ok(())
  }

  /** The authorization callback of `execute_live_intent` for what was captured at `now`. */
  function AuthorizeWith(setup: Setup, intent: OrderIntent, permission: Permission, capture: Result<LiveState>, now: int)
    : seq<Row> -> Result<int>
  {
    rows =>
      if capture.Err? then Err(capture.error)
      else if !Permitted(permission, setup, intent, now) then Err(PERMISSION_INVALID)
      else if capture.value.accountId != setup.account then Err(ANOTHER_ACCOUNT)
      else if exists uid :: uid in Uids(rows, setup.scope) && Owned(rows, setup.scope, uid) < 0 then
        Err(LEDGER_SHORT)
      else
        var authorized := Authorize(intent, setup, capture.value, rows, now);
        if authorized.Err? then Err(authorized.error) else Ok(capture.value.startedAt)
  }

  /** The name whose version-5 UUID is the broker request id. */
  function RequestIdOf(setup: Setup, intent: OrderIntent): string {
    setup.scope + ":" + intent.orderRequestId
  }

  function ReserveLive(setup: Setup, b: Book, intent: OrderIntent, permission: Permission, capture: Result<LiveState>, now: int)
    : Result<(Book, Option<string>)>
  {
    Reserve(b, setup.scope, intent, intent.orderRequestId, false, AuthorizeWith(setup, intent, permission, capture, now),
            RequestIdOf(setup, intent))
  }

  // ---------------------------------------------------------------- runs

  /** One transaction: an order that asks for its reservation, or any observation of any result. */
  datatype LiveOp =
    | Ask(intent: OrderIntent, permission: Permission, capture: Result<LiveState>, now: int)
    | See(result: OrderRecord, now: int)

  function ApplyLive(setup: Setup, b: Book, op: LiveOp): Book {
    match op
    case Ask(intent, permission, capture, now) =>
      var r := ReserveLive(setup, b, intent, permission, capture, now);
      if r.Ok? then r.value.0 else b
    case See(result, now) =>
      var r := Record(b, setup.scope, result, now);
      if r.Ok? then r.value else b
  }

  /** From the enrollment of an empty journal on. */
  function RunLive(setup: Setup, ops: seq<LiveOp>): Book {
    if ops == [] then Journal.Fresh(false) else ApplyLive(setup, RunLive(setup, ops[..|ops| - 1]), ops[|ops| - 1])
  }

  // ---------------------------------------------------------------- the ledger never goes short

  /** A sale was authorized against what the rows before it own. */
  ghost predicate Backed(rows: seq<Row>, scope: string) {
    forall i :: 0 <= i < |rows| && rows[i].payload.side == Sell ==>
                  Units(rows[i].payload.lots, rows[i].payload.instrument.lotSize)
                  <= Owned(rows[..i], scope, rows[i].payload.instrument.uid)
  }

  ghost predicate LiveKept(setup: Setup, b: Book) {
    && b.migration == Ready && WellKept(b.rows) && Backed(b.rows, setup.scope)
    && (forall r :: r in b.rows ==> r.account == setup.scope && r.generation == 1)
  }

  lemma UnitsGrow(a: int, b: int, lotSize: int)
    requires 0 <= a <= b && lotSize > 0
    ensures 0 <= Units(a, lotSize) <= Units(b, lotSize)
  {
  }

  /** Owned units are never negative when every sale was backed. */
  lemma {:induction false} OwnedIsNotNegative(rows: seq<Row>, scope: string, uid: string)
    requires Backed(rows, scope) && forall i :: 0 <= i < |rows| ==> RowOk(rows[i])
    ensures Owned(rows, scope, uid) >= 0
  {
    if rows != [] {
      var n := |rows| - 1;
      assert forall i :: 0 <= i < n ==> rows[..n][..i] == rows[..i];
      OwnedIsNotNegative(rows[..n], scope, uid);
      var r := rows[n];
      assert RowOk(r);
      UnitsGrow(r.record.filledLots, r.payload.lots, r.payload.instrument.lotSize);
    }
  }

  lemma AppendIsBacked(rows: seq<Row>, r: Row, scope: string)
    requires Backed(rows, scope)
    requires r.payload.side == Sell ==>
               Units(r.payload.lots, r.payload.instrument.lotSize) <= Owned(rows, scope, r.payload.instrument.uid)
    ensures Backed(rows + [r], scope)
  {
    assert forall i :: 0 <= i <= |rows| ==> (rows + [r])[..i] == rows[..i];
    assert rows[..|rows|] == rows;
  }

  /** Only the last row can change, and no earlier sale depends on it. */
  lemma UpdateIsBacked(rows: seq<Row>, r: Row, scope: string)
    requires rows != [] && Backed(rows, scope) && r.payload == rows[|rows| - 1].payload
    ensures Backed(rows[|rows| - 1 := r], scope)
  {
    assert forall i :: 0 <= i < |rows| ==> rows[|rows| - 1 := r][..i] == rows[..i];
  }

  /** What a granted live reservation adds. */
  lemma AskAppends(setup: Setup, b: Book, op: LiveOp) returns (row: Row)
    requires op.Ask? && ReserveLive(setup, b, op.intent, op.permission, op.capture, op.now).Ok?
    requires ReserveLive(setup, b, op.intent, op.permission, op.capture, op.now).value.1.Some?
    requires WellKept(b.rows)
    ensures ApplyLive(setup, b, op) == b.(rows := b.rows + [row]) && WellKept(b.rows + [row])
    ensures b.migration == Ready && row.generation == 1 && row.account == setup.scope && row.payload == op.intent
    ensures row.record.intent.notional == op.intent.notional && row.requestId == RequestIdOf(setup, op.intent)
    ensures row.state == RequestPending && row.record.filledLots == 0 && row.logicalId == op.intent.orderRequestId
    ensures !HasPending(b.rows, setup.scope)
    ensures op.capture.Ok? && row.snapshotAt == op.capture.value.startedAt
    ensures Authorize(op.intent, setup, op.capture.value, b.rows, op.now).Ok?
  {
    var authorize := AuthorizeWith(setup, op.intent, op.permission, op.capture, op.now);
    var id := RequestIdOf(setup, op.intent);
    row := ReserveAppends(b, setup.scope, op.intent, op.intent.orderRequestId, false, authorize, id);
    ReserveKeeps(b, setup.scope, op.intent, op.intent.orderRequestId, false, authorize, id);
  }

  lemma AskKeeps(setup: Setup, b: Book, op: LiveOp)
    requires LiveKept(setup, b) && op.Ask?
    ensures LiveKept(setup, ApplyLive(setup, b, op))
  {
    var r := ReserveLive(setup, b, op.intent, op.permission, op.capture, op.now);
    if r.Ok? && r.value.1.Some? {
      var row := AskAppends(setup, b, op);
      if op.intent.side == Sell {
        AuthorizedSaleIsBacked(op.intent, setup, op.capture.value, b.rows, op.now);
      }
      AppendKeepsLive(setup, b, row);
    } else {
      RefusedAskIsSilent(setup, b, op);
    }
  }

  lemma AuthorizedSaleIsBacked(intent: OrderIntent, setup: Setup, s: LiveState, rows: seq<Row>, now: int)
    requires Authorize(intent, setup, s, rows, now).Ok? && intent.side == Sell
    ensures Units(intent.lots, intent.instrument.lotSize) <= Owned(rows, setup.scope, intent.instrument.uid)
  {
  }

  lemma AppendKeepsLive(setup: Setup, b: Book, row: Row)
    requires LiveKept(setup, b) && WellKept(b.rows + [row]) && row.account == setup.scope && row.generation == 1
    requires row.payload.side == Sell ==>
               Units(row.payload.lots, row.payload.instrument.lotSize) <= Owned(b.rows, setup.scope, row.payload.instrument.uid)
    ensures LiveKept(setup, b.(rows := b.rows + [row]))
  {
    AppendIsBacked(b.rows, row, setup.scope);
  }

  lemma RefusedAskIsSilent(setup: Setup, b: Book, op: LiveOp)
    requires op.Ask?
    requires var r := ReserveLive(setup, b, op.intent, op.permission, op.capture, op.now); r.Ok? ==> r.value.1.None?
    ensures ApplyLive(setup, b, op) == b
  {
  }

  lemma SeeKeeps(setup: Setup, b: Book, op: LiveOp)
    requires LiveKept(setup, b) && op.See?
    ensures LiveKept(setup, ApplyLive(setup, b, op))
  {
    if Record(b, setup.scope, op.result, op.now).Ok? {
      RecordKeeps(b, setup.scope, op.result, op.now);
      var k := RecordChangesOneRow(b, setup.scope, op.result, op.now);
      var rows := Record(b, setup.scope, op.result, op.now).value.rows;
      if rows != b.rows {
        UpdateKeepsLive(setup, b, k, rows[k]);
      }
    }
  }

  lemma UpdateKeepsLive(setup: Setup, b: Book, k: nat, r: Row)
    requires LiveKept(setup, b) && k < |b.rows| && !Terminal(b.rows[k].state) && RowEvolves(b.rows[k], r)
    requires WellKept(b.rows[k := r])
    ensures LiveKept(setup, b.(rows := b.rows[k := r]))
  {
    assert b.rows[k] in b.rows;
    OpenRowIsLast(b.rows, k);
    UpdateIsBacked(b.rows, r, setup.scope);
  }

  lemma OpenRowIsLast(rows: seq<Row>, k: nat)
    requires SingleFlight(rows) && k < |rows| && !Terminal(rows[k].state)
    requires forall r :: r in rows ==> r.account == rows[k].account
    ensures k == |rows| - 1
  {
    assert rows[|rows| - 1] in rows;
  }

  lemma {:induction false} EveryLiveRunIsKept(setup: Setup, ops: seq<LiveOp>)
    ensures LiveKept(setup, RunLive(setup, ops))
  {
    if ops != [] {
      EveryLiveRunIsKept(setup, ops[..|ops| - 1]);
      if ops[|ops| - 1].Ask? {
        AskKeeps(setup, RunLive(setup, ops[..|ops| - 1]), ops[|ops| - 1]);
      } else {
        SeeKeeps(setup, RunLive(setup, ops[..|ops| - 1]), ops[|ops| - 1]);
      }
    }
  }

  /**
   The bot never owns fewer than zero units of anything: in every ledger that reservations and broker
   observations can build, whatever partial fills the broker reports in whatever order.
   */
  lemma NeverShort(setup: Setup, ops: seq<LiveOp>, uid: string)
    ensures Owned(RunLive(setup, ops).rows, setup.scope, uid) >= 0
  {
    EveryLiveRunIsKept(setup, ops);
    OwnedIsNotNegative(RunLive(setup, ops).rows, setup.scope, uid);
  }

  /** A logical order is reserved, hence submitted, at most once for ever. */
  lemma OneAttemptPerOrder(setup: Setup, ops: seq<LiveOp>, i: nat, j: nat)
    requires i < j < |RunLive(setup, ops).rows|
    ensures RunLive(setup, ops).rows[i].logicalId != RunLive(setup, ops).rows[j].logicalId
  {
    EveryLiveRunIsKept(setup, ops);
    var rows := RunLive(setup, ops).rows;
    assert rows[i] in rows && rows[j] in rows;
    if rows[i].logicalId == rows[j].logicalId {
      EarlierAttemptCounts(rows, i, j);
    }
  }
}
