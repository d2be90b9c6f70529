/**
 The durable execution journal of src/moex_bot/execution_journal.py, as functions on its rows.

 A row's payload stands for its SHA-256, a transaction is one function application, and a function
 that returns `Err` leaves the journal as it was. `JournalStore.ExecutionJournal` is the class.
 */
module Journal {
  import opened Domain

  // Why a transaction is refused.
  const UNDER_REVIEW := "journal migration requires independent review before trading"
  const PAYLOAD_CHANGED := "same logical order changed payload"
  const ORDER_PENDING := "durable pending/UNKNOWN order requires broker reconciliation"
  const PLAN_SNAPSHOT_TOO_OLD := "new plan requires broker snapshot after latest terminal order"
  const EXIT_SNAPSHOT_TOO_OLD := "residual exit requires snapshot after terminal reconciliation"
  const REQUEST_EXISTS := "UNIQUE constraint failed: actions.request_id"
  const INVALID_QUANTITY := "invalid executed quantity"
  const FILLED_IN_PART := "filled order must have full executed quantity"
  const NOT_RESERVED := "order journal reservation missing"
  const CLOCK_MOVED_BACK := "journal clock moved behind the reserved snapshot"
  const RESULT_CHANGED := "broker result changed reserved payload"
  const QUANTITY_DECREASED := "executed quantity cannot decrease"
  const TERMINAL_CHANGED := "terminal order cannot change state"
  const NOT_QUARANTINED := "legacy import requires a quarantined candidate journal"
  const MANIFEST_CHANGED := "legacy manifest changed; create a new candidate"
  const CANDIDATE_NOT_EMPTY := "candidate contains unexpected orders"
  const LEGACY_INCONSISTENT := "legacy executed quantity is inconsistent"

  datatype RowState = RequestPending | Status(status: OrderStatus)

  datatype Row = Row(
    account: string, logicalId: string, generation: int, requestId: string, payload: OrderIntent,
    planId: string, state: RowState, snapshotAt: int, completedAt: Option<int>, record: OrderRecord)

  datatype Migration = ReviewRequired | Ready

  datatype Book = Book(migration: Migration, manifest: Option<string>, rows: seq<Row>)

  datatype LegacyEntry = LegacyEntry(account: string, planId: string, snapshotAt: int, record: OrderRecord)

  predicate TerminalStatus(s: OrderStatus) {
    s == Filled || s == Cancelled || s == Rejected
  }

  predicate Terminal(s: RowState) {
    s.Status? && TerminalStatus(s.status)
  }

  // ---------------------------------------------------------------- queries

  predicate Belongs(r: Row, account: string, logicalId: string) {
    r.account == account && r.logicalId == logicalId
  }

  /** `ORDER BY generation DESC LIMIT 1` */
  function LastOf(rows: seq<Row>, account: string, logicalId: string): Option<Row> {
    if rows == [] then None
    else
      var r := rows[|rows| - 1];
      var rest := LastOf(rows[..|rows| - 1], account, logicalId);
      if Belongs(r, account, logicalId) && (rest.None? || rest.value.generation < r.generation) then Some(r) else rest
  }

  predicate HasPending(rows: seq<Row>, account: string) {
    exists i :: 0 <= i < |rows| && rows[i].account == account && !Terminal(rows[i].state)
  }

  /** `WHERE completed_at IS NOT NULL ORDER BY completed_at DESC LIMIT 1` */
  function LatestOf(rows: seq<Row>, account: string): Option<Row> {
    if rows == [] then None
    else
      var r := rows[|rows| - 1];
      var rest := LatestOf(rows[..|rows| - 1], account);
      if && r.account == account && r.completedAt.Some?
         && (rest.None? || rest.value.completedAt.None? || rest.value.completedAt.value < r.completedAt.value)
      then Some(r) else rest
  }

  predicate HasRequest(rows: seq<Row>, requestId: string) {
    exists i :: 0 <= i < |rows| && rows[i].requestId == requestId
  }

  /** The row a broker result of this account belongs to. */
  function IndexOf(rows: seq<Row>, account: string, requestId: string): (i: int)
    ensures -1 <= i < |rows|
    ensures i >= 0 ==> rows[i].account == account && rows[i].requestId == requestId
    ensures i == -1 ==> forall k :: 0 <= k < |rows| ==> !(rows[k].account == account && rows[k].requestId == requestId)
  {
    if rows == [] then -1
    else
      var n := |rows| - 1;
      if rows[n].account == account && rows[n].requestId == requestId then n else IndexOf(rows[..n], account, requestId)
  }

  // ---------------------------------------------------------------- transactions

  function NewRow(
    account: string, intent: OrderIntent, planId: string, snapshotAt: int, generation: int, requestId: string): Row
  {
    Row(account, intent.orderRequestId, generation, requestId, intent, planId, RequestPending, snapshotAt, None,
        OrderRecord(intent.(orderRequestId := requestId), Unknown, 0, None, ""))
  }

  /** The checks before the authorization callback; `Ok(false)` when the order was already attempted. */
  function Admit(b: Book, account: string, intent: OrderIntent, planId: string, residualExit: bool): Result<bool> {
    var last := LastOf(b.rows, account, intent.orderRequestId);
    var attempted := last.Some? && (last.value.planId == planId || !residualExit);
    if b.migration != Ready then Err(UNDER_REVIEW)
    else if attempted && last.value.payload != intent then Err(PAYLOAD_CHANGED)
    else if HasPending(b.rows, account) then Err(ORDER_PENDING)
    else Ok(!attempted)
  }

  /** The checks on the authorized snapshot instant, and the insertion. */
  function Place(
    rows: seq<Row>, account: string, intent: OrderIntent, planId: string, snapshotAt: int, requestId: string)
    : Result<seq<Row>>
  {
    var last := LastOf(rows, account, intent.orderRequestId);
    var latest := LatestOf(rows, account);
    if && latest.Some? && latest.value.planId != planId
       && latest.value.completedAt.Some? && snapshotAt <= latest.value.completedAt.value
    then Err(PLAN_SNAPSHOT_TOO_OLD)
    else if last.Some? && (last.value.completedAt.None? || snapshotAt <= last.value.completedAt.value)
    then Err(EXIT_SNAPSHOT_TOO_OLD)
    else if HasRequest(rows, requestId) then Err(REQUEST_EXISTS)
    else
      var generation := if last.None? then 1 else last.value.generation + 1;
      Ok(rows + [NewRow(account, intent, planId, snapshotAt, generation, requestId)])
  }

  /**
   `reserve`: the request id of a new durable reservation, or `None` when the logical order was
   already attempted. `authorize` may look at the rows and replaces the snapshot instant.
   */
  function Reserve(
    b: Book, account: string, intent: OrderIntent, planId: string, residualExit: bool,
    authorize: seq<Row> -> Result<int>, requestId: string): Result<(Book, Option<string>)>
  {
    var admitted := Admit(b, account, intent, planId, residualExit);
    if admitted.Err? then Err(admitted.error)
    else if !admitted.value then Ok((b, None))
    else
      var authorized := authorize(b.rows);
      if authorized.Err? then Err(authorized.error)
      else
        var placed := Place(b.rows, account, intent, planId, authorized.value, requestId);
        if placed.Err? then Err(placed.error) else Ok((b.(rows := placed.value), Some(requestId)))
  }

  function Completed(r: Row, result: OrderRecord, now: int): Row {
    r.(state := Status(result.status),
    completedAt := if TerminalStatus(result.status) then Some(now) else None,
    record := result)
  }

  /** `record`: one broker observation of a reserved order at the journal's clock. */
  function Record(b: Book, account: string, result: OrderRecord, now: int): Result<Book> {
    var i := IndexOf(b.rows, account, result.intent.orderRequestId);
    if !(0 <= result.filledLots <= result.intent.lots) then Err(INVALID_QUANTITY)
    else if result.status == Filled && result.filledLots != result.intent.lots then
      Err(FILLED_IN_PART)
    else if i < 0 then Err(NOT_RESERVED)
    else
      var r := b.rows[i];
      if now < r.snapshotAt then Err(CLOCK_MOVED_BACK)
      else if result.intent.(orderRequestId := r.logicalId) != r.payload then
        Err(RESULT_CHANGED)
      else if result.filledLots < r.record.filledLots then Err(QUANTITY_DECREASED)
      else if Terminal(r.state) then
        if Status(result.status) != r.state || result.filledLots != r.record.filledLots then
          Err(TERMINAL_CHANGED)
        else Ok(b)
      else Ok(b.(rows := b.rows[i := Completed(r, result, now)]))
  }

  function LegacyRow(e: LegacyEntry): Row {
    var intent := e.record.intent;
    Row(e.account, intent.orderRequestId, 1, intent.orderRequestId, intent, e.planId, Status(Unknown), e.snapshotAt,
        None, e.record.(status := Unknown, statusDetail := "legacy_requires_broker_confirmation"))
  }

  /** `stage_legacy`, whose insertions fail as a whole on a repeated request id. */
  function StageLegacy(b: Book, entries: seq<LegacyEntry>, manifest: string): Result<Book> {
    if b.migration != ReviewRequired then Err(NOT_QUARANTINED)
    else if b.manifest.Some? then
      if b.manifest.value != manifest then Err(MANIFEST_CHANGED) else Ok(b)
    else if b.rows != [] then Err(CANDIDATE_NOT_EMPTY)
    else if exists i :: 0 <= i < |entries| && !(0 <= entries[i].record.filledLots <= entries[i].record.intent.lots) then
      Err(LEGACY_INCONSISTENT)
    else if exists i, j :: 0 <= i < j < |entries| &&
                           LegacyRow(entries[i]).requestId == LegacyRow(entries[j]).requestId then
      Err(REQUEST_EXISTS)
    else
      Ok(b.(rows := seq(|entries|, i requires 0 <= i < |entries| => LegacyRow(entries[i])), manifest := Some(manifest)))
  }

  /** `unresolved`: what a restart still has to reconcile, in insertion order. */
  function Unresolved(rows: seq<Row>, account: string): (r: seq<OrderRecord>)
    ensures forall x :: x in r <==>
                        exists i :: && 0 <= i < |rows| && rows[i].account == account && !Terminal(rows[i].state)
                                    && rows[i].record == x
  {
    if rows == [] then []
    else
      var n := |rows| - 1;
      var rest := Unresolved(rows[..n], account);
      assert forall i :: 0 <= i < n ==> rows[..n][i] == rows[i];
      if rows[n].account == account && !Terminal(rows[n].state) then rest + [rows[n].record] else rest
  }

  function Fresh(migrationRequired: bool): Book {
    Book(if migrationRequired then ReviewRequired else Ready, None, [])
  }
}
