/** The imperative side of src/moex_bot/live_execution.py: the ledger loop and the execution of one order. */
module LiveExecution {
  import opened Domain
  import opened Journal
  import opened JournalStore
  import opened LiveLedger

  datatype Summary = Summary(owned: map<string, int>, count: nat, turnover: real)

  /** `_ledger_summary`: one pass over the rows; short exposure of any instrument is an error. */
  method LedgerSummary(rows: seq<Row>, scope: string, now: int) returns (r: Result<Summary>)
    ensures r.Ok? <==> forall uid :: Owned(rows, scope, uid) >= 0
    ensures r.Ok? ==>
              && (forall uid :: Lots(r.value.owned, uid) == Owned(rows, scope, uid))
              && r.value.count == CountOn(rows, scope, MoscowDay(now))
              && r.value.turnover == TurnoverOn(rows, scope, MoscowDay(now))
  {
    var owned: map<string, int> := map[];
    var count, turnover := 0, 0.0;
    var today := MoscowDay(now);
    for k := 0 to |rows|
      invariant forall uid :: Lots(owned, uid) == Owned(rows[..k], scope, uid)
      invariant count == CountOn(rows[..k], scope, today) && turnover == TurnoverOn(rows[..k], scope, today)
    {
      var row := rows[k];
      assert rows[..k + 1][..k] == rows[..k];
      if row.account == scope {
        var uid := row.record.intent.instrument.uid;
        owned := owned[uid := Lots(owned, uid) + UnitsOf(row)];
        if MoscowDay(row.snapshotAt) == today {
          count := count + 1;
          turnover := turnover + row.record.intent.notional;
        }
      }
    }
    assert rows[..|rows|] == rows;
    if exists uid :: uid in owned && owned[uid] < 0 {
      var uid :| uid in owned && owned[uid] < 0;
      assert Lots(owned, uid) == Owned(rows, scope, uid);
      return Err(LEDGER_SHORT);
    }
    return Ok(Summary(owned, count, turnover));
  }

  /** What surrounds one execution: the clock at each reading, the captured state, the hook and the broker. */
  datatype Around = Around(
    started: int, capture: Result<LiveState>, authorizedAt: int, hook: Result<()>, submittingAt: int,
    reply: Result<OrderRecord>, recordedAt: int)

  /** The permission and the captured state are still good right before the submission. */
  predicate StillGood(setup: Setup, intent: OrderIntent, permission: Permission, around: Around) {
    && around.hook.Ok? && Permitted(permission, setup, intent, around.submittingAt)
    && around.capture.Ok? && LiveLedger.Fresh(around.capture.value, around.submittingAt)
  }

  function NotSubmitted(intent: OrderIntent, requestId: string): OrderRecord {
    OrderRecord(intent.(orderRequestId := requestId), Rejected, 0, None, "not_submitted")
  }

  /** The journal after an answer about the reserved order, if there is one and it is consistent. */
  predicate Journaled(b: Book, scope: string, answer: Result<OrderRecord>, now: int, after: Book, ok: bool) {
    if answer.Ok? && Record(b, scope, answer.value, now).Ok? then ok && after == Record(b, scope, answer.value, now).value
    else !ok && after == b
  }

  /** What happens under a new reservation. */
  predicate UnderReservation(
    setup: Setup, reserved: Book, id: string, intent: OrderIntent, permission: Permission, around: Around,
    after: Book, r: Result<Option<OrderRecord>>, submitted: bool)
  {
    && submitted == StillGood(setup, intent, permission, around)
    && (if submitted then Journaled(reserved, setup.scope, around.reply, around.recordedAt, after, r.Ok?)
        else r.Err? && exists ok ::
               Journaled(reserved, setup.scope, Ok(NotSubmitted(intent, id)), around.recordedAt, after, ok))
    && (r.Ok? ==> r.value.Some? && around.reply == Ok(r.value.value))
  }

  predicate Execution(
    setup: Setup, before: Book, intent: OrderIntent, permission: Permission, around: Around,
    after: Book, r: Result<Option<OrderRecord>>, submitted: bool)
  {
    var reserved := ReserveLive(setup, before, intent, permission, around.capture, around.authorizedAt);
    if !Permitted(permission, setup, intent, around.started) || reserved.Err? then r.Err? && !submitted && after == before
    else if reserved.value.1.None? then r == Ok(None) && !submitted && after == before
    else UnderReservation(setup, reserved.value.0, reserved.value.1.value, intent, permission, around, after, r, submitted)
  }

  /**
   `execute_live_intent`: `submitted` says whether the broker's submit was called. The broker is called
   only under a new reservation, with a permission and a snapshot that are still good, and a reservation
   that is not used is closed as rejected with nothing executed.
   */
  method ExecuteLive(journal: ExecutionJournal, setup: Setup, intent: OrderIntent, permission: Permission, around: Around)
    returns (r: Result<Option<OrderRecord>>, submitted: bool)
    modifies journal
    ensures Execution(setup, old(journal.Content()), intent, permission, around, journal.Content(), r, submitted)
    ensures submitted ==>
              && permission.account == setup.account && permission.intent == intent && permission.policy == setup.policy
              && permission.confirmedAt <= around.submittingAt < permission.expiresAt
  {
    submitted := false;
    if !Permitted(permission, setup, intent, around.started) {
      return Err(PERMISSION_INVALID), false;
    }
    var reserved := journal.Reserve(
      setup.scope, intent, intent.orderRequestId, false,
      AuthorizeWith(setup, intent, permission, around.capture, around.authorizedAt), RequestIdOf(setup, intent));
    if reserved.Err? {
      return Err(reserved.error), false;
    }
    if reserved.value.None? {
      return Ok(None), false;
    }
    if !StillGood(setup, intent, permission, around) {
      ghost var book := journal.Content();
      var recorded := journal.Record(setup.scope, NotSubmitted(intent, reserved.value.value), around.recordedAt);
      assert Journaled(book, setup.scope, Ok(NotSubmitted(intent, reserved.value.value)), around.recordedAt,
                       journal.Content(), recorded.Ok?);
      return Err(NOT_SUBMITTED), false;
    }
    submitted := true;
    if around.reply.Err? {
      return Err(around.reply.error), true;
    }
    var recorded := journal.Record(setup.scope, around.reply.value, around.recordedAt);
    if recorded.Err? {
      return Err(recorded.error), true;
    }
    return Ok(Some(around.reply.value)), true;
  }

  /** Recording this result frees the account, unless the clock is behind the snapshot `t`. */
  predicate Frees(b: Book, scope: string, record: OrderRecord, now: int, t: int) {
    match Record(b, scope, record, now)
    case Ok(final) => !HasPending(final.rows, scope)
    case Err(_) => now < t
  }

  lemma ClosingTheLastRow(b: Book, row: Row, scope: string, record: OrderRecord, now: int)
    requires !HasPending(b.rows, scope) && row.account == scope && row.state == RequestPending
    requires row.record.filledLots == 0 && row.requestId == record.intent.orderRequestId
    requires record.intent.(orderRequestId := row.logicalId) == row.payload
    requires record.status == Rejected && record.filledLots == 0
    ensures Frees(b.(rows := b.rows + [row]), scope, record, now, row.snapshotAt)
  {
  }

  /** A reservation that is not used does not block the account, unless the clock went behind its snapshot. */
  lemma UnusedReservationIsClosed(setup: Setup, b: Book, op: LiveOp, recordedAt: int)
    requires op.Ask? && LiveKept(setup, b)
    requires var r := ReserveLive(setup, b, op.intent, op.permission, op.capture, op.now); r.Ok? && r.value.1.Some?
    ensures op.capture.Ok?
    ensures Frees(ApplyLive(setup, b, op), setup.scope, NotSubmitted(op.intent, RequestIdOf(setup, op.intent)), recordedAt,
                  op.capture.value.startedAt)
  {
    var row := AskAppends(setup, b, op);
    ClosingTheLastRow(b, row, setup.scope, NotSubmitted(op.intent, RequestIdOf(setup, op.intent)), recordedAt);
  }
}
