/**
 What a transaction of the execution journal does, in both directions: exactly when it is accepted, and
 every column it writes. Nothing here mentions how a transaction finds or rewrites a row.
 */
module JournalRules {
  import opened Domain
  import opened Journal
  import opened JournalTheorems

  /** No transaction changes an order in one of these states. */
  predicate IsFinal(s: RowState) {
    s in {Status(Filled), Status(Cancelled), Status(Rejected)}
  }

  // ---------------------------------------------------------------- observations

  predicate Names(r: Row, account: string, result: OrderRecord) {
    r.account == account && r.requestId == result.intent.orderRequestId
  }

  /** The answer agrees with itself, with the order as it was reserved, and with what was recorded before. */
  predicate Agrees(r: Row, result: OrderRecord, now: int) {
    && 0 <= result.filledLots <= result.intent.lots
    && (result.status == Filled ==> result.filledLots == result.intent.lots)
    && result.intent == r.payload.(orderRequestId := r.requestId)
    && r.snapshotAt <= now && r.record.filledLots <= result.filledLots
    && (IsFinal(r.state) ==> r.state == Status(result.status) && r.record.filledLots == result.filledLots)
  }

  /** The row after the answer: a final row stays, and any other tells what the answer says. */
  ghost predicate Tells(before: Row, after: Row, result: OrderRecord, now: int) {
    if IsFinal(before.state) then after == before
    else
      && after.record == result && after.state == Status(result.status)
      && after.completedAt == (if result.status in {Filled, Cancelled, Rejected} then Some(now) else None)
      && after == before.(record := after.record, state := after.state, completedAt := after.completedAt)
  }

  lemma RecordFindsTheRow(b: Book, account: string, result: OrderRecord, now: int, k: nat)
    requires WellKept(b.rows) && k < |b.rows| && Names(b.rows[k], account, result)
    ensures IndexOf(b.rows, account, result.intent.orderRequestId) == k
  {
  }

  lemma SameOrder(r: Row, result: OrderRecord)
    requires RowOk(r) && r.requestId == result.intent.orderRequestId
    ensures result.intent.(orderRequestId := r.logicalId) == r.payload <==>
            result.intent == r.payload.(orderRequestId := r.requestId)
  {
    assert result.intent.(orderRequestId := r.logicalId).(orderRequestId := r.requestId) == result.intent;
    assert r.payload.(orderRequestId := r.requestId).(orderRequestId := r.logicalId) == r.payload;
  }

  /** An answer is accepted exactly if it names a row and agrees with it. */
  lemma RecordIsAcceptedIff(b: Book, account: string, result: OrderRecord, now: int)
    requires WellKept(b.rows)
    ensures Record(b, account, result, now).Ok? <==>
            exists k :: 0 <= k < |b.rows| && Names(b.rows[k], account, result) && Agrees(b.rows[k], result, now)
  {
    forall k | 0 <= k < |b.rows| && Names(b.rows[k], account, result)
      ensures Record(b, account, result, now).Ok? <==> Agrees(b.rows[k], result, now)
    {
      RecordFindsTheRow(b, account, result, now, k);
      assert RowOk(b.rows[k]);
      SameOrder(b.rows[k], result);
    }
  }

  /** What an accepted answer leaves: the named row tells it, and everything else is as it was. */
  lemma RecordTellsTheAnswer(b: Book, account: string, result: OrderRecord, now: int, k: nat)
    requires WellKept(b.rows) && Record(b, account, result, now).Ok?
    requires k < |b.rows| && Names(b.rows[k], account, result)
    ensures var next := Record(b, account, result, now).value;
            && |next.rows| == |b.rows| && next == b.(rows := next.rows)
            && Tells(b.rows[k], next.rows[k], result, now)
            && forall j :: 0 <= j < |b.rows| && j != k ==> next.rows[j] == b.rows[j]
  {
    RecordFindsTheRow(b, account, result, now, k);
  }

  // ---------------------------------------------------------------- reservations

  predicate IsOpen(rows: seq<Row>, account: string) {
    exists i :: 0 <= i < |rows| && rows[i].account == account && !IsFinal(rows[i].state)
  }

  /** The order was already attempted, and not as the residual exit of another plan. */
  predicate Attempted(rows: seq<Row>, account: string, intent: OrderIntent, planId: string, residualExit: bool) {
    var last := LastOf(rows, account, intent.orderRequestId);
    last.Some? && (last.value.planId == planId || !residualExit)
  }

  /** The snapshot is newer than what it must follow. */
  predicate IsTimely(rows: seq<Row>, account: string, intent: OrderIntent, planId: string, at: int) {
    var last, latest := LastOf(rows, account, intent.orderRequestId), LatestOf(rows, account);
    && (last.Some? ==> last.value.completedAt.Some? && last.value.completedAt.value < at)
    && (latest.Some? ==> latest.value.planId == planId
                         || (latest.value.completedAt.Some? && latest.value.completedAt.value < at))
  }

  /** A new reservation is granted exactly under these conditions. */
  predicate Grantable(
    b: Book, account: string, intent: OrderIntent, planId: string, residualExit: bool, authorized: Result<int>, requestId: string)
  {
    && b.migration == Ready && !IsOpen(b.rows, account)
    && !Attempted(b.rows, account, intent, planId, residualExit)
    && authorized.Ok? && IsTimely(b.rows, account, intent, planId, authorized.value)
    && forall r :: r in b.rows ==> r.requestId != requestId
  }

  lemma PendingIsOpen(rows: seq<Row>, account: string)
    ensures HasPending(rows, account) <==> IsOpen(rows, account)
  {
    if HasPending(rows, account) {
      var i :| 0 <= i < |rows| && rows[i].account == account && !Terminal(rows[i].state);
      assert !IsFinal(rows[i].state);
    }
  }

  lemma RequestIsUnused(rows: seq<Row>, requestId: string)
    ensures HasRequest(rows, requestId) <==> exists r :: r in rows && r.requestId == requestId
  {
    if HasRequest(rows, requestId) {
      var i :| 0 <= i < |rows| && rows[i].requestId == requestId;
      assert rows[i] in rows;
    }
  }

  /** A reservation is granted exactly if it is grantable, and declined silently exactly for a repeated order. */
  lemma ReserveIsGrantedIff(b: Book, account: string, intent: OrderIntent, planId: string, residualExit: bool,
                            authorize: seq<Row> -> Result<int>, requestId: string)
    ensures var r := Reserve(b, account, intent, planId, residualExit, authorize, requestId);
            && (r.Ok? && r.value.1.Some? <==>
                  Grantable(b, account, intent, planId, residualExit, authorize(b.rows), requestId))
            && (r.Ok? && r.value.1.None? <==>
                  && b.migration == Ready && !IsOpen(b.rows, account)
                  && Attempted(b.rows, account, intent, planId, residualExit)
                  && LastOf(b.rows, account, intent.orderRequestId).value.payload == intent)
  {
    PendingIsOpen(b.rows, account);
    RequestIsUnused(b.rows, requestId);
    LatestIsTheLatest(b.rows, account);
  }

  /** The row of a new reservation. */
  predicate IsNew(r: Row, account: string, intent: OrderIntent, planId: string, at: int, generation: int, requestId: string) {
    && r.account == account && r.logicalId == intent.orderRequestId && r.generation == generation
    && r.requestId == requestId && r.payload == intent && r.planId == planId && r.state == RequestPending
    && r.snapshotAt == at && r.completedAt == None
    && r.record.intent == intent.(orderRequestId := requestId) && r.record.status == Unknown
    && r.record.filledLots == 0 && r.record.brokerOrderId == None && r.record.statusDetail == ""
  }

  /** A grant names its own request and inserts one row, numbered after the attempts of its order; a refusal inserts none. */
  lemma ReserveInsertsOneRow(b: Book, account: string, intent: OrderIntent, planId: string, residualExit: bool,
                             authorize: seq<Row> -> Result<int>, requestId: string)
    requires WellKept(b.rows)
    ensures match Reserve(b, account, intent, planId, residualExit, authorize, requestId)
            case Err(_) => true
            case Ok((next, None)) => next == b
            case Ok((next, Some(id))) =>
              && id == requestId && authorize(b.rows).Ok?
              && |next.rows| == |b.rows| + 1 && next == b.(rows := next.rows) && next.rows[..|b.rows|] == b.rows
              && IsNew(next.rows[|b.rows|], account, intent, planId, authorize(b.rows).value,
                       1 + Attempts(b.rows, account, intent.orderRequestId), requestId)
  {
    LastOfIsTheLast(b.rows, account, intent.orderRequestId);
  }

  // ---------------------------------------------------------------- staging

  predicate IsStaged(r: Row, e: LegacyEntry) {
    && r.account == e.account && r.logicalId == e.record.intent.orderRequestId && r.generation == 1
    && r.requestId == e.record.intent.orderRequestId && r.payload == e.record.intent && r.planId == e.planId
    && r.state == Status(Unknown) && r.snapshotAt == e.snapshotAt && r.completedAt == None
    && r.record == e.record.(status := Unknown, statusDetail := "legacy_requires_broker_confirmation")
  }

  /** Every entry is a quantity that its order allows, and no two share an id. */
  predicate CanStage(entries: seq<LegacyEntry>) {
    && (forall e :: e in entries ==> 0 <= e.record.filledLots <= e.record.intent.lots)
    && (forall i, j :: 0 <= i < j < |entries| ==>
                         entries[i].record.intent.orderRequestId != entries[j].record.intent.orderRequestId)
  }

  /** Staging happens once, into an empty quarantined journal, for consistent entries; it repeats for the same manifest. */
  lemma StagingIsExact(b: Book, entries: seq<LegacyEntry>, manifest: string)
    ensures var r := StageLegacy(b, entries, manifest);
            && (r.Ok? <==> b.migration == ReviewRequired
                           && (b.manifest == Some(manifest) || (b.manifest == None && b.rows == [] && CanStage(entries))))
            && (r.Ok? && b.manifest == Some(manifest) ==> r.value == b)
            && (r.Ok? && b.manifest == None ==>
                  && r.value.migration == ReviewRequired && r.value.manifest == Some(manifest)
                  && |r.value.rows| == |entries| && forall i :: 0 <= i < |entries| ==> IsStaged(r.value.rows[i], entries[i]))
  {
  }
}
