/**
 What the execution journal keeps over every sequence of transactions: one order in flight per
 account, contiguous generations, monotone fills, immutable terminal rows, and snapshots that are
 taken after what they must cover.
 */
module JournalTheorems {
  import opened Domain
  import opened Journal

  /** One transaction of any process; a refused transaction leaves no trace. */
  datatype Op =
    | DoReserve(account: string, intent: OrderIntent, planId: string, residualExit: bool,
                authorized: Result<int>, requestId: string)
    | DoRecord(account: string, result: OrderRecord, now: int)
    | DoStage(entries: seq<LegacyEntry>, manifest: string)

  function Apply(b: Book, op: Op): Book {
    match op
    case DoReserve(account, intent, planId, residualExit, authorized, requestId) =>
      var r := Reserve(b, account, intent, planId, residualExit, _ => authorized, requestId);
      if r.Ok? then r.value.0 else b
    case DoRecord(account, result, now) =>
      var r := Record(b, account, result, now);
      if r.Ok? then r.value else b
    case DoStage(entries, manifest) =>
      var r := StageLegacy(b, entries, manifest);
      if r.Ok? then r.value else b
  }

  function Run(b: Book, ops: seq<Op>): Book {
    if ops == [] then b else Apply(Run(b, ops[..|ops| - 1]), ops[|ops| - 1])
  }

  // ---------------------------------------------------------------- the row invariant

  ghost predicate RowOk(r: Row) {
    && (r.completedAt.Some? <==> Terminal(r.state))
    && (r.completedAt.Some? ==> r.snapshotAt <= r.completedAt.value)
    && r.record.intent == r.payload.(orderRequestId := r.requestId)
    && r.payload.orderRequestId == r.logicalId
    && 0 <= r.record.filledLots <= r.payload.lots
    && (r.state == Status(Filled) ==> r.record.filledLots == r.payload.lots)
    && (r.state.Status? ==> r.record.status == r.state.status)
  }

  function Attempts(rows: seq<Row>, account: string, logicalId: string): nat {
    if rows == [] then 0
    else Attempts(rows[..|rows| - 1], account, logicalId) + if Belongs(rows[|rows| - 1], account, logicalId) then 1 else 0
  }

  /** Every earlier row of the same account is terminal. */
  ghost predicate SingleFlight(rows: seq<Row>) {
    forall i, j :: 0 <= i < j < |rows| && rows[i].account == rows[j].account ==> Terminal(rows[i].state)
  }

  ghost predicate UniqueRequests(rows: seq<Row>) {
    forall i, j :: 0 <= i < j < |rows| ==> rows[i].requestId != rows[j].requestId
  }

  /** Generations of a logical order are 1, 2, 3, ... in insertion order. */
  ghost predicate Contiguous(rows: seq<Row>) {
    forall i :: 0 <= i < |rows| ==> rows[i].generation == 1 + Attempts(rows[..i], rows[i].account, rows[i].logicalId)
  }

  /** A plan's first action on an account has a snapshot strictly after every completion already there. */
  ghost predicate FirstActionsAreFresh(rows: seq<Row>) {
    forall i, j :: 0 <= i < j < |rows| && rows[i].account == rows[j].account && IsFirstOfPlan(rows, j) ==>
                     rows[i].completedAt.Some? && rows[i].completedAt.value < rows[j].snapshotAt
  }

  ghost predicate IsFirstOfPlan(rows: seq<Row>, j: nat)
    requires j < |rows|
  {
    forall i :: 0 <= i < j && rows[i].account == rows[j].account ==> rows[i].planId != rows[j].planId
  }

  ghost predicate WellKept(rows: seq<Row>) {
    && (forall i :: 0 <= i < |rows| ==> RowOk(rows[i]))
    && SingleFlight(rows) && UniqueRequests(rows) && Contiguous(rows) && FirstActionsAreFresh(rows)
  }

  // ---------------------------------------------------------------- queries on a well-kept journal

  lemma {:induction false} LastOfIsTheLast(rows: seq<Row>, account: string, logicalId: string)
    requires Contiguous(rows)
    ensures var last := LastOf(rows, account, logicalId);
            && (last.None? <==> Attempts(rows, account, logicalId) == 0)
            && (last.Some? ==> last.value in rows && Belongs(last.value, account, logicalId)
                               && last.value.generation == Attempts(rows, account, logicalId))
  {
    if rows != [] {
      var n := |rows| - 1;
      PrefixIsContiguous(rows, n);
      LastOfIsTheLast(rows[..n], account, logicalId);
    }
  }

  lemma PrefixIsContiguous(rows: seq<Row>, n: nat)
    requires Contiguous(rows) && n <= |rows|
    ensures Contiguous(rows[..n])
  {
    forall i | 0 <= i < n
      ensures rows[..n][i].generation == 1 + Attempts(rows[..n][..i], rows[i].account, rows[i].logicalId)
    {
      assert rows[..n][..i] == rows[..i];
    }
  }

  lemma {:induction false} LatestIsTheLatest(rows: seq<Row>, account: string)
    ensures LatestOf(rows, account).Some? ==>
              && LatestOf(rows, account).value in rows && LatestOf(rows, account).value.account == account
              && LatestOf(rows, account).value.completedAt.Some?
    ensures forall i :: 0 <= i < |rows| && rows[i].account == account && rows[i].completedAt.Some? ==>
                          && LatestOf(rows, account).Some?
                          && rows[i].completedAt.value <= LatestOf(rows, account).value.completedAt.value
  {
    if rows != [] {
      var n := |rows| - 1;
      LatestIsTheLatest(rows[..n], account);
      forall i | 0 <= i < |rows| && rows[i].account == account && rows[i].completedAt.Some?
        ensures LatestOf(rows, account).Some?
        ensures rows[i].completedAt.value <= LatestOf(rows, account).value.completedAt.value
      {
        if i < n { assert rows[..n][i] == rows[i]; }
      }
    }
  }

  /** The second attempt of a logical order has a generation above one. */
  lemma EarlierAttemptCounts(rows: seq<Row>, i: nat, j: nat)
    requires WellKept(rows) && i < j < |rows| && Belongs(rows[i], rows[j].account, rows[j].logicalId)
    ensures rows[j].generation >= 2
  {
    AttemptsCount(rows[..j], i, rows[j].account, rows[j].logicalId);
  }

  lemma {:induction false} AttemptsCount(rows: seq<Row>, i: nat, account: string, logicalId: string)
    requires i < |rows| && Belongs(rows[i], account, logicalId)
    ensures Attempts(rows, account, logicalId) >= 1
  {
    if i < |rows| - 1 {
      AttemptsCount(rows[..|rows| - 1], i, account, logicalId);
    }
  }

  // ---------------------------------------------------------------- every transaction

  lemma AppendIsContiguous(rows: seq<Row>, r: Row)
    requires Contiguous(rows) && r.generation == 1 + Attempts(rows, r.account, r.logicalId)
    ensures Contiguous(rows + [r])
  {
    var next := rows + [r];
    forall i | 0 <= i < |next| ensures next[i].generation == 1 + Attempts(next[..i], next[i].account, next[i].logicalId) {
      assert next[..i] == rows[..i];
      assert rows[..|rows|] == rows;
    }
  }

  lemma AppendIsFresh(rows: seq<Row>, r: Row)
    requires FirstActionsAreFresh(rows)
    requires (forall i :: 0 <= i < |rows| && rows[i].account == r.account ==> rows[i].planId != r.planId) ==>
               forall i :: 0 <= i < |rows| && rows[i].account == r.account ==>
                             rows[i].completedAt.Some? && rows[i].completedAt.value < r.snapshotAt
    ensures FirstActionsAreFresh(rows + [r])
  {
    var next := rows + [r];
    forall i, j | 0 <= i < j < |next| && next[i].account == next[j].account && IsFirstOfPlan(next, j)
      ensures next[i].completedAt.Some? && next[i].completedAt.value < next[j].snapshotAt
    {
      FirstOfPlanInPrefix(rows, r, j);
    }
  }

  lemma FirstOfPlanInPrefix(rows: seq<Row>, r: Row, j: nat)
    requires j <= |rows| && IsFirstOfPlan(rows + [r], j)
    ensures j < |rows| ==> IsFirstOfPlan(rows, j)
    ensures j == |rows| ==> forall i :: 0 <= i < |rows| && rows[i].account == r.account ==> rows[i].planId != r.planId
  {
    forall i | 0 <= i < j && rows[i].account == (rows + [r])[j].account ensures rows[i].planId != (rows + [r])[j].planId {
      assert (rows + [r])[i] == rows[i];
    }
  }

  /** What a granted reservation adds and what the journal had checked before. */
  lemma ReserveAppends(b: Book, account: string, intent: OrderIntent, planId: string, residualExit: bool,
                       authorize: seq<Row> -> Result<int>, requestId: string) returns (row: Row)
    requires Reserve(b, account, intent, planId, residualExit, authorize, requestId).Ok?
    requires Reserve(b, account, intent, planId, residualExit, authorize, requestId).value.1.Some?
    ensures var last, latest := LastOf(b.rows, account, intent.orderRequestId), LatestOf(b.rows, account);
            && authorize(b.rows).Ok?
            && row == NewRow(account, intent, planId, authorize(b.rows).value,
                             if last.None? then 1 else last.value.generation + 1, requestId)
            && Reserve(b, account, intent, planId, residualExit, authorize, requestId) ==
               Ok((b.(rows := b.rows + [row]), Some(requestId)))
            && b.migration == Ready && !HasPending(b.rows, account) && !HasRequest(b.rows, requestId)
            && (last.Some? ==> residualExit && last.value.planId != planId && last.value.completedAt.Some?
                               && last.value.completedAt.value < row.snapshotAt)
            && (latest.Some? && latest.value.completedAt.Some? ==>
                  latest.value.planId == planId || latest.value.completedAt.value < row.snapshotAt)
  {
    row := Reserve(b, account, intent, planId, residualExit, authorize, requestId).value.0.rows[|b.rows|];
  }

  lemma ReserveKeeps(b: Book, account: string, intent: OrderIntent, planId: string, residualExit: bool,
                     authorize: seq<Row> -> Result<int>, requestId: string)
    requires WellKept(b.rows)
    requires Reserve(b, account, intent, planId, residualExit, authorize, requestId).Ok?
    ensures WellKept(Reserve(b, account, intent, planId, residualExit, authorize, requestId).value.0.rows)
  {
    if Reserve(b, account, intent, planId, residualExit, authorize, requestId).value.1.Some? {
      var row := ReserveAppends(b, account, intent, planId, residualExit, authorize, requestId);
      NewRowKeeps(b.rows, row);
    }
  }

  lemma NewRowKeeps(rows: seq<Row>, r: Row)
    requires WellKept(rows) && RowOk(r) && !HasPending(rows, r.account) && !HasRequest(rows, r.requestId)
    requires var last := LastOf(rows, r.account, r.logicalId);
             r.generation == if last.None? then 1 else last.value.generation + 1
    requires var latest := LatestOf(rows, r.account);
             latest.Some? && latest.value.completedAt.Some? ==>
               latest.value.planId == r.planId || latest.value.completedAt.value < r.snapshotAt
    ensures WellKept(rows + [r])
  {
    LastOfIsTheLast(rows, r.account, r.logicalId);
    AppendIsContiguous(rows, r);
    LatestIsTheLatest(rows, r.account);
    AppendIsFresh(rows, r);
    AppendIsSingle(rows, r);
  }

  lemma AppendIsSingle(rows: seq<Row>, r: Row)
    requires SingleFlight(rows) && UniqueRequests(rows)
    requires !HasPending(rows, r.account) && !HasRequest(rows, r.requestId)
    ensures SingleFlight(rows + [r]) && UniqueRequests(rows + [r])
  {
  }

  /** A broker observation changes at most the row it names, which was not terminal. */
  lemma RecordChangesOneRow(b: Book, account: string, result: OrderRecord, now: int) returns (k: nat)
    requires Record(b, account, result, now).Ok?
    ensures k < |b.rows| && b.rows[k].account == account && b.rows[k].requestId == result.intent.orderRequestId
    ensures Record(b, account, result, now).value == b.(rows := Record(b, account, result, now).value.rows)
    ensures var rows := Record(b, account, result, now).value.rows;
            || rows == b.rows
            || (!Terminal(b.rows[k].state) && rows == b.rows[k := Completed(b.rows[k], result, now)]
                && RowEvolves(b.rows[k], rows[k]) && (RowOk(b.rows[k]) ==> RowOk(rows[k])))
  {
    k := IndexOf(b.rows, account, result.intent.orderRequestId);
    assert result.intent == result.intent.(orderRequestId := b.rows[k].logicalId).(orderRequestId := b.rows[k].requestId);
  }

  lemma RecordKeeps(b: Book, account: string, result: OrderRecord, now: int)
    requires WellKept(b.rows) && Record(b, account, result, now).Ok?
    ensures WellKept(Record(b, account, result, now).value.rows)
  {
    var k := RecordChangesOneRow(b, account, result, now);
    var rows := Record(b, account, result, now).value.rows;
    if rows != b.rows {
      UpdateKeeps(b.rows, k, rows[k]);
    }
  }

  lemma UpdateKeeps(rows: seq<Row>, k: nat, r: Row)
    requires WellKept(rows) && k < |rows| && RowEvolves(rows[k], r) && RowOk(r)
    requires !Terminal(rows[k].state)
    ensures WellKept(rows[k := r])
  {
    UpdateIsContiguous(rows, k, r);
    UpdateIsFresh(rows, k, r);
    UpdateIsSingle(rows, k, r);
  }

  lemma UpdateIsSingle(rows: seq<Row>, k: nat, r: Row)
    requires SingleFlight(rows) && UniqueRequests(rows) && k < |rows| && RowEvolves(rows[k], r)
    requires !Terminal(rows[k].state)
    ensures SingleFlight(rows[k := r]) && UniqueRequests(rows[k := r])
  {
  }

  lemma UpdateIsContiguous(rows: seq<Row>, k: nat, r: Row)
    requires Contiguous(rows) && k < |rows| && RowEvolves(rows[k], r)
    ensures Contiguous(rows[k := r])
  {
    var next := rows[k := r];
    forall i | 0 <= i < |next| ensures next[i].generation == 1 + Attempts(next[..i], next[i].account, next[i].logicalId) {
      AttemptsUnchanged(rows[..i], next[..i], next[i].account, next[i].logicalId);
    }
  }

  lemma UpdateIsFresh(rows: seq<Row>, k: nat, r: Row)
    requires FirstActionsAreFresh(rows) && k < |rows| && RowEvolves(rows[k], r)
    requires (rows[k].completedAt.Some? ==> Terminal(rows[k].state)) && !Terminal(rows[k].state)
    ensures FirstActionsAreFresh(rows[k := r])
  {
    var next := rows[k := r];
    forall i, j | 0 <= i < j < |next| && next[i].account == next[j].account && IsFirstOfPlan(next, j)
      ensures next[i].completedAt.Some? && next[i].completedAt.value < next[j].snapshotAt
    {
      FirstOfPlanUnchanged(rows, k, r, j);
    }
  }

  lemma FirstOfPlanUnchanged(rows: seq<Row>, k: nat, r: Row, j: nat)
    requires k < |rows| && RowEvolves(rows[k], r) && j < |rows| && IsFirstOfPlan(rows[k := r], j)
    ensures IsFirstOfPlan(rows, j)
  {
    forall m | 0 <= m < j && rows[m].account == rows[j].account ensures rows[m].planId != rows[j].planId {
      assert rows[k := r][m].account == rows[k := r][j].account;
    }
  }

  lemma {:induction false} AttemptsUnchanged(a: seq<Row>, b: seq<Row>, account: string, logicalId: string)
    requires |a| == |b|
    requires forall i :: 0 <= i < |a| ==> a[i].account == b[i].account && a[i].logicalId == b[i].logicalId
    ensures Attempts(a, account, logicalId) == Attempts(b, account, logicalId)
  {
    if a != [] {
      AttemptsUnchanged(a[..|a| - 1], b[..|b| - 1], account, logicalId);
    }
  }

  lemma ApplyKeeps(b: Book, op: Op)
    requires b.migration == Ready && WellKept(b.rows)
    ensures Apply(b, op).migration == Ready && WellKept(Apply(b, op).rows)
  {
    match op
    case DoReserve(account, intent, planId, residualExit, authorized, requestId) =>
      var auth := _ => authorized;
      if Reserve(b, account, intent, planId, residualExit, auth, requestId).Ok? {
        ReserveKeeps(b, account, intent, planId, residualExit, auth, requestId);
      }
    case DoRecord(account, result, now) =>
      if Record(b, account, result, now).Ok? {
        RecordKeeps(b, account, result, now);
      }
    case DoStage(_, _) =>
  }

  /** The invariant of every ready journal, over all processes, crashes and re-runs. */
  lemma {:induction false} EveryRunIsWellKept(ops: seq<Op>)
    ensures Run(Fresh(false), ops).migration == Ready
    ensures WellKept(Run(Fresh(false), ops).rows)
  {
    if ops != [] {
      EveryRunIsWellKept(ops[..|ops| - 1]);
      ApplyKeeps(Run(Fresh(false), ops[..|ops| - 1]), ops[|ops| - 1]);
    }
  }

  /** At most one action of an account is not terminal. */
  lemma AtMostOneInFlight(ops: seq<Op>, i: nat, j: nat)
    requires var rows := Run(Fresh(false), ops).rows;
             && i < |rows| && j < |rows| && rows[i].account == rows[j].account
             && !Terminal(rows[i].state) && !Terminal(rows[j].state)
    ensures i == j
  {
    EveryRunIsWellKept(ops);
  }

  // ---------------------------------------------------------------- monotonicity

  /** What later transactions may do to a row. */
  ghost predicate RowEvolves(a: Row, b: Row) {
    && b.account == a.account && b.logicalId == a.logicalId && b.generation == a.generation
    && b.requestId == a.requestId && b.payload == a.payload && b.planId == a.planId && b.snapshotAt == a.snapshotAt
    && a.record.filledLots <= b.record.filledLots
    && (Terminal(a.state) ==> b == a)
  }

  ghost predicate Evolves(a: seq<Row>, b: seq<Row>) {
    && |a| <= |b|
    && forall i :: 0 <= i < |a| ==> RowEvolves(a[i], b[i])
  }

  lemma RecordEvolves(b: Book, account: string, result: OrderRecord, now: int)
    requires Record(b, account, result, now).Ok?
    ensures var next := Record(b, account, result, now).value;
            next.migration == b.migration && |next.rows| == |b.rows| && Evolves(b.rows, next.rows)
  {
    var k := RecordChangesOneRow(b, account, result, now);
  }

  lemma ApplyEvolves(b: Book, op: Op)
    requires b.migration == Ready
    ensures Evolves(b.rows, Apply(b, op).rows) && Apply(b, op).migration == Ready
  {
    match op
    case DoReserve(account, intent, planId, residualExit, authorized, requestId) =>
      ReserveEvolves(b, account, intent, planId, residualExit, _ => authorized, requestId);
    case DoRecord(account, result, now) =>
      if Record(b, account, result, now).Ok? {
        RecordEvolves(b, account, result, now);
      }
    case DoStage(_, _) =>
  }

  lemma ReserveEvolves(b: Book, account: string, intent: OrderIntent, planId: string, residualExit: bool,
                       authorize: seq<Row> -> Result<int>, requestId: string)
    ensures var r := Reserve(b, account, intent, planId, residualExit, authorize, requestId);
            r.Ok? ==> Evolves(b.rows, r.value.0.rows) && r.value.0.migration == b.migration
  {
  }

  /** Rows are never deleted, fills never decrease, and a terminal row never changes again. */
  lemma {:induction false} RunEvolves(b: Book, ops: seq<Op>, k: nat)
    requires b.migration == Ready && k <= |ops|
    ensures Run(b, ops).migration == Ready && Run(b, ops[..k]).migration == Ready
    ensures Evolves(Run(b, ops[..k]).rows, Run(b, ops).rows)
  {
    if k == |ops| {
      assert ops[..k] == ops;
      StaysReady(b, ops);
    } else {
      var n := |ops| - 1;
      RunEvolves(b, ops[..n], k);
      assert ops[..n][..k] == ops[..k];
      ApplyEvolves(Run(b, ops[..n]), ops[n]);
      EvolvesIsTransitive(Run(b, ops[..k]).rows, Run(b, ops[..n]).rows, Run(b, ops).rows);
    }
  }

  lemma {:induction false} StaysReady(b: Book, ops: seq<Op>)
    requires b.migration == Ready
    ensures Run(b, ops).migration == Ready
  {
    if ops != [] {
      StaysReady(b, ops[..|ops| - 1]);
      ApplyEvolves(Run(b, ops[..|ops| - 1]), ops[|ops| - 1]);
    }
  }

  lemma EvolvesIsTransitive(a: seq<Row>, b: seq<Row>, c: seq<Row>)
    requires Evolves(a, b) && Evolves(b, c)
    ensures Evolves(a, c)
  {
    forall i | 0 <= i < |a| ensures RowEvolves(a[i], c[i]) {
      assert RowEvolves(a[i], b[i]) && RowEvolves(b[i], c[i]);
    }
  }

  lemma QuarantineStays(b: Book, op: Op)
    requires b.migration == ReviewRequired
    ensures Apply(b, op).migration == ReviewRequired
  {
  }

  /** A quarantined journal never grants a reservation, whatever is staged or recorded in it. */
  lemma {:induction false} QuarantineNeverTrades(ops: seq<Op>, account: string, intent: OrderIntent, planId: string,
                                                 residualExit: bool, authorize: seq<Row> -> Result<int>, requestId: string)
    ensures Run(Fresh(true), ops).migration == ReviewRequired
    ensures Reserve(Run(Fresh(true), ops), account, intent, planId, residualExit, authorize, requestId).Err?
  {
    if ops != [] {
      QuarantineNeverTrades(ops[..|ops| - 1], account, intent, planId, residualExit, authorize, requestId);
      QuarantineStays(Run(Fresh(true), ops[..|ops| - 1]), ops[|ops| - 1]);
    }
  }
}
