/**
 The imperative side of src/moex_bot/sandbox_execution.py: the execution loop that mutates the account,
 the reconciliation loop that mutates the journal, and the classification of an expired entry.
 */
module SandboxExecution {
  import opened Domain
  import opened Journal
  import opened JournalTheorems
  import opened JournalRules
  import opened JournalStore
  import opened SandboxProtocol
  import opened SandboxDriver

  /** The sandbox account: journal, broker and every other process. */
  class SandboxAccount {
    var world: World

    constructor (initial: World)
      ensures world == initial
    {
      world := initial;
    }

    method Perform(actions: seq<Action>)
      modifies this
      ensures world == After(old(world), actions)
    {
      world := After(world, actions);
    }

    /** `journal.record`, which refuses inconsistent broker results. */
    method Record(answer: Result<OrderRecord>, ghost r: Run) returns (failure: Option<string>)
      requires r.world == world && r.failure.None?
      modifies this
      ensures world == Recorded(r, answer).world && failure == Recorded(r, answer).failure
    {
      if answer.Err? {
        return Some(answer.error);
      }
      var recorded := Journal.Record(world.book, world.account, answer.value, world.now);
      if recorded.Err? {
        return Some(RESULT_REFUSED);
      }
      Perform([Observe(answer.value)]);
      return None;
    }

    /** `journal.reserve` and, when it is granted and the process lives on, the submission. */
    method Open(attempt: Action, turn: Turn, ghost r: Run) returns (sent: bool, failure: Option<string>)
      requires attempt.Attempt? && attempt.requestId == turn.requestId
      requires r.world == world && r.failure.None?
      modifies this
      ensures var (begun, isSent) := Opened(r, attempt, turn);
              world == begun.world && sent == isSent && failure == begun.failure
    {
      Perform(turn.before);
      var reserved := ReserveResult(world, attempt);
      if reserved.Err? {
        return false, Some(reserved.error);
      }
      if reserved.value.1.None? {
        return false, None;
      }
      Perform([attempt]);
      if turn.dies {
        Perform([SandboxProtocol.Crash(turn.requestId)]);
        return false, Some(PROCESS_DIED);
      }
      Perform([SandboxProtocol.Submit(turn.requestId)]);
      Perform(turn.during);
      return true, None;
    }

    /** Submit the reserved order, settle it, and journal both answers. */
    method Deliver(turn: Turn, ghost r: Run) returns (record: Option<OrderRecord>, failure: Option<string>)
      requires r.world == world && r.failure.None?
      modifies this
      ensures var done := Settled(Recorded(r, turn.reply), turn);
              && world == done.world && failure == done.failure
              && (failure.None? ==> HasFinalRecord(turn)
                                    && record == Some(FinalRecord(turn)))
    {
      record := None;
      ghost var answered := Recorded(r, turn.reply);
      failure := Record(turn.reply, r);
      if failure.Some? {
        return;
      }
      record := Some(turn.reply.value);
      if turn.settled.Some? {
        Perform(turn.settling);
        failure := Record(turn.settled.value, Do(answered, turn.settling));
        if failure.None? {
          record := Some(turn.settled.value.value);
        }
      }
    }
  }

  /** The driver's variables are those of the specified run. */
  predicate Matches(
    world: World, projected: map<string, int>, submitted: seq<OrderRecord>, stopped: Option<OrderStatus>,
    failure: Option<string>, r: Run)
  {
    r == Run(world, r.trace, projected, submitted, stopped, failure)
  }

  /** A halted run stays as it is. */
  lemma {:induction false} HaltedStays(w: World, plan: Plan, turns: seq<Turn>, j: nat, k: nat)
    requires j <= k <= |plan.items| && k <= |turns|
    requires Halted(Drive(w, plan, turns, j))
    ensures Drive(w, plan, turns, k) == Drive(w, plan, turns, j)
  {
    if j < k {
      HaltedStays(w, plan, turns, j, k - 1);
    }
  }

  /** One iteration: the gates, the reservation, the delivery, and the projection of the result. */
  method ExecuteOrder(
    account: SandboxAccount, plan: Plan, item: OrderIntent, turn: Turn,
    projected: map<string, int>, submitted: seq<OrderRecord>, ghost r: Run)
    returns (stopped: Option<OrderStatus>, failure: Option<string>,
             nextProjected: map<string, int>, nextSubmitted: seq<OrderRecord>)
    requires Matches(account.world, projected, submitted, None, None, r)
    modifies account
    ensures Matches(account.world, nextProjected, nextSubmitted, stopped, failure, DriveOne(r, plan, item, turn))
  {
    stopped, failure, nextProjected, nextSubmitted := None, None, projected, submitted;
    var current := Lots(projected, Secid(item));
    if !Gate(item, current) {
      failure := Some(DOES_NOT_FIT);
      return;
    }
    var attempt := Attempt(plan.snapshot, current, item, plan.runId, turn.requestId);
    OpenedReports(r, attempt, turn);
    ghost var begun := Opened(r, attempt, turn).0;
    var sent;
    sent, failure := account.Open(attempt, turn, r);
    if !sent {
      return;
    }
    stopped, failure, nextProjected, nextSubmitted := SettleOrder(account, item, turn, projected, submitted, begun);
  }

  /** The answers to a submitted order, and the projection of the result. */
  method SettleOrder(
    account: SandboxAccount, item: OrderIntent, turn: Turn,
    projected: map<string, int>, submitted: seq<OrderRecord>, ghost r: Run)
    returns (stopped: Option<OrderStatus>, failure: Option<string>,
             nextProjected: map<string, int>, nextSubmitted: seq<OrderRecord>)
    requires Matches(account.world, projected, submitted, None, None, r)
    modifies account
    ensures Matches(account.world, nextProjected, nextSubmitted, stopped, failure,
                    Answered(r, item, Lots(projected, Secid(item)), turn))
  {
    stopped, failure, nextProjected, nextSubmitted := None, None, projected, submitted;
    AnswerIsFinished(r, item, turn);
    var record;
    record, failure := account.Deliver(turn, r);
    if failure.Some? {
      return;
    }
    nextSubmitted := submitted + [record.value];
    nextProjected :=
      projected[Secid(item) := Lots(projected, Secid(item)) + Signed(item.side, record.value.filledLots)];
    if record.value.status != Filled {
      stopped := Some(record.value.status);
    }
  }

  /** The next iteration of a run. */
  method ExecuteNext(
    account: SandboxAccount, plan: Plan, turns: seq<Turn>, k: nat, projected: map<string, int>,
    submitted: seq<OrderRecord>, ghost start: World)
    returns (stopped: Option<OrderStatus>, failure: Option<string>,
             nextProjected: map<string, int>, nextSubmitted: seq<OrderRecord>)
    requires k < |plan.items| == |turns|
    requires Matches(account.world, projected, submitted, None, None, Drive(start, plan, turns, k))
    modifies account
    ensures Matches(account.world, nextProjected, nextSubmitted, stopped, failure, Drive(start, plan, turns, k + 1))
  {
    stopped, failure, nextProjected, nextSubmitted :=
      ExecuteOrder(account, plan, plan.items[k], turns[k], projected, submitted, Drive(start, plan, turns, k));
  }

  /** Where a run that stopped at step `k` ends. */
  lemma RunEnds(w: World, plan: Plan, turns: seq<Turn>, k: nat, world: World, projected: map<string, int>,
                submitted: seq<OrderRecord>, stopped: Option<OrderStatus>, failure: Option<string>)
    requires k <= |plan.items| == |turns|
    requires Matches(world, projected, submitted, stopped, failure, Drive(w, plan, turns, k))
    requires k < |plan.items| ==> stopped.Some? || failure.Some?
    ensures Matches(world, projected, submitted, stopped, failure, Drive(w, plan, turns, |plan.items|))
  {
    if k < |plan.items| {
      HaltedStays(w, plan, turns, k, |plan.items|);
    }
  }

  /** `execute_shadow_plan` from its loop on. */
  method ExecutePlan(account: SandboxAccount, plan: Plan, turns: seq<Turn>)
    returns (projected: map<string, int>, submitted: seq<OrderRecord>, stopped: Option<OrderStatus>,
             failure: Option<string>)
    requires |turns| == |plan.items|
    modifies account
    ensures Matches(account.world, projected, submitted, stopped, failure,
                    Drive(old(account.world), plan, turns, |plan.items|))
  {
    ghost var start := account.world;
    projected := plan.snapshot.lots;
    submitted, stopped, failure := [], None, None;
    var k := 0;
    while k < |plan.items| && stopped.None? && failure.None?
      invariant k <= |plan.items|
      invariant Matches(account.world, projected, submitted, stopped, failure, Drive(start, plan, turns, k))
    {
      stopped, failure, projected, submitted := ExecuteNext(account, plan, turns, k, projected, submitted, start);
      k := k + 1;
    }
    RunEnds(start, plan, turns, k, account.world, projected, submitted, stopped, failure);
  }

  /** What the specified run does with a submitted order, in terms of the answers to it. */
  lemma AnswerIsFinished(sent: Run, item: OrderIntent, turn: Turn)
    requires sent.failure.None? && sent.stopped.None?
    ensures var done := Settled(Recorded(sent, turn.reply), turn);
            var next := Answered(sent, item, Lots(sent.projected, Secid(item)), turn);
            && next.world == done.world && next.failure == done.failure
            && (done.failure.Some? ==> SameReport(sent, next))
            && (done.failure.None? ==>
                  && HasFinalRecord(turn)
                  && Reports(sent, item, FinalRecord(turn), next))
  {
    SentReports(sent, sent, item, turn);
  }

  // ---------------------------------------------------------------- reconciliation

  /** `reconcile_execution_journal` over the first `k` unresolved orders: what was recorded stays, even on an error. */
  function Reconciled(b: Book, account: string, lookups: seq<Result<OrderRecord>>, now: int, k: nat): (Book, Option<string>)
    requires k <= |lookups|
  {
    if k == 0 then (b, None)
    else
      var before := Reconciled(b, account, lookups, now, k - 1);
      if before.1.Some? then before else Observed(before.0, account, lookups[k - 1], now)
  }

  function Observed(b: Book, account: string, lookup: Result<OrderRecord>, now: int): (Book, Option<string>) {
    if lookup.Err? then (b, Some(lookup.error))
    else
      var r := Journal.Record(b, account, lookup.value, now);
      if r.Err? then (b, Some(RESULT_REFUSED)) else (r.value, None)
  }

  /** Read broker state for every unresolved order; `lookups` are the broker's answers in that order. */
  method ReconcileJournal(journal: ExecutionJournal, account: string, lookups: seq<Result<OrderRecord>>, now: int)
    returns (remaining: Result<nat>)
    requires |lookups| == |Unresolved(journal.rows, account)|
    modifies journal
    ensures var done := Reconciled(old(journal.Content()), account, lookups, now, |lookups|);
            && journal.Content() == done.0 && (remaining.Ok? <==> done.1.None?)
            && (remaining.Ok? ==> remaining.value == |Unresolved(journal.rows, account)|)
  {
    ghost var start := journal.Content();
    var failure: Option<string> := None;
    var k := 0;
    while k < |lookups| && failure.None?
      invariant k <= |lookups| && Reconciled(start, account, lookups, now, k) == (journal.Content(), failure)
    {
      failure := ReconcileOne(journal, account, lookups[k], now);
      k := k + 1;
    }
    if failure.Some? {
      FailureStays(start, account, lookups, now, k, |lookups|);
      return Err(failure.value);
    }
    return Ok(|Unresolved(journal.rows, account)|);
  }

  method ReconcileOne(journal: ExecutionJournal, account: string, lookup: Result<OrderRecord>, now: int)
    returns (failure: Option<string>)
    modifies journal
    ensures (journal.Content(), failure) == Observed(old(journal.Content()), account, lookup, now)
  {
    if lookup.Err? {
      return Some(lookup.error);
    }
    var recorded := journal.Record(account, lookup.value, now);
    return if recorded.Err? then Some(RESULT_REFUSED) else None;
  }

  lemma {:induction false} FailureStays(
    b: Book, account: string, lookups: seq<Result<OrderRecord>>, now: int, j: nat, k: nat)
    requires j <= k <= |lookups| && Reconciled(b, account, lookups, now, j).1.Some?
    ensures Reconciled(b, account, lookups, now, k) == Reconciled(b, account, lookups, now, j)
  {
    if j < k {
      FailureStays(b, account, lookups, now, j, k - 1);
    }
  }

  ghost predicate OnlyObserved(b: Book, after: Book) {
    && after.migration == Ready && WellKept(after.rows)
    && |after.rows| == |b.rows| && Evolves(b.rows, after.rows)
  }

  /** Reconciliation never reserves, deletes or reopens anything: rows only learn what the broker says. */
  lemma {:induction false} ReconciliationOnlyObserves(
    b: Book, account: string, lookups: seq<Result<OrderRecord>>, now: int, k: nat)
    requires k <= |lookups| && b.migration == Ready && WellKept(b.rows)
    ensures OnlyObserved(b, Reconciled(b, account, lookups, now, k).0)
  {
    if k > 0 {
      ReconciliationOnlyObserves(b, account, lookups, now, k - 1);
      ObservationOnlyObserves(b, Reconciled(b, account, lookups, now, k - 1).0, account, lookups[k - 1], now);
    }
  }

  lemma ObservationOnlyObserves(b: Book, before: Book, account: string, lookup: Result<OrderRecord>, now: int)
    requires OnlyObserved(b, before)
    ensures OnlyObserved(b, Observed(before, account, lookup, now).0)
  {
    if lookup.Ok? && Journal.Record(before, account, lookup.value, now).Ok? {
      RecordOnlyObserves(before, account, lookup.value, now);
      EvolvesIsTransitive(b.rows, before.rows, Journal.Record(before, account, lookup.value, now).value.rows);
    }
  }

  lemma RecordOnlyObserves(b: Book, account: string, result: OrderRecord, now: int)
    requires b.migration == Ready && WellKept(b.rows) && Journal.Record(b, account, result, now).Ok?
    ensures OnlyObserved(b, Journal.Record(b, account, result, now).value)
  {
    RecordKeeps(b, account, result, now);
    RecordEvolves(b, account, result, now);
  }

  /** The journal knows at least what the answer says: its executed lots, and its status if that is final. */
  ghost predicate Knows(b: Book, account: string, result: OrderRecord) {
    exists k :: 0 <= k < |b.rows| && KnowsIn(b.rows[k], account, result)
  }

  predicate KnowsIn(r: Row, account: string, result: OrderRecord) {
    && Names(r, account, result) && result.filledLots <= r.record.filledLots
    && (IsFinal(Status(result.status)) ==> r.state == Status(result.status) && r.record.filledLots == result.filledLots)
  }

  lemma KnowledgeStays(b: Book, after: Book, account: string, result: OrderRecord)
    requires Knows(b, account, result) && Evolves(b.rows, after.rows)
    ensures Knows(after, account, result)
  {
    var k :| 0 <= k < |b.rows| && KnowsIn(b.rows[k], account, result);
    assert RowEvolves(b.rows[k], after.rows[k]) && KnowsIn(after.rows[k], account, result);
  }

  lemma RecordIsKnown(b: Book, account: string, result: OrderRecord, now: int)
    requires WellKept(b.rows) && Journal.Record(b, account, result, now).Ok?
    ensures Knows(Journal.Record(b, account, result, now).value, account, result)
  {
    RecordIsAcceptedIff(b, account, result, now);
    var k: nat :| k < |b.rows| && Names(b.rows[k], account, result) && Agrees(b.rows[k], result, now);
    RecordTellsTheAnswer(b, account, result, now, k);
    assert KnowsIn(Journal.Record(b, account, result, now).value.rows[k], account, result);
  }

  ghost predicate KnowsAll(b: Book, account: string, lookups: seq<Result<OrderRecord>>, k: nat)
    requires k <= |lookups|
  {
    forall j :: 0 <= j < k ==> lookups[j].Ok? && Knows(b, account, lookups[j].value)
  }

  lemma KnowsOneMore(b: Book, after: Book, account: string, lookups: seq<Result<OrderRecord>>, k: nat)
    requires k < |lookups| && KnowsAll(b, account, lookups, k) && Evolves(b.rows, after.rows)
    requires lookups[k].Ok? && Knows(after, account, lookups[k].value)
    ensures KnowsAll(after, account, lookups, k + 1)
  {
    forall j | 0 <= j < k ensures Knows(after, account, lookups[j].value) {
      KnowledgeStays(b, after, account, lookups[j].value);
    }
  }

  /** The journal is well kept, and without a failure so far it knows every answer. */
  ghost predicate IsKnown(done: (Book, Option<string>), account: string, lookups: seq<Result<OrderRecord>>, k: nat)
    requires k <= |lookups|
  {
    && done.0.migration == Ready && WellKept(done.0.rows)
    && (done.1.None? ==> KnowsAll(done.0, account, lookups, k))
  }

  lemma OneMoreIsKnown(before: (Book, Option<string>), done: (Book, Option<string>), account: string,
                       lookups: seq<Result<OrderRecord>>, now: int, k: nat)
    requires k < |lookups| && IsKnown(before, account, lookups, k)
    requires done == if before.1.Some? then before else Observed(before.0, account, lookups[k], now)
    ensures IsKnown(done, account, lookups, k + 1)
  {
    if before.1.None? {
      ObservationOnlyObserves(before.0, before.0, account, lookups[k], now);
      if Observed(before.0, account, lookups[k], now).1.None? {
        ObservedIsKnown(before.0, account, lookups[k], now);
        KnowsOneMore(before.0, Observed(before.0, account, lookups[k], now).0, account, lookups, k);
      }
    }
  }

  /** After a reconciliation without a failure the journal knows every answer of the broker. */
  lemma {:induction false} ReconciliationIsKnown(
    b: Book, account: string, lookups: seq<Result<OrderRecord>>, now: int, k: nat, done: (Book, Option<string>))
    requires k <= |lookups| && b.migration == Ready && WellKept(b.rows)
    requires done == Reconciled(b, account, lookups, now, k)
    ensures IsKnown(done, account, lookups, k)
  {
    if k == 0 {
      NothingIsKnown(b, account, lookups);
    } else {
      var before := Reconciled(b, account, lookups, now, k - 1);
      ReconciliationIsKnown(b, account, lookups, now, k - 1, before);
      OneMoreIsKnown(before, done, account, lookups, now, k - 1);
    }
  }

  lemma NothingIsKnown(b: Book, account: string, lookups: seq<Result<OrderRecord>>)
    requires b.migration == Ready && WellKept(b.rows)
    ensures IsKnown((b, None), account, lookups, 0)
  {
  }

  lemma ObservedIsKnown(b: Book, account: string, lookup: Result<OrderRecord>, now: int)
    requires WellKept(b.rows) && Observed(b, account, lookup, now).1.None?
    ensures var after := Observed(b, account, lookup, now).0;
            lookup.Ok? && Knows(after, account, lookup.value) && Evolves(b.rows, after.rows)
  {
    RecordIsKnown(b, account, lookup.value, now);
    RecordEvolves(b, account, lookup.value, now);
  }

  /** A reconciliation fails exactly at the first lookup that fails, or whose answer names no row that it agrees with. */
  lemma ReconciliationFailsIff(b: Book, account: string, lookups: seq<Result<OrderRecord>>, now: int, k: nat)
    requires k < |lookups| && b.migration == Ready && WellKept(b.rows)
    requires Reconciled(b, account, lookups, now, k).1.None?
    ensures var before := Reconciled(b, account, lookups, now, k).0;
            Reconciled(b, account, lookups, now, k + 1).1.None? <==>
            && lookups[k].Ok?
            && exists i :: 0 <= i < |before.rows| && Names(before.rows[i], account, lookups[k].value)
                           && Agrees(before.rows[i], lookups[k].value, now)
  {
    ReconciliationOnlyObserves(b, account, lookups, now, k);
    if lookups[k].Ok? {
      RecordIsAcceptedIff(Reconciled(b, account, lookups, now, k).0, account, lookups[k].value, now);
    }
  }

  /** Trading is blocked exactly while something is unresolved, and that is at most one order. */
  lemma {:induction false} UnresolvedIsWhatBlocks(rows: seq<Row>, account: string)
    requires SingleFlight(rows)
    ensures |Unresolved(rows, account)| == if HasPending(rows, account) then 1 else 0
  {
    if rows != [] {
      var n := |rows| - 1;
      UnresolvedIsWhatBlocks(rows[..n], account);
      if HasPending(rows[..n], account) {
        var i :| 0 <= i < n && rows[i].account == account && !Terminal(rows[i].state);
        assert rows[n].account != account;
      }
      if HasPending(rows, account) && Terminal(rows[n].state) {
        var i :| 0 <= i < |rows| && rows[i].account == account && !Terminal(rows[i].state);
        assert rows[..n][i] == rows[i];
      }
    }
  }

  /** A final broker answer about the order in flight lets the account trade again. */
  lemma FinalAnswerUnblocks(b: Book, account: string, result: OrderRecord, now: int, i: nat)
    requires WellKept(b.rows) && i < |b.rows| && b.rows[i].account == account && !Terminal(b.rows[i].state)
    requires result.intent.orderRequestId == b.rows[i].requestId && TerminalStatus(result.status)
    requires Journal.Record(b, account, result, now).Ok?
    ensures !HasPending(Journal.Record(b, account, result, now).value.rows, account)
  {
    var k := RecordChangesOneRow(b, account, result, now);
    assert k == i;
    var rows := Journal.Record(b, account, result, now).value.rows;
    assert rows == b.rows[k := Completed(b.rows[k], result, now)];
    OthersAreFinal(b.rows, i, Completed(b.rows[i], result, now));
  }

  /** Every row but the one in flight is final. */
  lemma OthersAreFinal(rows: seq<Row>, i: nat, r: Row)
    requires SingleFlight(rows) && i < |rows| && !Terminal(rows[i].state) && Terminal(r.state)
    ensures !HasPending(rows[i := r], rows[i].account)
  {
  }

  // ---------------------------------------------------------------- an entry that expired

  /** What `str.strip` takes away. */
  predicate IsSpace(c: char) {
    var n := c as int;
    || 9 <= n <= 13 || 28 <= n <= 32 || n == 133 || n == 160 || n == 5760 || 8192 <= n <= 8202
    || n == 8232 || n == 8233 || n == 8239 || n == 8287 || n == 12288
  }

  predicate Blank(s: string) {
    forall c :: c in s ==> IsSpace(c)
  }

  /** `expected_intraday_ttl_stop` */
  predicate ExpectedTtlStop(runId: string, submitted: seq<OrderRecord>, stopped: Option<OrderStatus>) {
    && "intraday-" <= runId && stopped == Some(Cancelled) && submitted != []
    && (forall i :: 0 <= i < |submitted| - 1 ==>
                      submitted[i].status == Filled && submitted[i].filledLots == submitted[i].intent.lots)
    && ExpiredUnfilled(submitted[|submitted| - 1])
  }

  predicate ExpiredUnfilled(last: OrderRecord) {
    && last.status == Cancelled && last.statusDetail == "ttl_expired" && last.filledLots == 0
    && last.intent.orderType == "limit" && last.brokerOrderId.Some? && !Blank(last.brokerOrderId.value)
  }

  /** The record of a limit order that the broker took and that expired with nothing filled. */
  ghost predicate IsExpiry(record: OrderRecord) {
    exists intent: OrderIntent, id ::
      && record == OrderRecord(intent, Cancelled, 0, Some(id), "ttl_expired") && intent.orderType == "limit"
      && exists i :: 0 <= i < |id| && !IsSpace(id[i])
  }

  lemma ExpiryMeans(record: OrderRecord)
    ensures ExpiredUnfilled(record) <==> IsExpiry(record)
  {
    if ExpiredUnfilled(record) {
      var id := record.brokerOrderId.value;
      var c :| c in id && !IsSpace(c);
      var i :| 0 <= i < |id| && id[i] == c;
      assert record == OrderRecord(record.intent, Cancelled, 0, Some(id), "ttl_expired");
    }
  }

  /** For results of the driver the classification depends on the plan kind and the last order alone. */
  lemma ExpectedStopIsAboutTheLastOrder(runId: string, w: World, plan: Plan, turns: seq<Turn>)
    requires |turns| == |plan.items|
    ensures var r := Drive(w, plan, turns, |plan.items|);
            ExpectedTtlStop(runId, r.submitted, r.stopped) <==>
            "intraday-" <= runId && r.submitted != [] && IsExpiry(r.submitted[|r.submitted| - 1])
  {
    StopsAtTheFirstUnfilled(w, plan, turns, |plan.items|);
    var r := Drive(w, plan, turns, |plan.items|);
    ReportedStopMeans(runId, r.submitted, r.stopped);
  }

  lemma ReportedStopMeans(runId: string, submitted: seq<OrderRecord>, stopped: Option<OrderStatus>)
    requires WellReported(submitted, stopped)
    ensures ExpectedTtlStop(runId, submitted, stopped) <==>
            "intraday-" <= runId && submitted != [] && IsExpiry(submitted[|submitted| - 1])
  {
    if submitted != [] {
      ExpiryMeans(submitted[|submitted| - 1]);
    }
  }
}
