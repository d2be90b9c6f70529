/** The stateful `ExecutionJournal` class, each method proved to perform the transaction of `Journal`. */
module JournalStore {
  import opened Domain
  import opened Journal

  class ExecutionJournal {
    var migration: Migration
    var manifest: Option<string>
    var rows: seq<Row>

    function Content(): Book
      reads this
    {
      Book(migration, manifest, rows)
    }

    /** A journal file that did not exist. */
    constructor (migrationRequired: bool)
      ensures Content() == Fresh(migrationRequired)
    {
      migration := if migrationRequired then ReviewRequired else Ready;
      manifest := None;
      rows := [];
    }

    /** Opening an existing journal file again after a crash or in another process. */
    method Reopen(migrationRequired: bool) returns (r: Result<()>)
      ensures r.Ok? <==> !migrationRequired || migration == ReviewRequired
    {
      if migrationRequired && migration != ReviewRequired {
        return Err("cannot import historical records into a trading-ready journal");
      }
      return Ok(());
    }

    static ghost function Open(rows: seq<Row>, n: nat): set<int>
      requires n <= |rows|
    {
      set i | 0 <= i < n && !Terminal(rows[i].state)
    }

    method UnresolvedCount() returns (count: nat)
      ensures count == |Open(rows, |rows|)|
    {
      count := 0;
      for k := 0 to |rows|
        invariant count == |Open(rows, k)|
      {
        if !Terminal(rows[k].state) {
          count := count + 1;
          assert Open(rows, k + 1) == Open(rows, k) + {k};
        } else {
          assert Open(rows, k + 1) == Open(rows, k);
        }
      }
    }

    method Reserve(
      account: string, intent: OrderIntent, planId: string, residualExit: bool,
      authorize: seq<Row> -> Result<int>, requestId: string) returns (r: Result<Option<string>>)
      modifies this
      ensures match Journal.Reserve(old(Content()), account, intent, planId, residualExit, authorize, requestId)
              case Ok(done) => r == Ok(done.1) && Content() == done.0
              case Err(_) => r.Err? && Content() == old(Content())
    {
      var admitted := AdmitOrder(account, intent, planId, residualExit);
      if admitted.Err? {
        return Err(admitted.error);
      }
      if !admitted.value {
        return Ok(None);
      }
      var authorized := authorize(rows);
      if authorized.Err? {
        return Err(authorized.error);
      }
      r := PlaceRow(account, intent, planId, authorized.value, requestId);
    }

    method AdmitOrder(account: string, intent: OrderIntent, planId: string, residualExit: bool)
      returns (r: Result<bool>)
      ensures match Admit(Content(), account, intent, planId, residualExit)
              case Ok(proceed) => r == Ok(proceed)
              case Err(_) => r.Err?
    {
      if migration != Ready {
        return Err(UNDER_REVIEW);
      }
      var last := LastOf(rows, account, intent.orderRequestId);
      if last.Some? && last.value.payload != intent && (last.value.planId == planId || !residualExit) {
        return Err(PAYLOAD_CHANGED);
      }
      if HasPending(rows, account) {
        return Err(ORDER_PENDING);
      }
      if last.Some? && (last.value.planId == planId || !residualExit) {
        return Ok(false);
      }
      return Ok(true);
    }

    method PlaceRow(account: string, intent: OrderIntent, planId: string, snapshotAt: int, requestId: string)
      returns (r: Result<Option<string>>)
      modifies this
      ensures migration == old(migration) && manifest == old(manifest)
      ensures match Place(old(rows), account, intent, planId, snapshotAt, requestId)
              case Ok(next) => r == Ok(Some(requestId)) && rows == next
              case Err(_) => r.Err? && rows == old(rows)
    {
      var last := LastOf(rows, account, intent.orderRequestId);
      var latest := LatestOf(rows, account);
      if latest.Some? && latest.value.planId != planId {
        if latest.value.completedAt.Some? && snapshotAt <= latest.value.completedAt.value {
          return Err(PLAN_SNAPSHOT_TOO_OLD);
        }
      }
      var generation := 1;
      if last.Some? {
        if last.value.completedAt.None? || snapshotAt <= last.value.completedAt.value {
          return Err(EXIT_SNAPSHOT_TOO_OLD);
        }
        generation := last.value.generation + 1;
      }
      if HasRequest(rows, requestId) {
        return Err(REQUEST_EXISTS);
      }
      rows := rows + [NewRow(account, intent, planId, snapshotAt, generation, requestId)];
      return Ok(Some(requestId));
    }

    method Record(account: string, result: OrderRecord, now: int) returns (r: Result<()>)
      modifies this
      ensures match Journal.Record(old(Content()), account, result, now)
              case Ok(next) => r.Ok? && Content() == next
              case Err(_) => r.Err? && Content() == old(Content())
    {
      if !(0 <= result.filledLots <= result.intent.lots) {
        return Err(INVALID_QUANTITY);
      }
      if result.status == Filled && result.filledLots != result.intent.lots {
        return Err(FILLED_IN_PART);
      }
      var i := IndexOf(rows, account, result.intent.orderRequestId);
      if i < 0 {
        return Err(NOT_RESERVED);
      }
      var previous := rows[i];
      if now < previous.snapshotAt {
        return Err(CLOCK_MOVED_BACK);
      }
      if result.intent.(orderRequestId := previous.logicalId) != previous.payload {
        return Err(RESULT_CHANGED);
      }
      if result.filledLots < previous.record.filledLots {
        return Err(QUANTITY_DECREASED);
      }
      if Terminal(previous.state) {
        if Status(result.status) != previous.state || result.filledLots != previous.record.filledLots {
          return Err(TERMINAL_CHANGED);
        }
        return Ok(());
      }
      rows := rows[i := Completed(previous, result, now)];
      return Ok(());
    }

    method StageLegacy(entries: seq<LegacyEntry>, text: string) returns (r: Result<()>)
      modifies this
      ensures match Journal.StageLegacy(old(Content()), entries, text)
              case Ok(next) => r.Ok? && Content() == next
              case Err(_) => r.Err? && Content() == old(Content())
    {
      if migration != ReviewRequired {
        return Err(NOT_QUARANTINED);
      }
      if manifest.Some? {
        if manifest.value != text {
          return Err(MANIFEST_CHANGED);
        }
        return Ok(());
      }
      if rows != [] {
        return Err(CANDIDATE_NOT_EMPTY);
      }
      var staged := StageRows(entries);
      if staged.Err? {
        return Err(staged.error);
      }
      rows := staged.value;
      manifest := Some(text);
      return Ok(());
    }
  }

  /** The insertions, which fail as a whole on an inconsistent quantity or a repeated request id. */
  method StageRows(entries: seq<LegacyEntry>) returns (r: Result<seq<Row>>)
    ensures r.Ok? <==>
            && (forall i :: 0 <= i < |entries| ==> 0 <= entries[i].record.filledLots <= entries[i].record.intent.lots)
            && (forall i, j :: 0 <= i < j < |entries| ==>
                                 LegacyRow(entries[i]).requestId != LegacyRow(entries[j]).requestId)
    ensures r.Ok? ==> r.value == seq(|entries|, i requires 0 <= i < |entries| => LegacyRow(entries[i]))
  {
    var staged: seq<Row> := [];
    for k := 0 to |entries|
      invariant |staged| == k && forall i :: 0 <= i < k ==> staged[i] == LegacyRow(entries[i])
      invariant forall i :: 0 <= i < k ==> 0 <= entries[i].record.filledLots <= entries[i].record.intent.lots
      invariant forall i, j :: 0 <= i < j < k ==> LegacyRow(entries[i]).requestId != LegacyRow(entries[j]).requestId
    {
      var record := entries[k].record;
      if !(0 <= record.filledLots <= record.intent.lots) {
        return Err(LEGACY_INCONSISTENT);
      }
      var row := LegacyRow(entries[k]);
      if HasRequest(staged, row.requestId) {
        return Err(REQUEST_EXISTS);
      }
      staged := staged + [row];
    }
    return Ok(staged);
  }
}
