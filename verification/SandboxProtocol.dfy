/**
 The sandbox account as a protocol: driver processes that reserve, submit and record through the
 durable journal (src/moex_bot/sandbox_execution.py), a broker that fills and closes orders when it
 likes, crashes, re-runs and reconciliations, interleaved in any order.
 */
module SandboxProtocol {
  import opened Domain
  import opened Journal
  import opened JournalTheorems

  /** Broker positions, read after the instant `started`. */
  datatype Snapshot = Snapshot(started: int, lots: map<string, int>)

  datatype World = World(
    account: string,
    now: int,                   // the journal clock
    book: Book,                 // the durable journal
    opening: map<string, int>,  // positions before the first journaled order
    fills: map<string, int>,    // lots the broker really executed, by request id
    closed: set<string>,        // orders the broker will never fill again
    ready: set<string>,         // reserved by a live process, not yet sent
    sent: seq<string>,          // the requests that reached the broker, in order
    snaps: seq<Snapshot>)       // every snapshot ever taken; a process may use any of them

  datatype Action =
    | Tick(seconds: nat)
    | Capture(snapshot: Snapshot)
    | Attempt(snapshot: Snapshot, basis: int, intent: OrderIntent, planId: string, requestId: string)
    | Submit(id: string)
    | Crash(id: string)
    | Execute(id: string, lots: nat)
    | Close(id: string)
    | Observe(result: OrderRecord)

  const MANDATORY_FLAT := "intraday mandatory flat"

  predicate IsFlat(o: OrderIntent) {
    o.rationale == MANDATORY_FLAT
  }

  function Secid(o: OrderIntent): string {
    o.instrument.secid
  }

  /** The driver's checks on an order against the projected position, before it reserves. */
  predicate Gate(o: OrderIntent, current: int) {
    var resulting := current + Signed(o.side, o.lots);
    && Shorts(current, resulting) == o.confirmMarginTrade
    && (Shorts(current, resulting) ==> o.instrument.shortEnabled)
    && (IsFlat(o) ==> Reduces(current, resulting))
  }

  function FillsOf(fills: map<string, int>, id: string): int {
    if id in fills then fills[id] else 0
  }

  /** What the broker really executed of these rows in one security, signed. */
  function Executed(rows: seq<Row>, fills: map<string, int>, secid: string): int {
    if rows == [] then 0
    else
      var r := rows[|rows| - 1];
      Executed(rows[..|rows| - 1], fills, secid)
      + if Secid(r.payload) == secid then Signed(r.payload.side, FillsOf(fills, r.requestId)) else 0
  }

  function Position(w: World, secid: string): int {
    Lots(w.opening, secid) + Executed(w.book.rows, w.fills, secid)
  }

  function LotsOfRequest(rows: seq<Row>, id: string): int {
    if rows == [] then 0
    else if rows[|rows| - 1].requestId == id then rows[|rows| - 1].payload.lots
    else LotsOfRequest(rows[..|rows| - 1], id)
  }

  /** No authorization callback: the snapshot's own instant is used. */
  function SnapshotTime(started: int): seq<Row> -> Result<int> {
    _ => Ok(started)
  }

  function ReserveResult(w: World, a: Action): Result<(Book, Option<string>)>
    requires a.Attempt?
  {
    Reserve(w.book, w.account, a.intent, a.planId, IsFlat(a.intent), SnapshotTime(a.snapshot.started), a.requestId)
  }

  /**
   What each party may do. A driver gates an order on the lots `basis` it projects for the security, which
   differ from the snapshot's once it executed that security itself. The broker may answer anything, but
   reports an order final only if it is.
   */
  ghost predicate Enabled(w: World, a: Action) {
    match a
    case Tick(_) => true
    case Capture(s) => s.started <= w.now && forall x :: Lots(s.lots, x) == Position(w, x)
    case Attempt(s, basis, intent, _, _) => s in w.snaps && Gate(intent, basis)
    case Submit(id) => id in w.ready
    case Crash(id) => id in w.ready
    case Execute(id, lots) =>
      id in w.sent && id !in w.closed && FillsOf(w.fills, id) + lots <= LotsOfRequest(w.book.rows, id)
    case Close(id) => HasRequest(w.book.rows, id) && id !in w.ready
    case Observe(result) => TerminalStatus(result.status) ==> result.intent.orderRequestId in w.closed
  }

  /** The journal grants a new reservation, which obliges the process to submit it. */
  predicate Granted(w: World, a: Action) {
    a.Attempt? && ReserveResult(w, a).Ok? && ReserveResult(w, a).value.1.Some?
  }

  function Next(w: World, a: Action): World {
    match a
    case Tick(seconds) => w.(now := w.now + seconds)
    case Capture(s) => w.(snaps := w.snaps + [s])
    case Attempt(_, _, _, _, requestId) =>
      if !Granted(w, a) then w
      else w.(book := ReserveResult(w, a).value.0, ready := w.ready + {requestId})
    case Submit(id) => w.(ready := w.ready - {id}, sent := w.sent + [id])
    case Crash(id) => w.(ready := w.ready - {id})
    case Execute(id, lots) => w.(fills := w.fills[id := FillsOf(w.fills, id) + lots])
    case Close(id) => w.(closed := w.closed + {id})
    case Observe(result) =>
      var r := Record(w.book, w.account, result, w.now);
      if r.Err? then w else w.(book := r.value)
  }

  /** A plan holds one order per security, so the lots it projects for a new order are the snapshot's. */
  ghost predicate OnePerSecurity(w: World, a: Action) {
    a.Attempt? ==>
      && a.basis == Lots(a.snapshot.lots, Secid(a.intent))
      && forall r :: r in w.book.rows && r.planId == a.planId && Secid(r.payload) == Secid(a.intent) ==>
                       r.logicalId == a.intent.orderRequestId
  }

  function Initial(account: string, opening: map<string, int>, now: int): World {
    World(account, now, Fresh(false), opening, map[], {}, {}, [], [])
  }

  function After(w: World, actions: seq<Action>): World {
    if actions == [] then w else Next(After(w, actions[..|actions| - 1]), actions[|actions| - 1])
  }

  /** Every run: any interleaving of actions that their parties may take. */
  ghost predicate Lawful(w: World, actions: seq<Action>) {
    actions != [] ==>
      var n := |actions| - 1;
      Lawful(w, actions[..n]) && Enabled(After(w, actions[..n]), actions[n])
  }

  /** Every plan of the run holds one order per security. */
  ghost predicate SingleOrders(w: World, actions: seq<Action>) {
    actions != [] ==>
      var n := |actions| - 1;
      SingleOrders(w, actions[..n]) && OnePerSecurity(After(w, actions[..n]), actions[n])
  }

  // ---------------------------------------------------------------- what every action keeps

  /** Requests: each is sent at most once, and only fills after it was sent. */
  ghost predicate Delivery(w: World) {
    && (forall id :: id in w.ready ==> HasRequest(w.book.rows, id) && id !in w.sent)
    && (forall id :: id in w.sent ==> HasRequest(w.book.rows, id))
    && (forall a, b :: 0 <= a < b < |w.sent| ==> w.sent[a] != w.sent[b])
    && (forall id :: id in w.fills ==> id in w.sent)
  }

  ghost predicate Journaled(w: World) {
    && w.book.migration == Ready && WellKept(w.book.rows)
    && (forall r :: r in w.book.rows ==> r.account == w.account)
    && (forall r :: r in w.book.rows && r.generation != 1 ==> IsFlat(r.payload))
    && (forall r :: r in w.book.rows && Terminal(r.state) ==> r.requestId in w.closed)
  }

  ghost predicate Base(w: World) {
    Journaled(w) && Delivery(w)
  }

  /** A granted reservation: the row it appends and what was checked. */
  lemma GrantAppends(w: World, a: Action) returns (row: Row)
    requires Journaled(w) && Granted(w, a)
    ensures var rows := w.book.rows;
            && Next(w, a) == w.(book := w.book.(rows := rows + [row]), ready := w.ready + {a.requestId})
            && row.account == w.account && row.logicalId == a.intent.orderRequestId && row.payload == a.intent
            && row.planId == a.planId && row.requestId == a.requestId && row.state == RequestPending
            && row.snapshotAt == a.snapshot.started && row.completedAt == None
            && (row.generation == 1 || IsFlat(a.intent))
            && WellKept(rows + [row])
            && !HasPending(rows, w.account) && !HasRequest(rows, a.requestId)
            && (var last := LastOf(rows, w.account, row.logicalId);
                last.Some? ==> last.value.planId != a.planId && last.value.completedAt.Some?
                               && last.value.completedAt.value < row.snapshotAt)
            && (LatestOf(rows, w.account).Some? && LatestOf(rows, w.account).value.completedAt.Some? ==>
                  || LatestOf(rows, w.account).value.planId == a.planId
                  || LatestOf(rows, w.account).value.completedAt.value < row.snapshotAt)
  {
    var authorize := SnapshotTime(a.snapshot.started);
    row := ReserveAppends(w.book, w.account, a.intent, a.planId, IsFlat(a.intent), authorize, a.requestId);
    ReserveKeeps(w.book, w.account, a.intent, a.planId, IsFlat(a.intent), authorize, a.requestId);
  }

  lemma GrantKeepsBase(w: World, a: Action)
    requires Base(w) && Granted(w, a)
    ensures Base(Next(w, a))
  {
    var row := GrantAppends(w, a);
    RequestsGrow(w.book.rows, row);
    AppendStaysJournaled(w, Next(w, a), row);
    AppendStaysDelivered(w, Next(w, a), row);
  }

  lemma AppendStaysJournaled(w: World, next: World, row: Row)
    requires Journaled(w) && next.book == w.book.(rows := w.book.rows + [row]) && WellKept(next.book.rows)
    requires next.account == w.account && next.closed == w.closed && row.account == w.account
    requires !Terminal(row.state) && (row.generation == 1 || IsFlat(row.payload))
    ensures Journaled(next)
  {
  }

  lemma AppendStaysDelivered(w: World, next: World, row: Row)
    requires Delivery(w) && !HasRequest(w.book.rows, row.requestId) && next.ready == w.ready + {row.requestId}
    requires forall id :: HasRequest(next.book.rows, id) <==> HasRequest(w.book.rows, id) || id == row.requestId
    requires next.sent == w.sent && next.fills == w.fills
    ensures Delivery(next)
  {
  }

  lemma RequestsGrow(rows: seq<Row>, r: Row)
    ensures forall id :: HasRequest(rows + [r], id) <==> HasRequest(rows, id) || id == r.requestId
    ensures forall x :: x in rows + [r] <==> x in rows || x == r
  {
    forall id ensures HasRequest(rows + [r], id) <==> HasRequest(rows, id) || id == r.requestId {
      if HasRequest(rows, id) {
        var i :| 0 <= i < |rows| && rows[i].requestId == id;
        assert (rows + [r])[i].requestId == id;
      }
      if id == r.requestId {
        assert (rows + [r])[|rows|].requestId == id;
      }
    }
  }

  /** `next` differs from `w` in one row that was not complete, which keeps its identity. */
  ghost predicate Rewrites(w: World, next: World, k: nat) {
    && k < |w.book.rows| == |next.book.rows|
    && next == w.(book := next.book)
    && next.book.rows == w.book.rows[k := next.book.rows[k]]
    && w.book.rows[k].completedAt.None?
    && var a, b := w.book.rows[k], next.book.rows[k];
       && b.requestId == a.requestId && b.payload == a.payload && b.planId == a.planId && b.snapshotAt == a.snapshotAt
       && b.account == a.account && b.logicalId == a.logicalId && b.generation == a.generation
       && (b.completedAt.Some? ==> b.completedAt.value == w.now)
       && (Terminal(b.state) ==> b.requestId in w.closed)
  }

  lemma ObserveStaysWellKept(w: World, result: OrderRecord)
    requires w.book.migration == Ready && WellKept(w.book.rows)
    ensures Next(w, Observe(result)).book.migration == Ready
    ensures WellKept(Next(w, Observe(result)).book.rows)
  {
    if Record(w.book, w.account, result, w.now).Ok? {
      RecordKeeps(w.book, w.account, result, w.now);
      var k := RecordChangesOneRow(w.book, w.account, result, w.now);
    }
  }

  lemma ObserveRewrites(w: World, result: OrderRecord) returns (k: nat)
    requires forall i :: 0 <= i < |w.book.rows| ==> (w.book.rows[i].completedAt.Some? ==> Terminal(w.book.rows[i].state))
    requires Enabled(w, Observe(result))
    ensures Next(w, Observe(result)) == w || Rewrites(w, Next(w, Observe(result)), k)
  {
    k := 0;
    if Record(w.book, w.account, result, w.now).Ok? {
      var b := Record(w.book, w.account, result, w.now).value;
      assert Next(w, Observe(result)) == w.(book := b);
      k := RecordChangesOneRow(w.book, w.account, result, w.now);
      if b.rows != w.book.rows {
        assert b.rows[k] == Completed(w.book.rows[k], result, w.now);
      }
    }
  }

  lemma CompletedIsTerminal(w: World)
    requires WellKept(w.book.rows)
    ensures forall i :: 0 <= i < |w.book.rows| ==> (w.book.rows[i].completedAt.Some? ==> Terminal(w.book.rows[i].state))
  {
    forall i | 0 <= i < |w.book.rows| ensures w.book.rows[i].completedAt.Some? ==> Terminal(w.book.rows[i].state) {
      assert RowOk(w.book.rows[i]);
    }
  }

  lemma RequestsStay(rows: seq<Row>, k: nat, r: Row)
    requires k < |rows| && r.requestId == rows[k].requestId
    ensures forall id :: HasRequest(rows[k := r], id) <==> HasRequest(rows, id)
  {
    forall id ensures HasRequest(rows[k := r], id) <==> HasRequest(rows, id) {
      if HasRequest(rows, id) {
        var i :| 0 <= i < |rows| && rows[i].requestId == id;
        assert rows[k := r][i].requestId == id;
      }
      if HasRequest(rows[k := r], id) {
        var i :| 0 <= i < |rows| && rows[k := r][i].requestId == id;
        assert rows[i].requestId == id;
      }
    }
  }

  lemma RewriteKeepsBase(w: World, next: World, k: nat)
    requires Base(w) && Rewrites(w, next, k) && next.book.migration == Ready && WellKept(next.book.rows)
    ensures Base(next)
  {
    var rows := next.book.rows;
    RequestsStay(w.book.rows, k, rows[k]);
    forall r | r in rows ensures r in w.book.rows || r == rows[k] {
    }
    assert w.book.rows[k] in w.book.rows;
  }

  lemma NextKeepsBase(w: World, a: Action)
    requires Base(w) && Enabled(w, a)
    ensures Base(Next(w, a))
  {
    if Granted(w, a) {
      GrantKeepsBase(w, a);
    } else if a.Observe? {
      CompletedIsTerminal(w);
      ObserveStaysWellKept(w, a.result);
      var k := ObserveRewrites(w, a.result);
      if Next(w, a) != w {
        RewriteKeepsBase(w, Next(w, a), k);
      }
    }
  }

  lemma {:induction false} EveryRunIsBased(account: string, opening: map<string, int>, now: int, actions: seq<Action>)
    requires Lawful(Initial(account, opening, now), actions)
    ensures Base(After(Initial(account, opening, now), actions))
  {
    var w := Initial(account, opening, now);
    if actions != [] {
      var n := |actions| - 1;
      EveryRunIsBased(account, opening, now, actions[..n]);
      NextKeepsBase(After(w, actions[..n]), actions[n]);
    }
  }

  /**
   At most once: over all crashes, re-runs and reconciliations, a logical order that is not a
   mandatory flat reaches the broker at most once, and no request is ever sent twice.
   */
  lemma AtMostOnce(account: string, opening: map<string, int>, now: int, actions: seq<Action>,
                   a: nat, b: nat, i: nat, j: nat)
    requires Lawful(Initial(account, opening, now), actions)
    requires var w := After(Initial(account, opening, now), actions);
             && a < |w.sent| && b < |w.sent| && i < |w.book.rows| && j < |w.book.rows|
             && w.sent[a] == w.book.rows[i].requestId && w.sent[b] == w.book.rows[j].requestId
             && w.book.rows[i].logicalId == w.book.rows[j].logicalId
             && !IsFlat(w.book.rows[i].payload) && !IsFlat(w.book.rows[j].payload)
    ensures a == b
  {
    EveryRunIsBased(account, opening, now, actions);
    var w := After(Initial(account, opening, now), actions);
    var rows := w.book.rows;
    if i != j {
      var first, later := MinInt(i, j), MaxInt(i, j);
      assert rows[later] in rows && rows[first] in rows;
      EarlierAttemptCounts(rows, first, later);
    }
  }
}
