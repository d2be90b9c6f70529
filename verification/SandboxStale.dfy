/**
 A run that needs the guard of `SandboxGuard`. The journal compares a snapshot with the latest completion
 only when that belongs to another plan, so a re-run of a plan may act on a snapshot that is older than
 orders of other plans: here a mandatory flat then turns a long position into a short one.
 */
module SandboxStale {
  import opened Domain
  import opened Journal
  import opened SandboxProtocol
  import opened SandboxFlat

  function Share(secid: string): Instrument {
    InstrumentData(secid, secid, 1, 1.0, "RUB", "I", "S", "C", "share", false)
  }

  /** A managed exit of plan Q, an entry of plan P, and the mandatory flat of plan P. */
  function ExitX(): OrderIntent { IntentData("exit", Share("X"), Sell, 3, 1.0, 3.0, "managed exit", false, "market") }

  function EntryY(): OrderIntent { IntentData("entry", Share("Y"), Buy, 1, 1.0, 1.0, "entry", false, "limit") }

  function FlatX(): OrderIntent { IntentData("flat", Share("X"), Sell, 5, 1.0, 5.0, MANDATORY_FLAT, false, "market") }

  function FilledRecord(o: OrderIntent, id: string): OrderRecord {
    OrderRecord(o.(orderRequestId := id), Filled, o.lots, None, "")
  }

  function DoneRow(o: OrderIntent, planId: string, id: string, snapshotAt: int, completedAt: int): Row {
    Row("A", o.orderRequestId, 1, id, o, planId, Status(Filled), snapshotAt, Some(completedAt), FilledRecord(o, id))
  }

  const START: World := Initial("A", map["X" := 5], 0)
  const STALE: Snapshot := Snapshot(0, map["X" := 5])
  const RECENT: Snapshot := Snapshot(20, map["X" := 2])

  /** An attempt gated on the snapshot's lots. */
  function Ask(snap: Snapshot, o: OrderIntent, planId: string, id: string): Action {
    Attempt(snap, Lots(snap.lots, Secid(o)), o, planId, id)
  }

  /** An order that is reserved, sent, filled, closed and recorded without anything in between. */
  function Whole(snap: Snapshot, o: OrderIntent, planId: string, id: string): seq<Action> {
    [Ask(snap, o, planId, id), Submit(id), Execute(id, o.lots), Close(id), Observe(FilledRecord(o, id))]
  }

  /** The run of plans with one order per security up to some point, and the world there. */
  ghost predicate Reached(actions: seq<Action>, w: World) {
    Lawful(START, actions) && SingleOrders(START, actions) && w == After(START, actions)
  }

  lemma Extend(actions: seq<Action>, w: World, a: Action)
    requires Reached(actions, w) && Enabled(w, a) && OnePerSecurity(w, a)
    ensures Reached(actions + [a], Next(w, a))
  {
    assert (actions + [a])[..|actions|] == actions;
  }

  /** Nothing in the journal stands in the way of a first attempt of this order. */
  predicate Free(w: World, snap: Snapshot, o: OrderIntent, planId: string, id: string) {
    && w.account == "A" && w.book.migration == Ready && snap in w.snaps
    && !HasRequest(w.book.rows, id) && !HasPending(w.book.rows, "A")
    && LastOf(w.book.rows, "A", o.orderRequestId).None?
    && var latest := LatestOf(w.book.rows, "A");
       latest.Some? && latest.value.completedAt.Some? ==>
         latest.value.planId == planId || latest.value.completedAt.value < snap.started
  }

  function Reserved(w: World, row: Row): World {
    w.(book := w.book.(rows := w.book.rows + [row]), ready := w.ready + {row.requestId})
  }

  function Sent(w: World, row: Row): World {
    w.(book := w.book.(rows := w.book.rows + [row]), ready := w.ready + {row.requestId} - {row.requestId},
    sent := w.sent + [row.requestId])
  }

  function WithFill(w: World, row: Row): World {
    Sent(w, row).(fills := w.fills[row.requestId := row.payload.lots])
  }

  function Closed(w: World, row: Row): World {
    WithFill(w, row).(closed := w.closed + {row.requestId})
  }

  lemma AttemptStep(w: World, snap: Snapshot, o: OrderIntent, planId: string, id: string)
    requires Free(w, snap, o, planId, id)
    ensures Next(w, Ask(snap, o, planId, id)) == Reserved(w, NewRow("A", o, planId, snap.started, 1, id))
  {
  }

  lemma SubmitStep(w: World, row: Row)
    ensures Enabled(Reserved(w, row), Submit(row.requestId))
    ensures Next(Reserved(w, row), Submit(row.requestId)) == Sent(w, row)
  {
  }

  lemma ExecuteStep(w: World, row: Row)
    requires row.requestId !in w.fills && row.requestId !in w.closed
    ensures Enabled(Sent(w, row), Execute(row.requestId, row.payload.lots))
    ensures Next(Sent(w, row), Execute(row.requestId, row.payload.lots)) == WithFill(w, row)
  {
  }

  lemma CloseStep(w: World, row: Row)
    ensures Enabled(WithFill(w, row), Close(row.requestId))
    ensures Next(WithFill(w, row), Close(row.requestId)) == Closed(w, row)
  {
    assert WithFill(w, row).book.rows[|w.book.rows|].requestId == row.requestId;
  }

  /** The world after a whole order, when the journal grants it on a quiet account. */
  function Finished(w: World, snap: Snapshot, o: OrderIntent, planId: string, id: string): World {
    w.(book := w.book.(rows := w.book.rows + [DoneRow(o, planId, id, snap.started, w.now)]),
    ready := w.ready + {id} - {id}, sent := w.sent + [id], fills := w.fills[id := o.lots], closed := w.closed + {id})
  }

  lemma ReachSent(actions: seq<Action>, w: World, snap: Snapshot, o: OrderIntent, planId: string, id: string)
    requires Reached(actions, w) && Free(w, snap, o, planId, id)
    requires Gate(o, Lots(snap.lots, Secid(o))) && OnePerSecurity(w, Ask(snap, o, planId, id))
    ensures Reached(actions + [Ask(snap, o, planId, id)] + [Submit(id)],
                    Sent(w, NewRow("A", o, planId, snap.started, 1, id)))
  {
    var row := NewRow("A", o, planId, snap.started, 1, id);
    AttemptStep(w, snap, o, planId, id);
    Extend(actions, w, Ask(snap, o, planId, id));
    SubmitStep(w, row);
    Extend(actions + [Ask(snap, o, planId, id)], Reserved(w, row), Submit(id));
  }

  lemma ReachClosed(actions: seq<Action>, w: World, row: Row)
    requires Reached(actions, Sent(w, row)) && row.requestId !in w.fills && row.requestId !in w.closed
    ensures Reached(actions + [Execute(row.requestId, row.payload.lots)] + [Close(row.requestId)], Closed(w, row))
  {
    ExecuteStep(w, row);
    Extend(actions, Sent(w, row), Execute(row.requestId, row.payload.lots));
    CloseStep(w, row);
    Extend(actions + [Execute(row.requestId, row.payload.lots)], WithFill(w, row), Close(row.requestId));
  }

  lemma ReachRecorded(actions: seq<Action>, w: World, row: Row, o: OrderIntent, planId: string)
    requires Reached(actions, w.(book := w.book.(rows := w.book.rows + [row])))
    requires w.account == "A" && row.snapshotAt <= w.now && row.requestId in w.closed
    requires row == NewRow("A", o, planId, row.snapshotAt, 1, row.requestId)
    ensures Reached(actions + [Observe(FilledRecord(o, row.requestId))],
                    w.(book := w.book.(rows := w.book.rows + [DoneRow(o, planId, row.requestId, row.snapshotAt, w.now)])))
  {
    var v := w.(book := w.book.(rows := w.book.rows + [row]));
    RecordFills(v, w.book.rows, row, o, planId);
    Extend(actions, v, Observe(FilledRecord(o, row.requestId)));
  }

  lemma WholeOrder(actions: seq<Action>, w: World, snap: Snapshot, o: OrderIntent, planId: string, id: string)
    requires Reached(actions, w) && Free(w, snap, o, planId, id) && snap.started <= w.now
    requires id !in w.closed && id !in w.fills
    requires Gate(o, Lots(snap.lots, Secid(o))) && OnePerSecurity(w, Ask(snap, o, planId, id))
    ensures Reached(actions + Whole(snap, o, planId, id), Finished(w, snap, o, planId, id))
  {
    var row := NewRow("A", o, planId, snap.started, 1, id);
    var a := actions + [Ask(snap, o, planId, id)] + [Submit(id)];
    ReachSent(actions, w, snap, o, planId, id);
    ReachClosed(a, w, row);
    var b := a + [Execute(id, o.lots)] + [Close(id)];
    ReachRecorded(b, Closed(w, row).(book := w.book), row, o, planId);
    assert actions + Whole(snap, o, planId, id) == b + [Observe(FilledRecord(o, id))];
  }

  lemma RecordFills(w: World, rows: seq<Row>, row: Row, o: OrderIntent, planId: string)
    requires w.account == "A" && w.book.rows == rows + [row] && row.snapshotAt <= w.now
    requires row == NewRow("A", o, planId, row.snapshotAt, 1, row.requestId)
    ensures Next(w, Observe(FilledRecord(o, row.requestId))) ==
            w.(book := w.book.(rows := rows + [DoneRow(o, planId, row.requestId, row.snapshotAt, w.now)]))
  {
    var result := FilledRecord(o, row.requestId);
    assert IndexOf(w.book.rows, "A", row.requestId) == |rows|;
    assert o.(orderRequestId := row.requestId).(orderRequestId := o.orderRequestId) == o;
    assert (rows + [row])[|rows| := Completed(row, result, w.now)] == rows + [Completed(row, result, w.now)];
  }

  // A snapshot shows five lots, and plan Q then sells three of them.
  const EXITED: World := START.(
    snaps := [STALE],
    book := Book(Ready, None, [DoneRow(ExitX(), "Q", "r1", 0, 0)]),
    ready := {}, sent := ["r1"], fills := map["r1" := 3], closed := {"r1"})

  // Plan P starts on a newer snapshot and buys another security.
  const ENTERED: World := EXITED.(
    now := 20, snaps := [STALE, RECENT],
    book := Book(Ready, None, [DoneRow(ExitX(), "Q", "r1", 0, 0), DoneRow(EntryY(), "P", "r2", 20, 20)]),
    sent := ["r1", "r2"], fills := map["r1" := 3, "r2" := 1], closed := {"r1", "r2"})

  // Its re-run reads the old snapshot again: the latest completion is its own.
  const OVERSOLD: World := ENTERED.(
    book := Book(Ready, None, [DoneRow(ExitX(), "Q", "r1", 0, 0), DoneRow(EntryY(), "P", "r2", 20, 20),
                               DoneRow(FlatX(), "P", "r3", 0, 20)]),
    sent := ["r1", "r2", "r3"], fills := map["r1" := 3, "r2" := 1, "r3" := 5], closed := {"r1", "r2", "r3"})

  lemma QueriesOfOne(r: Row, account: string, logicalId: string, id: string)
    requires Terminal(r.state) && r.completedAt.Some? && r.account == account
    requires r.logicalId != logicalId && r.requestId != id
    ensures LastOf([r], account, logicalId).None? && LatestOf([r], account) == Some(r)
    ensures !HasPending([r], account) && !HasRequest([r], id)
  {
    assert [r][..0] == [];
    assert LastOf([], account, logicalId).None? && LatestOf([], account).None?;
  }

  lemma QueriesOfTwo(q: Row, r: Row, account: string, logicalId: string, id: string)
    requires Terminal(q.state) && q.completedAt.Some? && q.account == account
    requires q.logicalId != logicalId && q.requestId != id
    requires Terminal(r.state) && r.completedAt.Some? && r.account == account
    requires r.logicalId != logicalId && r.requestId != id && q.completedAt.value < r.completedAt.value
    ensures LastOf([q, r], account, logicalId).None? && LatestOf([q, r], account) == Some(r)
    ensures !HasPending([q, r], account) && !HasRequest([q, r], id)
  {
    QueriesOfOne(q, account, logicalId, id);
    assert [q, r][..1] == [q];
  }

  lemma ReachExited() returns (actions: seq<Action>)
    ensures Reached(actions, EXITED)
  {
    assert Reached([], START);
    Extend([], START, Capture(STALE));
    var w := Next(START, Capture(STALE));
    WholeOrder([] + [Capture(STALE)], w, STALE, ExitX(), "Q", "r1");
    actions := [] + [Capture(STALE)] + Whole(STALE, ExitX(), "Q", "r1");
    assert Finished(w, STALE, ExitX(), "Q", "r1") == EXITED;
  }

  /** A new snapshot after the sale. */
  const SEEN: World := EXITED.(now := 20, snaps := [STALE, RECENT])

  lemma ReachSeen() returns (actions: seq<Action>)
    ensures Reached(actions, SEEN)
  {
    actions := ReachExited();
    Extend(actions, EXITED, Tick(20));
    PositionsAfterExit(Next(EXITED, Tick(20)), DoneRow(ExitX(), "Q", "r1", 0, 0));
    Extend(actions + [Tick(20)], Next(EXITED, Tick(20)), Capture(RECENT));
    actions := actions + [Tick(20)] + [Capture(RECENT)];
  }

  lemma ReachEntered() returns (actions: seq<Action>)
    ensures Reached(actions, ENTERED)
  {
    actions := ReachSeen();
    QueriesOfOne(DoneRow(ExitX(), "Q", "r1", 0, 0), "A", "entry", "r2");
    WholeOrder(actions, SEEN, RECENT, EntryY(), "P", "r2");
    actions := actions + Whole(RECENT, EntryY(), "P", "r2");
    assert Finished(SEEN, RECENT, EntryY(), "P", "r2") == ENTERED;
  }

  /** The journal and the gate let the flat through. */
  lemma FlatIsFree()
    ensures Free(ENTERED, STALE, FlatX(), "P", "r3") && Gate(FlatX(), Lots(STALE.lots, "X"))
    ensures OnePerSecurity(ENTERED, Ask(STALE, FlatX(), "P", "r3"))
  {
    QueriesOfTwo(DoneRow(ExitX(), "Q", "r1", 0, 0), DoneRow(EntryY(), "P", "r2", 20, 20), "A", "flat", "r3");
  }

  lemma ReachOversold() returns (actions: seq<Action>)
    ensures Reached(actions, OVERSOLD)
  {
    actions := ReachEntered();
    FlatIsFree();
    WholeOrder(actions, ENTERED, STALE, FlatX(), "P", "r3");
    actions := actions + Whole(STALE, FlatX(), "P", "r3");
    assert Finished(ENTERED, STALE, FlatX(), "P", "r3") == OVERSOLD;
  }

  lemma PositionsAfterExit(w: World, exit: Row)
    requires w.book.rows == [exit] && exit.payload == ExitX() && exit.requestId == "r1"
    requires w.opening == map["X" := 5] && w.fills == map["r1" := 3]
    ensures forall x :: Lots(RECENT.lots, x) == Position(w, x)
  {
    assert [exit][..0] == [];
    forall x ensures Lots(RECENT.lots, x) == Position(w, x) {
      assert Executed([], w.fills, x) == 0;
      assert Executed([exit], w.fills, x) == if x == "X" then -3 else 0;
    }
  }

  /** Without the guard the flat of a re-run may oversell: five lots against a position of two. */
  lemma StaleRerunFlips()
    ensures exists actions ::
              && Lawful(START, actions) && SingleOrders(START, actions)
              && !Disciplined(false, START, actions) && !FlatsClose(After(START, actions))
  {
    var actions := ReachOversold();
    OversoldFlips();
    if Disciplined(false, START, actions) {
      EveryDisciplinedRunIsSafe(false, "A", map["X" := 5], 0, actions);
      assert false;
    }
  }

  lemma OversoldFlips()
    ensures !FlatsClose(OVERSOLD)
  {
    var rows := OVERSOLD.book.rows;
    assert rows[..2] == [rows[0], rows[1]] && rows[..2][..1] == [rows[0]] && rows[..2][..1][..0] == [];
    assert Executed([], OVERSOLD.fills, "X") == 0;
    assert Executed(rows[..2][..1], OVERSOLD.fills, "X") == -3;
    assert Executed(rows[..2], OVERSOLD.fills, "X") == -3;
    assert PositionBefore(OVERSOLD, 2) == 2;
    assert IsFlat(rows[2].payload) && !ClosesOnly(rows[2].payload, 2);
  }
}
