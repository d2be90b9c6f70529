/**
 When a mandatory flat cannot flip a position. Its size comes from a snapshot, so what matters is what
 the snapshot may have missed: orders of the security that were not complete before it was read.
 */
module SandboxFlat {
  import opened Domain
  import opened Journal
  import opened JournalTheorems
  import opened SandboxProtocol

  /** Rows complete in the order in which they were reserved. */
  ghost predicate InOrder(rows: seq<Row>) {
    forall i, j :: 0 <= i < j < |rows| ==>
                     && rows[i].completedAt.Some?
                     && (rows[j].completedAt.Some? ==> rows[i].completedAt.value <= rows[j].completedAt.value)
  }

  ghost predicate Timely(w: World) {
    && (forall r :: r in w.book.rows ==> r.snapshotAt <= w.now && (r.completedAt.Some? ==> r.completedAt.value <= w.now))
    && (forall s :: s in w.snaps ==> s.started <= w.now)
    && InOrder(w.book.rows)
  }

  ghost predicate Bounded(w: World) {
    forall r :: r in w.book.rows ==> 0 <= FillsOf(w.fills, r.requestId) <= r.payload.lots
  }

  predicate CompleteBefore(r: Row, instant: int) {
    r.completedAt.Some? && r.completedAt.value < instant
  }

  /** Reading the fills `seen` gives the snapshot's lots. */
  ghost predicate Shows(opening: map<string, int>, rows: seq<Row>, s: Snapshot, seen: map<string, int>) {
    forall x :: Lots(s.lots, x) == Lots(opening, x) + Executed(rows, seen, x)
  }

  ghost predicate OfRequests(rows: seq<Row>, seen: map<string, int>) {
    forall id :: id in seen ==> HasRequest(rows, id)
  }

  /** The snapshot saw all of an order that was complete before it began, and part of any other. */
  ghost predicate Partly(rows: seq<Row>, fills: map<string, int>, s: Snapshot, seen: map<string, int>) {
    forall r :: r in rows ==> SeenOf(r, fills, s, seen)
  }

  predicate SeenOf(r: Row, fills: map<string, int>, s: Snapshot, seen: map<string, int>) {
    && 0 <= FillsOf(seen, r.requestId) <= FillsOf(fills, r.requestId)
    && (CompleteBefore(r, s.started) ==> FillsOf(seen, r.requestId) == FillsOf(fills, r.requestId))
  }

  ghost predicate ReadBy(w: World, s: Snapshot, seen: map<string, int>) {
    Shows(w.opening, w.book.rows, s, seen) && OfRequests(w.book.rows, seen) && Partly(w.book.rows, w.fills, s, seen)
  }

  ghost predicate Readable(w: World, s: Snapshot) {
    exists seen :: ReadBy(w, s, seen)
  }

  /** What every lawful run keeps, disciplined or not. */
  ghost predicate Sound(w: World) {
    Base(w) && Timely(w) && Bounded(w) && forall s :: s in w.snaps ==> Readable(w, s)
  }

  /** The real position of the row's security when the row was reserved. */
  function PositionBefore(w: World, i: nat): int
    requires i < |w.book.rows|
  {
    Lots(w.opening, Secid(w.book.rows[i].payload)) + Executed(w.book.rows[..i], w.fills, Secid(w.book.rows[i].payload))
  }

  /** However much of the order fills, it only moves the position towards zero and never past it. */
  predicate ClosesOnly(o: OrderIntent, position: int) {
    if o.side == Sell then o.lots <= position else o.lots <= -position
  }

  ghost predicate FlatsClose(w: World) {
    forall i :: 0 <= i < |w.book.rows| && IsFlat(w.book.rows[i].payload) ==>
                  ClosesOnly(w.book.rows[i].payload, PositionBefore(w, i))
  }

  // ---------------------------------------------------------------- the guard

  /** The most a row can have filled: its lots, or what its final record says if such records are true. */
  function Capacity(r: Row, trusted: bool): int {
    if trusted then r.record.filledLots else r.payload.lots
  }

  predicate IsMissed(r: Row, secid: string, side: Side, instant: int) {
    Secid(r.payload) == secid && r.payload.side == side && !CompleteBefore(r, instant)
  }

  /** The lots that orders of one security and side can have filled behind a snapshot's back. */
  function MissedLots(rows: seq<Row>, secid: string, side: Side, instant: int, trusted: bool): int {
    if rows == [] then 0
    else
      var r := rows[|rows| - 1];
      MissedLots(rows[..|rows| - 1], secid, side, instant, trusted)
      + if IsMissed(r, secid, side, instant) then Capacity(r, trusted) else 0
  }

  /** The flat closes the position shown even if everything the snapshot may have missed on its side has filled. */
  predicate FlatFits(s: Snapshot, rows: seq<Row>, o: OrderIntent, trusted: bool) {
    ClosesOnly(o, Lots(s.lots, Secid(o)) + Signed(o.side, MissedLots(rows, Secid(o), o.side, s.started, trusted)))
  }

  /** Every final record states what really filled. */
  ghost predicate RecordsAreTrue(w: World) {
    forall r :: r in w.book.rows && Terminal(r.state) ==> r.record.filledLots == FillsOf(w.fills, r.requestId)
  }

  predicate ReportIsTrue(w: World, a: Action) {
    a.Observe? && TerminalStatus(a.result.status) ==>
      a.result.filledLots == FillsOf(w.fills, a.result.intent.orderRequestId)
  }

  /** A flat that is granted fits its snapshot; with `trusted`, final reports are true. */
  ghost predicate Guarded(trusted: bool, w: World, a: Action) {
    && (trusted ==> ReportIsTrue(w, a))
    && (Granted(w, a) && IsFlat(a.intent) ==> FlatFits(a.snapshot, w.book.rows, a.intent, trusted))
  }

  ghost predicate Disciplined(trusted: bool, w: World, actions: seq<Action>) {
    actions != [] ==>
      var n := |actions| - 1;
      Disciplined(trusted, w, actions[..n]) && Guarded(trusted, After(w, actions[..n]), actions[n])
  }

  // ---------------------------------------------------------------- executed lots

  lemma {:induction false} ExecutedIsTheSame(a: seq<Row>, b: seq<Row>, f: map<string, int>, g: map<string, int>, secid: string)
    requires |a| == |b|
    requires forall i :: 0 <= i < |a| ==> a[i].requestId == b[i].requestId && a[i].payload == b[i].payload
    requires forall i :: 0 <= i < |a| && Secid(a[i].payload) == secid ==>
                           FillsOf(f, a[i].requestId) == FillsOf(g, a[i].requestId)
    ensures Executed(a, f, secid) == Executed(b, g, secid)
  {
    if a != [] {
      ExecutedIsTheSame(a[..|a| - 1], b[..|b| - 1], f, g, secid);
    }
  }

  /** What a snapshot saw of a row, and what the row can have filled at most. */
  ghost predicate Within(r: Row, fills: map<string, int>, instant: int, seen: map<string, int>, trusted: bool) {
    && 0 <= FillsOf(seen, r.requestId) <= FillsOf(fills, r.requestId) <= Capacity(r, trusted)
    && (CompleteBefore(r, instant) ==> FillsOf(seen, r.requestId) == FillsOf(fills, r.requestId))
  }

  /** What a snapshot missed is at most what orders can have filled behind its back, on each side. */
  lemma {:induction false} UnseenIsBounded(rows: seq<Row>, fills: map<string, int>, instant: int, seen: map<string, int>,
                                           secid: string, trusted: bool)
    requires forall r :: r in rows ==> Within(r, fills, instant, seen, trusted)
    ensures Executed(rows, seen, secid) - MissedLots(rows, secid, Sell, instant, trusted) <= Executed(rows, fills, secid)
    ensures Executed(rows, fills, secid) <= Executed(rows, seen, secid) + MissedLots(rows, secid, Buy, instant, trusted)
  {
    if rows != [] {
      var n := |rows| - 1;
      assert rows[n] in rows;
      assert Within(rows[n], fills, instant, seen, trusted);
      UnseenIsBounded(rows[..n], fills, instant, seen, secid, trusted);
    }
  }

  lemma PositionsBeforeAreTheSame(v: World, w: World)
    requires |v.book.rows| <= |w.book.rows| && v.opening == w.opening
    requires forall i :: 0 <= i < |v.book.rows| ==>
                           && v.book.rows[i].requestId == w.book.rows[i].requestId
                           && v.book.rows[i].payload == w.book.rows[i].payload
    requires forall i :: 0 <= i < |v.book.rows| - 1 ==>
                           FillsOf(v.fills, v.book.rows[i].requestId) == FillsOf(w.fills, v.book.rows[i].requestId)
    ensures forall i :: 0 <= i < |v.book.rows| ==> PositionBefore(v, i) == PositionBefore(w, i)
  {
    forall i | 0 <= i < |v.book.rows| ensures PositionBefore(v, i) == PositionBefore(w, i) {
      ExecutedIsTheSame(v.book.rows[..i], w.book.rows[..i], v.fills, w.fills, Secid(v.book.rows[i].payload));
    }
  }

  // ---------------------------------------------------------------- the guard is enough

  /** A flat that fits its snapshot fits the real position, whatever else happened. */
  lemma FittingFlatCloses(w: World, s: Snapshot, o: OrderIntent, trusted: bool)
    requires Readable(w, s) && FlatFits(s, w.book.rows, o, trusted)
    requires forall r :: r in w.book.rows ==> 0 <= FillsOf(w.fills, r.requestId) <= Capacity(r, trusted)
    ensures ClosesOnly(o, Position(w, Secid(o)))
  {
    var seen :| ReadBy(w, s, seen);
    forall r | r in w.book.rows ensures Within(r, w.fills, s.started, seen, trusted) {
      assert SeenOf(r, w.fills, s, seen);
    }
    UnseenIsBounded(w.book.rows, w.fills, s.started, seen, Secid(o), trusted);
  }

  // ---------------------------------------------------------------- a granted reservation

  /** A reservation is granted only when every row is complete. */
  lemma QuietRowsAreComplete(w: World)
    requires Journaled(w) && !HasPending(w.book.rows, w.account)
    ensures forall r :: r in w.book.rows ==> r.completedAt.Some?
  {
    forall r | r in w.book.rows ensures r.completedAt.Some? {
      var i :| 0 <= i < |w.book.rows| && w.book.rows[i] == r;
      assert RowOk(w.book.rows[i]);
    }
  }

  lemma GrantIsTimely(w: World, a: Action)
    requires Sound(w) && Enabled(w, a) && Granted(w, a)
    ensures Timely(Next(w, a))
  {
    var row := GrantAppends(w, a);
    QuietRowsAreComplete(w);
    AppendIsInOrder(w.book.rows, row);
  }

  lemma AppendIsInOrder(rows: seq<Row>, row: Row)
    requires InOrder(rows) && row.completedAt.None?
    requires forall r :: r in rows ==> r.completedAt.Some?
    ensures InOrder(rows + [row])
  {
  }

  lemma GrantIsBounded(w: World, a: Action)
    requires Sound(w) && Granted(w, a)
    ensures Bounded(Next(w, a)) && FillsOf(w.fills, a.requestId) == 0
  {
    var row := GrantAppends(w, a);
    assert FillsOf(w.fills, a.requestId) == 0;
  }

  lemma GrantIsReadable(w: World, a: Action, s: Snapshot)
    requires Sound(w) && Granted(w, a) && s in w.snaps
    ensures Readable(Next(w, a), s)
  {
    var row := GrantAppends(w, a);
    var next := Next(w, a);
    var seen :| ReadBy(w, s, seen);
    RequestsGrow(w.book.rows, row);
    GrantIsBounded(w, a);
    AppendIsRead(w, next, row, s, seen);
  }

  lemma AppendIsRead(w: World, next: World, row: Row, s: Snapshot, seen: map<string, int>)
    requires ReadBy(w, s, seen) && next.book.rows == w.book.rows + [row] && row.completedAt.None?
    requires next.opening == w.opening && next.fills == w.fills && FillsOf(w.fills, row.requestId) == 0
    requires !HasRequest(w.book.rows, row.requestId)
    requires forall id :: HasRequest(next.book.rows, id) <==> HasRequest(w.book.rows, id) || id == row.requestId
    ensures ReadBy(next, s, seen)
  {
    assert FillsOf(seen, row.requestId) == 0;
    UnfilledRowAddsNothing(w.book.rows, row, seen);
    assert Partly(next.book.rows, w.fills, s, seen) by {
      forall r | r in next.book.rows ensures SeenOf(r, w.fills, s, seen) {
      }
    }
  }

  lemma UnfilledRowAddsNothing(rows: seq<Row>, row: Row, seen: map<string, int>)
    requires FillsOf(seen, row.requestId) == 0
    ensures forall x :: Executed(rows + [row], seen, x) == Executed(rows, seen, x)
  {
    assert (rows + [row])[..|rows|] == rows;
  }

  lemma GrantKeepsSound(w: World, a: Action)
    requires Sound(w) && Enabled(w, a) && Granted(w, a)
    ensures Sound(Next(w, a))
  {
    NextKeepsBase(w, a);
    GrantIsTimely(w, a);
    GrantIsBounded(w, a);
    forall s | s in Next(w, a).snaps ensures Readable(Next(w, a), s) {
      GrantIsReadable(w, a, s);
    }
  }

  // ---------------------------------------------------------------- the broker

  lemma EarlierRowsAreClosed(w: World)
    requires Journaled(w)
    ensures forall i :: 0 <= i < |w.book.rows| - 1 ==>
                          Terminal(w.book.rows[i].state) && w.book.rows[i].requestId in w.closed
  {
    var rows := w.book.rows;
    forall i | 0 <= i < |rows| - 1 ensures Terminal(rows[i].state) && rows[i].requestId in w.closed {
      assert rows[i] in rows && rows[|rows| - 1] in rows;
    }
  }

  /** Only the last row can still fill: every earlier one is terminal, hence closed. */
  lemma OnlyTheLastFills(w: World, i: nat)
    requires Journaled(w) && i < |w.book.rows| && w.book.rows[i].requestId !in w.closed
    ensures i == |w.book.rows| - 1 && w.book.rows[i].completedAt.None?
  {
    EarlierRowsAreClosed(w);
    assert w.book.rows[i] in w.book.rows;
    assert RowOk(w.book.rows[i]);
  }

  ghost predicate FillsTheLast(w: World, id: string, lots: nat) {
    && w.book.rows != [] && UniqueRequests(w.book.rows)
    && var last := w.book.rows[|w.book.rows| - 1];
       last.requestId == id && last.completedAt.None? && FillsOf(w.fills, id) + lots <= last.payload.lots
  }

  lemma RequestHasIndex(rows: seq<Row>, id: string) returns (k: nat)
    requires HasRequest(rows, id)
    ensures k < |rows| && rows[k].requestId == id
  {
    k :| 0 <= k < |rows| && rows[k].requestId == id;
  }

  lemma LotsOfLast(rows: seq<Row>, id: string)
    requires rows != [] && rows[|rows| - 1].requestId == id
    ensures LotsOfRequest(rows, id) == rows[|rows| - 1].payload.lots
  {
  }

  lemma ExecuteFillsTheLast(w: World, id: string, lots: nat)
    requires Base(w) && Enabled(w, Execute(id, lots))
    ensures FillsTheLast(w, id, lots)
  {
    var k := RequestHasIndex(w.book.rows, id);
    OnlyTheLastFills(w, k);
    LotsOfLast(w.book.rows, id);
  }

  lemma FillIsBounded(w: World, id: string, lots: nat)
    requires FillsTheLast(w, id, lots) && Bounded(w)
    ensures Bounded(Next(w, Execute(id, lots)))
  {
    var rows := w.book.rows;
    assert rows[|rows| - 1] in rows;
    forall r | r in rows ensures 0 <= FillsOf(Next(w, Execute(id, lots)).fills, r.requestId) <= r.payload.lots {
      var i :| 0 <= i < |rows| && rows[i] == r;
    }
  }

  lemma FillIsReadable(w: World, id: string, lots: nat, s: Snapshot)
    requires FillsTheLast(w, id, lots) && Readable(w, s)
    ensures Readable(Next(w, Execute(id, lots)), s)
  {
    var rows := w.book.rows;
    var seen :| ReadBy(w, s, seen);
    FillIsPartlySeen(rows, w.fills, id, lots, s, seen);
    assert ReadBy(Next(w, Execute(id, lots)), s, seen);
  }

  lemma FillIsPartlySeen(rows: seq<Row>, fills: map<string, int>, id: string, lots: nat, s: Snapshot, seen: map<string, int>)
    requires UniqueRequests(rows) && rows != [] && rows[|rows| - 1].requestId == id && rows[|rows| - 1].completedAt.None?
    requires Partly(rows, fills, s, seen)
    ensures Partly(rows, fills[id := FillsOf(fills, id) + lots], s, seen)
  {
    forall r | r in rows ensures SeenOf(r, fills[id := FillsOf(fills, id) + lots], s, seen) {
      assert SeenOf(r, fills, s, seen);
      var i :| 0 <= i < |rows| && rows[i] == r;
    }
  }

  lemma FillKeepsSound(w: World, id: string, lots: nat)
    requires Sound(w) && Enabled(w, Execute(id, lots))
    ensures Sound(Next(w, Execute(id, lots)))
  {
    NextKeepsBase(w, Execute(id, lots));
    ExecuteFillsTheLast(w, id, lots);
    FillIsBounded(w, id, lots);
    forall s | s in w.snaps ensures Readable(Next(w, Execute(id, lots)), s) {
      FillIsReadable(w, id, lots, s);
    }
  }

  // ---------------------------------------------------------------- broker answers

  lemma RewriteIsTimely(w: World, next: World, k: nat)
    requires Rewrites(w, next, k) && Timely(w)
    ensures Timely(next)
  {
    var rows, rows' := w.book.rows, next.book.rows;
    forall r | r in rows' ensures r in rows || r == rows'[k] {
    }
    assert rows[k] in rows;
    RewriteIsInOrder(w, next, k);
  }

  lemma RewriteIsInOrder(w: World, next: World, k: nat)
    requires Rewrites(w, next, k) && Timely(w)
    ensures InOrder(next.book.rows)
  {
    var rows, rows' := w.book.rows, next.book.rows;
    forall i, j | 0 <= i < j < |rows'|
      ensures rows'[i].completedAt.Some?
      ensures rows'[j].completedAt.Some? ==> rows'[i].completedAt.value <= rows'[j].completedAt.value
    {
      assert rows[i].completedAt.Some? && (rows[j].completedAt.Some? ==> rows[i].completedAt.value <= rows[j].completedAt.value);
      assert rows[i] in rows;
    }
  }

  lemma RewriteIsReadable(w: World, next: World, k: nat, s: Snapshot)
    requires Rewrites(w, next, k) && s.started <= w.now && Readable(w, s)
    ensures Readable(next, s)
  {
    var rows, rows' := w.book.rows, next.book.rows;
    var seen :| ReadBy(w, s, seen);
    RequestsStay(rows, k, rows'[k]);
    forall x ensures Executed(rows', seen, x) == Executed(rows, seen, x) {
      ExecutedIsTheSame(rows, rows', seen, seen, x);
    }
    RewriteIsPartlySeen(w, next, k, s, seen);
    assert ReadBy(next, s, seen);
  }

  /** What completes now was not complete before any snapshot. */
  lemma RewriteIsPartlySeen(w: World, next: World, k: nat, s: Snapshot, seen: map<string, int>)
    requires Rewrites(w, next, k) && s.started <= w.now && Partly(w.book.rows, w.fills, s, seen)
    ensures Partly(next.book.rows, w.fills, s, seen)
  {
    var rows, rows' := w.book.rows, next.book.rows;
    forall r | r in rows' ensures SeenOf(r, w.fills, s, seen) {
      var i :| 0 <= i < |rows'| && rows'[i] == r;
      assert rows[i] in rows;
      assert SeenOf(rows[i], w.fills, s, seen);
    }
  }

  lemma RewriteIsBounded(w: World, next: World, k: nat)
    requires Rewrites(w, next, k) && Bounded(w)
    ensures Bounded(next)
  {
    forall r | r in next.book.rows ensures 0 <= FillsOf(next.fills, r.requestId) <= r.payload.lots {
      var i :| 0 <= i < |next.book.rows| && next.book.rows[i] == r;
      assert w.book.rows[i] in w.book.rows;
    }
  }

  lemma ObserveKeepsSound(w: World, result: OrderRecord)
    requires Sound(w) && Enabled(w, Observe(result))
    ensures Sound(Next(w, Observe(result)))
  {
    NextKeepsBase(w, Observe(result));
    CompletedIsTerminal(w);
    var k := ObserveRewrites(w, result);
    var next := Next(w, Observe(result));
    if next != w {
      RewriteIsTimely(w, next, k);
      RewriteIsBounded(w, next, k);
      forall s | s in next.snaps ensures Readable(next, s) {
        RewriteIsReadable(w, next, k, s);
      }
    }
  }

  // ---------------------------------------------------------------- everything else

  /** A new snapshot sees every fill. */
  lemma CaptureKeepsSound(w: World, snapshot: Snapshot)
    requires Sound(w) && Enabled(w, Capture(snapshot))
    ensures Sound(Next(w, Capture(snapshot)))
  {
    var next := Next(w, Capture(snapshot));
    forall s | s in next.snaps ensures Readable(next, s) && s.started <= next.now {
      if s in w.snaps {
        var seen :| ReadBy(w, s, seen);
        assert ReadBy(next, s, seen);
      } else {
        assert ReadBy(next, s, w.fills);
      }
    }
  }

  lemma QuietKeepsSound(w: World, a: Action)
    requires Sound(w) && Enabled(w, a) && (a.Tick? || a.Submit? || a.Crash? || a.Close?)
    ensures Sound(Next(w, a))
  {
    NextKeepsBase(w, a);
    forall s | s in w.snaps ensures Readable(Next(w, a), s) {
      var seen :| ReadBy(w, s, seen);
      assert ReadBy(Next(w, a), s, seen);
    }
  }

  lemma NextKeepsSound(w: World, a: Action)
    requires Sound(w) && Enabled(w, a)
    ensures Sound(Next(w, a))
  {
    match a
    case Tick(_) => QuietKeepsSound(w, a);
    case Capture(snapshot) => CaptureKeepsSound(w, snapshot);
    case Attempt(_, _, _, _, _) =>
      if Granted(w, a) {
        GrantKeepsSound(w, a);
      }
    case Submit(_) => QuietKeepsSound(w, a);
    case Crash(_) => QuietKeepsSound(w, a);
    case Execute(id, lots) => FillKeepsSound(w, id, lots);
    case Close(_) => QuietKeepsSound(w, a);
    case Observe(result) => ObserveKeepsSound(w, result);
  }

  /** In every interleaving a snapshot shows all of what was complete before it, and part of the rest. */
  lemma {:induction false} EveryRunIsSound(account: string, opening: map<string, int>, now: int, actions: seq<Action>)
    requires Lawful(Initial(account, opening, now), actions)
    ensures Sound(After(Initial(account, opening, now), actions))
  {
    var w := Initial(account, opening, now);
    if actions != [] {
      var n := |actions| - 1;
      EveryRunIsSound(account, opening, now, actions[..n]);
      NextKeepsSound(After(w, actions[..n]), actions[n]);
    }
  }

  // ---------------------------------------------------------------- flats in disciplined runs

  lemma GrantedFlatCloses(w: World, next: World, row: Row)
    requires FlatsClose(w) && next.book.rows == w.book.rows + [row]
    requires next.fills == w.fills && next.opening == w.opening
    requires IsFlat(row.payload) ==> ClosesOnly(row.payload, Position(w, Secid(row.payload)))
    ensures FlatsClose(next)
  {
    var rows := w.book.rows;
    PositionsBeforeAreTheSame(w, next);
    forall i | 0 <= i < |next.book.rows| && IsFlat(next.book.rows[i].payload)
      ensures ClosesOnly(next.book.rows[i].payload, PositionBefore(next, i))
    {
      if i == |rows| {
        assert next.book.rows[..i] == rows;
      } else {
        assert next.book.rows[i] == rows[i];
      }
    }
  }

  /** When the journal grants, every row is final: nothing filled more than its record says, if records are true. */
  lemma GrantedCapacities(w: World, a: Action, trusted: bool)
    requires Sound(w) && Granted(w, a) && (trusted ==> RecordsAreTrue(w))
    ensures forall r :: r in w.book.rows ==> 0 <= FillsOf(w.fills, r.requestId) <= Capacity(r, trusted)
  {
    var row := GrantAppends(w, a);
    QuietRowsAreFinal(w);
  }

  lemma QuietRowsAreFinal(w: World)
    requires Journaled(w) && !HasPending(w.book.rows, w.account)
    ensures forall r :: r in w.book.rows ==> Terminal(r.state)
  {
    forall r | r in w.book.rows ensures Terminal(r.state) {
      var i :| 0 <= i < |w.book.rows| && w.book.rows[i] == r;
    }
  }

  lemma GuardedAttemptKeepsFlats(trusted: bool, w: World, a: Action)
    requires Sound(w) && FlatsClose(w) && a.Attempt? && Enabled(w, a) && Guarded(trusted, w, a)
    requires trusted ==> RecordsAreTrue(w)
    ensures FlatsClose(Next(w, a))
  {
    if Granted(w, a) {
      var row := GrantAppends(w, a);
      if IsFlat(a.intent) {
        GrantedCapacities(w, a, trusted);
        FittingFlatCloses(w, a.snapshot, a.intent, trusted);
      }
      GrantedFlatCloses(w, Next(w, a), row);
    }
  }

  lemma FillKeepsFlats(w: World, id: string, lots: nat)
    requires FlatsClose(w) && FillsTheLast(w, id, lots)
    ensures FlatsClose(Next(w, Execute(id, lots)))
  {
    PositionsBeforeAreTheSame(w, Next(w, Execute(id, lots)));
  }

  lemma ObserveKeepsFlats(w: World, result: OrderRecord)
    requires Sound(w) && FlatsClose(w) && Enabled(w, Observe(result))
    ensures FlatsClose(Next(w, Observe(result)))
  {
    CompletedIsTerminal(w);
    var k := ObserveRewrites(w, result);
    if Next(w, Observe(result)) != w {
      PositionsBeforeAreTheSame(w, Next(w, Observe(result)));
    }
  }

  lemma NextKeepsFlats(trusted: bool, w: World, a: Action)
    requires Sound(w) && FlatsClose(w) && Enabled(w, a) && Guarded(trusted, w, a)
    requires trusted ==> RecordsAreTrue(w)
    ensures FlatsClose(Next(w, a))
  {
    if a.Attempt? {
      GuardedAttemptKeepsFlats(trusted, w, a);
    } else if a.Execute? {
      ExecuteFillsTheLast(w, a.id, a.lots);
      FillKeepsFlats(w, a.id, a.lots);
    } else if a.Observe? {
      ObserveKeepsFlats(w, a.result);
    } else {
      PositionsBeforeAreTheSame(w, Next(w, a));
    }
  }

  // ---------------------------------------------------------------- true records

  lemma FillKeepsRecordsTrue(w: World, id: string, lots: nat)
    requires Journaled(w) && RecordsAreTrue(w) && id !in w.closed
    ensures RecordsAreTrue(Next(w, Execute(id, lots)))
  {
  }

  lemma ObserveKeepsRecordsTrue(w: World, result: OrderRecord)
    requires RecordsAreTrue(w) && ReportIsTrue(w, Observe(result))
    ensures RecordsAreTrue(Next(w, Observe(result)))
  {
    if Record(w.book, w.account, result, w.now).Ok? {
      var next := Record(w.book, w.account, result, w.now).value;
      var k := RecordChangesOneRow(w.book, w.account, result, w.now);
      forall r | r in next.rows && Terminal(r.state) ensures r.record.filledLots == FillsOf(w.fills, r.requestId) {
        assert r in w.book.rows || r == Completed(w.book.rows[k], result, w.now);
      }
    }
  }

  lemma NextKeepsRecordsTrue(w: World, a: Action)
    requires Sound(w) && Enabled(w, a) && RecordsAreTrue(w) && ReportIsTrue(w, a)
    ensures RecordsAreTrue(Next(w, a))
  {
    if Granted(w, a) {
      var row := GrantAppends(w, a);
    } else if a.Execute? {
      FillKeepsRecordsTrue(w, a.id, a.lots);
    } else if a.Observe? {
      ObserveKeepsRecordsTrue(w, a.result);
    }
  }

  lemma {:induction false} EveryDisciplinedRunIsSafe(
    trusted: bool, account: string, opening: map<string, int>, now: int, actions: seq<Action>)
    requires Lawful(Initial(account, opening, now), actions)
    requires Disciplined(trusted, Initial(account, opening, now), actions)
    ensures FlatsClose(After(Initial(account, opening, now), actions))
    ensures trusted ==> RecordsAreTrue(After(Initial(account, opening, now), actions))
  {
    var w := Initial(account, opening, now);
    if actions != [] {
      var n := |actions| - 1;
      EveryDisciplinedRunIsSafe(trusted, account, opening, now, actions[..n]);
      EveryRunIsSound(account, opening, now, actions[..n]);
      NextKeepsFlats(trusted, After(w, actions[..n]), actions[n]);
      if trusted {
        NextKeepsRecordsTrue(After(w, actions[..n]), actions[n]);
      }
    }
  }

  /**
   A mandatory flat never flips a position. In every run whose granted flats meet the guard, over all
   plans, partial fills, crashes and re-runs: whatever part `filled` of a reserved flat order has
   executed, the position it leaves lies between the position before it and zero. With `trusted` the
   guard counts only what final records report, and those reports are true.
   */
  lemma FlatNeverFlips(
    trusted: bool, account: string, opening: map<string, int>, now: int, actions: seq<Action>, i: nat)
    requires Lawful(Initial(account, opening, now), actions)
    requires Disciplined(trusted, Initial(account, opening, now), actions)
    requires var w := After(Initial(account, opening, now), actions);
             i < |w.book.rows| && IsFlat(w.book.rows[i].payload)
    ensures var w := After(Initial(account, opening, now), actions);
            var r := w.book.rows[i];
            var before, filled := PositionBefore(w, i), FillsOf(w.fills, r.requestId);
            && 0 <= filled <= r.payload.lots
            && (r.payload.side == Sell ==> before > 0 && 0 <= before - filled <= before)
            && (r.payload.side == Buy ==> before < 0 && before <= before + filled <= 0)
  {
    EveryRunIsSound(account, opening, now, actions);
    EveryDisciplinedRunIsSafe(trusted, account, opening, now, actions);
    var w := After(Initial(account, opening, now), actions);
    assert w.book.rows[i] in w.book.rows;
    assert ClosesOnly(w.book.rows[i].payload, PositionBefore(w, i));
  }
}
