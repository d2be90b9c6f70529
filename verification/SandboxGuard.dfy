/**
 The guard a mandatory flat needs, which src/moex_bot/execution_journal.py:113-121 checks in part: it is
 exact for everything a driver can see, and what the journal misses is always an order of another plan.
 */
module SandboxGuard {
  import opened Domain
  import opened Journal
  import opened JournalTheorems
  import opened SandboxProtocol
  import opened SandboxFlat

  /** Two worlds that a driver holding the snapshot cannot tell apart. */
  ghost predicate SameView(w: World, v: World, s: Snapshot) {
    v.account == w.account && v.now == w.now && v.book == w.book && s in v.snaps
  }

  /** In every sound world that looks the same, with true final records if they are trusted, the order only closes. */
  ghost predicate ClosesInEveryWorld(w: World, s: Snapshot, o: OrderIntent, trusted: bool) {
    forall v :: SameView(w, v, s) && Sound(v) && (trusted ==> RecordsAreTrue(v)) ==> ClosesOnly(o, Position(v, Secid(o)))
  }

  // ---------------------------------------------------------------- the worst world

  /** Everything has filled as far as it can. */
  function AllFilled(rows: seq<Row>, trusted: bool): map<string, int> {
    if rows == [] then map[]
    else
      var r := rows[|rows| - 1];
      AllFilled(rows[..|rows| - 1], trusted)[r.requestId := Capacity(r, trusted)]
  }

  /** The snapshot saw all of it but the orders of one security and side that it can have missed. */
  function AllButMissed(rows: seq<Row>, secid: string, side: Side, instant: int, trusted: bool): map<string, int> {
    if rows == [] then map[]
    else
      var r := rows[|rows| - 1];
      AllButMissed(rows[..|rows| - 1], secid, side, instant, trusted)
        [r.requestId := if IsMissed(r, secid, side, instant) then 0 else Capacity(r, trusted)]
  }

  function Requests(rows: seq<Row>): seq<string> {
    seq(|rows|, i requires 0 <= i < |rows| => rows[i].requestId)
  }

  /** The positions before all orders, if reading the fills `seen` shows these lots. */
  function OpeningBehind(shown: map<string, int>, rows: seq<Row>, seen: map<string, int>): map<string, int> {
    map x | x in shown.Keys + Secids(rows) :: Lots(shown, x) - Executed(rows, seen, x)
  }

  function Secids(rows: seq<Row>): set<string> {
    set r | r in rows :: Secid(r.payload)
  }

  /** The same view, with as little left of the position as the orders the snapshot may have missed allow. */
  function Worst(w: World, s: Snapshot, o: OrderIntent, trusted: bool): World {
    var rows := w.book.rows;
    var seen := AllButMissed(rows, Secid(o), o.side, s.started, trusted);
    w.(opening := OpeningBehind(s.lots, rows, seen), fills := AllFilled(rows, trusted), ready := {},
    sent := Requests(rows), snaps := [s])
  }

  lemma {:induction false} FilledAt(rows: seq<Row>, r: Row, secid: string, side: Side, instant: int, trusted: bool)
    requires UniqueRequests(rows) && r in rows
    ensures FillsOf(AllFilled(rows, trusted), r.requestId) == Capacity(r, trusted)
    ensures FillsOf(AllButMissed(rows, secid, side, instant, trusted), r.requestId) ==
            if IsMissed(r, secid, side, instant) then 0 else Capacity(r, trusted)
  {
    var n := |rows| - 1;
    if r != rows[n] {
      var i: nat :| i < |rows| && rows[i] == r;
      assert rows[..n][i] == r;
      FilledAt(rows[..n], r, secid, side, instant, trusted);
    }
  }

  lemma {:induction false} OnlyRequestsFill(rows: seq<Row>, secid: string, side: Side, instant: int, trusted: bool, id: string)
    requires id in AllFilled(rows, trusted) || id in AllButMissed(rows, secid, side, instant, trusted)
    ensures HasRequest(rows, id)
  {
    var n := |rows| - 1;
    if id != rows[n].requestId {
      OnlyRequestsFill(rows[..n], secid, side, instant, trusted, id);
      var i: nat :| i < n && rows[..n][i].requestId == id;
      assert rows[i].requestId == id;
    }
  }

  /** Where the fills of the rows do not change, what they executed does not. */
  lemma {:induction false} ExecutedOfMissed(rows: seq<Row>, f: map<string, int>, g: map<string, int>, secid: string, side: Side,
                                            instant: int, trusted: bool)
    requires forall r :: r in rows && Secid(r.payload) == secid ==>
                           FillsOf(f, r.requestId) ==
                           FillsOf(g, r.requestId) + if IsMissed(r, secid, side, instant) then Capacity(r, trusted) else 0
    ensures Executed(rows, f, secid) ==
            Executed(rows, g, secid) + Signed(side, MissedLots(rows, secid, side, instant, trusted))
  {
    if rows != [] {
      var n := |rows| - 1;
      assert rows[n] in rows;
      ExecutedOfMissed(rows[..n], f, g, secid, side, instant, trusted);
    }
  }

  lemma WorstPosition(w: World, s: Snapshot, o: OrderIntent, trusted: bool)
    requires UniqueRequests(w.book.rows)
    ensures Position(Worst(w, s, o, trusted), Secid(o)) ==
            Lots(s.lots, Secid(o)) + Signed(o.side, MissedLots(w.book.rows, Secid(o), o.side, s.started, trusted))
  {
    var rows, x := w.book.rows, Secid(o);
    var f, g := AllFilled(rows, trusted), AllButMissed(rows, x, o.side, s.started, trusted);
    forall r | r in rows && Secid(r.payload) == x
      ensures FillsOf(f, r.requestId) ==
              FillsOf(g, r.requestId) + if IsMissed(r, x, o.side, s.started) then Capacity(r, trusted) else 0
    {
      FilledAt(rows, r, x, o.side, s.started, trusted);
    }
    ExecutedOfMissed(rows, f, g, x, o.side, s.started, trusted);
    ShowsTheSnapshot(s, rows, g);
  }

  lemma {:induction false} NothingOfTheSecurity(rows: seq<Row>, seen: map<string, int>, x: string)
    requires x !in Secids(rows)
    ensures Executed(rows, seen, x) == 0
  {
    if rows != [] {
      assert rows[|rows| - 1] in rows;
      NothingOfTheSecurity(rows[..|rows| - 1], seen, x);
    }
  }

  lemma ShowsTheSnapshot(s: Snapshot, rows: seq<Row>, seen: map<string, int>)
    ensures Shows(OpeningBehind(s.lots, rows, seen), rows, s, seen)
  {
    forall x ensures Lots(s.lots, x) == Lots(OpeningBehind(s.lots, rows, seen), x) + Executed(rows, seen, x) {
      if x !in Secids(rows) {
        NothingOfTheSecurity(rows, seen, x);
      }
    }
  }

  // ---------------------------------------------------------------- the worst world is sound

  lemma CapacityIsWithin(rows: seq<Row>, r: Row, trusted: bool)
    requires WellKept(rows) && r in rows
    ensures 0 <= Capacity(r, trusted) <= r.payload.lots
  {
    var i: nat :| i < |rows| && rows[i] == r;
    assert RowOk(rows[i]);
  }

  lemma EveryFillWasSent(rows: seq<Row>, trusted: bool)
    ensures forall id :: id in Requests(rows) ==> HasRequest(rows, id)
    ensures forall id :: id in AllFilled(rows, trusted) ==> id in Requests(rows)
  {
    forall id | id in AllFilled(rows, trusted) ensures id in Requests(rows) {
      OnlyRequestsFill(rows, "", Buy, 0, trusted, id);
      var i: nat :| i < |rows| && rows[i].requestId == id;
      assert Requests(rows)[i] == id;
    }
  }

  lemma WorstIsDelivered(w: World, s: Snapshot, o: OrderIntent, trusted: bool)
    requires UniqueRequests(w.book.rows)
    ensures Delivery(Worst(w, s, o, trusted))
  {
    EveryFillWasSent(w.book.rows, trusted);
  }

  lemma WorstIsRead(w: World, s: Snapshot, o: OrderIntent, trusted: bool)
    requires WellKept(w.book.rows)
    ensures Readable(Worst(w, s, o, trusted), s)
  {
    var rows, v := w.book.rows, Worst(w, s, o, trusted);
    var seen := AllButMissed(rows, Secid(o), o.side, s.started, trusted);
    ShowsTheSnapshot(s, rows, seen);
    forall id | id in seen ensures HasRequest(rows, id) {
      OnlyRequestsFill(rows, Secid(o), o.side, s.started, trusted, id);
    }
    forall r | r in rows ensures SeenOf(r, v.fills, s, seen) {
      CapacityIsWithin(rows, r, trusted);
      FilledAt(rows, r, Secid(o), o.side, s.started, trusted);
    }
    assert ReadBy(v, s, seen);
  }

  lemma WorstIsBounded(w: World, s: Snapshot, o: OrderIntent, trusted: bool)
    requires WellKept(w.book.rows)
    ensures Bounded(Worst(w, s, o, trusted))
    ensures trusted ==> RecordsAreTrue(Worst(w, s, o, trusted))
  {
    forall r | r in w.book.rows
      ensures FillsOf(AllFilled(w.book.rows, trusted), r.requestId) == Capacity(r, trusted)
      ensures 0 <= Capacity(r, trusted) <= r.payload.lots
    {
      CapacityIsWithin(w.book.rows, r, trusted);
      FilledAt(w.book.rows, r, Secid(o), o.side, s.started, trusted);
    }
  }

  lemma WorstIsSound(w: World, s: Snapshot, o: OrderIntent, trusted: bool)
    requires Sound(w) && s in w.snaps
    ensures Sound(Worst(w, s, o, trusted)) && SameView(w, Worst(w, s, o, trusted), s)
    ensures trusted ==> RecordsAreTrue(Worst(w, s, o, trusted))
  {
    WorstIsDelivered(w, s, o, trusted);
    WorstIsRead(w, s, o, trusted);
    WorstIsBounded(w, s, o, trusted);
  }

  // ---------------------------------------------------------------- the guard is exact

  lemma FittingFlatClosesEverywhere(w: World, a: Action, trusted: bool)
    requires Granted(w, a) && FlatFits(a.snapshot, w.book.rows, a.intent, trusted)
    ensures ClosesInEveryWorld(w, a.snapshot, a.intent, trusted)
  {
    forall v | SameView(w, v, a.snapshot) && Sound(v) && (trusted ==> RecordsAreTrue(v))
      ensures ClosesOnly(a.intent, Position(v, Secid(a.intent)))
    {
      GrantedCapacities(v, a, trusted);
      FittingFlatCloses(v, a.snapshot, a.intent, trusted);
    }
  }

  /**
   The guard is exact for every granted flat. It closes only, in every sound world that looks the same to the
   driver, if and only if it closes what is left of the position shown after the lots of its side that the
   snapshot can have missed. With `trusted` only worlds with true final records count, and only what those
   records report can have been missed.
   */
  lemma GuardIsExact(w: World, a: Action, trusted: bool)
    requires Sound(w) && Enabled(w, a) && Granted(w, a) && IsFlat(a.intent)
    ensures FlatFits(a.snapshot, w.book.rows, a.intent, trusted) <==>
            ClosesInEveryWorld(w, a.snapshot, a.intent, trusted)
  {
    if FlatFits(a.snapshot, w.book.rows, a.intent, trusted) {
      FittingFlatClosesEverywhere(w, a, trusted);
    } else {
      var v := Worst(w, a.snapshot, a.intent, trusted);
      WorstIsSound(w, a.snapshot, a.intent, trusted);
      WorstPosition(w, a.snapshot, a.intent, trusted);
      assert !ClosesOnly(a.intent, Position(v, Secid(a.intent)));
    }
  }

  /** Every flat of the run closes only, in every sound world that looks the same when it is granted. */
  ghost predicate SafeThroughout(trusted: bool, w: World, actions: seq<Action>) {
    actions != [] ==>
      var n := |actions| - 1;
      var before, a := After(w, actions[..n]), actions[n];
      && SafeThroughout(trusted, w, actions[..n]) && (trusted ==> ReportIsTrue(before, a))
      && (Granted(before, a) && IsFlat(a.intent) ==> ClosesInEveryWorld(before, a.snapshot, a.intent, trusted))
  }

  /** The guard is exact for whole runs: no weaker rule that a driver could follow makes its flats safe. */
  lemma {:induction false} DisciplineIsExact(
    trusted: bool, account: string, opening: map<string, int>, now: int, actions: seq<Action>)
    requires Lawful(Initial(account, opening, now), actions)
    ensures Disciplined(trusted, Initial(account, opening, now), actions) <==>
            SafeThroughout(trusted, Initial(account, opening, now), actions)
  {
    if actions != [] {
      var n := |actions| - 1;
      DisciplineIsExact(trusted, account, opening, now, actions[..n]);
      EveryRunIsSound(account, opening, now, actions[..n]);
      var before := After(Initial(account, opening, now), actions[..n]);
      if Granted(before, actions[n]) && IsFlat(actions[n].intent) {
        GuardIsExact(before, actions[n], trusted);
      }
    }
  }

  // ---------------------------------------------------------------- what the journal checks of it

  function OfOthers(rows: seq<Row>, planId: string): seq<Row> {
    if rows == [] then []
    else
      var r := rows[|rows| - 1];
      OfOthers(rows[..|rows| - 1], planId) + if r.planId != planId then [r] else []
  }

  /** Everything up to a row that completed before an instant completed before it. */
  lemma EarlierIsComplete(rows: seq<Row>, i: nat, j: nat, instant: int)
    requires InOrder(rows) && i <= j < |rows| && CompleteBefore(rows[j], instant)
    ensures CompleteBefore(rows[i], instant)
  {
    if i < j {
      assert rows[i].completedAt.Some? && rows[i].completedAt.value <= rows[j].completedAt.value;
    }
  }

  /** Of two attempts of a logical order the one with the greatest generation was inserted last. */
  lemma GreatestGenerationIsLast(rows: seq<Row>, i: nat, j: nat)
    requires Contiguous(rows) && i < |rows| && j < |rows|
    requires Belongs(rows[i], rows[j].account, rows[j].logicalId)
    requires rows[j].generation == Attempts(rows, rows[j].account, rows[j].logicalId)
    ensures i <= j
  {
    if j < i {
      AttemptsGrow(rows[..i], j, rows[j].account, rows[j].logicalId);
      assert rows[..i][..j] == rows[..j];
      AttemptsGrow(rows, i, rows[j].account, rows[j].logicalId);
    }
  }

  lemma {:induction false} AttemptsGrow(rows: seq<Row>, i: nat, account: string, logicalId: string)
    requires i < |rows| && Belongs(rows[i], account, logicalId)
    ensures Attempts(rows[..i], account, logicalId) < Attempts(rows, account, logicalId)
  {
    if i < |rows| - 1 {
      AttemptsGrow(rows[..|rows| - 1], i, account, logicalId);
      assert rows[..|rows| - 1][..i] == rows[..i];
    }
  }

  /** A granted reservation has a snapshot after every earlier attempt of its logical order. */
  lemma EarlierAttemptsAreCovered(w: World, a: Action, q: Row)
    requires Base(w) && InOrder(w.book.rows) && Granted(w, a)
    requires q in w.book.rows && q.logicalId == a.intent.orderRequestId
    ensures CompleteBefore(q, a.snapshot.started)
  {
    var row := GrantAppends(w, a);
    EarlierThanTheLast(w.book.rows, q, a.snapshot.started);
  }

  lemma EarlierThanTheLast(rows: seq<Row>, q: Row, instant: int)
    requires Contiguous(rows) && InOrder(rows) && q in rows
    requires var last := LastOf(rows, q.account, q.logicalId); last.Some? ==> CompleteBefore(last.value, instant)
    ensures CompleteBefore(q, instant)
  {
    var i: nat :| i < |rows| && rows[i] == q;
    AttemptsCount(rows, i, q.account, q.logicalId);
    LastOfIsTheLast(rows, q.account, q.logicalId);
    var last := LastOf(rows, q.account, q.logicalId).value;
    var j: nat :| j < |rows| && rows[j] == last;
    GreatestGenerationIsLast(rows, i, j);
    EarlierIsComplete(rows, i, j, instant);
  }

  /** The journal's own check covers every row while the latest completion is not of the same plan. */
  lemma LatestOfAnotherPlanCovers(w: World, a: Action, q: Row)
    requires Base(w) && Granted(w, a) && q in w.book.rows
    requires LatestOf(w.book.rows, w.account).Some? ==> LatestOf(w.book.rows, w.account).value.planId != a.planId
    ensures CompleteBefore(q, a.snapshot.started)
  {
    var row := GrantAppends(w, a);
    LatestIsTheLatest(w.book.rows, w.account);
    QuietRowsAreComplete(w);
    var i: nat :| i < |w.book.rows| && w.book.rows[i] == q;
  }

  /** Rows that were complete add nothing to what was missed. */
  lemma {:induction false} MissedOfOthers(rows: seq<Row>, planId: string, secid: string, side: Side, instant: int, trusted: bool)
    requires forall r :: r in rows && r.planId == planId && Secid(r.payload) == secid ==> CompleteBefore(r, instant)
    ensures MissedLots(rows, secid, side, instant, trusted) ==
            MissedLots(OfOthers(rows, planId), secid, side, instant, trusted)
  {
    if rows != [] {
      var n := |rows| - 1;
      var rest := OfOthers(rows[..n], planId);
      assert rows[n] in rows;
      MissedOfOthers(rows[..n], planId, secid, side, instant, trusted);
      assert (rest + [rows[n]])[..|rest|] == rest && rest + [] == rest;
    }
  }

  lemma {:induction false} NothingMissed(rows: seq<Row>, secid: string, side: Side, instant: int, trusted: bool)
    requires forall r :: r in rows ==> CompleteBefore(r, instant)
    ensures MissedLots(rows, secid, side, instant, trusted) == 0
  {
    if rows != [] {
      assert rows[|rows| - 1] in rows;
      NothingMissed(rows[..|rows| - 1], secid, side, instant, trusted);
    }
  }

  lemma SignsOfReduction(current: int, delta: int)
    requires Reduces(current, current + delta)
    ensures current != 0
    ensures current > 0 ==> -current <= delta < 0
    ensures current < 0 ==> 0 < delta <= -current
  {
    ProductSign(current, current + delta);
  }

  lemma ProductSign(a: int, b: int)
    ensures a > 0 && b < 0 ==> a * b < 0
    ensures a < 0 && b > 0 ==> a * b < 0
  {
  }

  /**
   What line 118 leaves out. With one order per security in a plan, what a granted flat's snapshot can have
   missed are orders of OTHER plans alone. The journal makes sure that the flat fits, unless the latest
   completion is the plan's own.
   */
  lemma GuardIsAboutOtherPlans(w: World, a: Action, trusted: bool)
    requires Sound(w) && Enabled(w, a) && Granted(w, a) && IsFlat(a.intent) && OnePerSecurity(w, a)
    ensures MissedLots(w.book.rows, Secid(a.intent), a.intent.side, a.snapshot.started, trusted) ==
            MissedLots(OfOthers(w.book.rows, a.planId), Secid(a.intent), a.intent.side, a.snapshot.started, trusted)
    ensures !FlatFits(a.snapshot, w.book.rows, a.intent, trusted) ==>
              && LatestOf(w.book.rows, w.account).Some?
              && LatestOf(w.book.rows, w.account).value.planId == a.planId
  {
    var rows, x := w.book.rows, Secid(a.intent);
    forall q | q in rows && q.planId == a.planId && Secid(q.payload) == x ensures CompleteBefore(q, a.snapshot.started) {
      EarlierAttemptsAreCovered(w, a, q);
    }
    MissedOfOthers(rows, a.planId, x, a.intent.side, a.snapshot.started, trusted);
    if LatestOf(rows, w.account).None? || LatestOf(rows, w.account).value.planId != a.planId {
      forall q | q in rows ensures CompleteBefore(q, a.snapshot.started) {
        LatestOfAnotherPlanCovers(w, a, q);
      }
      NothingMissed(rows, x, a.intent.side, a.snapshot.started, trusted);
      SignsOfReduction(a.basis, Signed(a.intent.side, a.intent.lots));
    }
  }
}
