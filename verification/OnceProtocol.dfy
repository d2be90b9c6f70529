/**
 The one-shot entry of src/moex_bot/long_auto_once.py as a protocol. The database may be
 restored to any earlier content while nobody holds the workflow lock; the anchor and the fence are
 files outside it that are created exclusively and never removed. A process may die between any two
 durable writes, the broker may answer anything, and its adapter may call the mutation guard and post
 a stop as often as it likes.
 */
module OnceProtocol {
  import opened Domain

  datatype Candidate = Candidate(
    accountId: string, orderRequestId: string, instrument: Instrument, limitPrice: real, stopTrigger: real,
    validUntil: int, decision: string)

  datatype Progress =
    | Claimed
    | EntryObserved
    | CancelPending
    | EntryNotFilled
    | StopPending
    | FilledProtected
    | Quarantined

  /** The one row of the `attempt` table. */
  datatype Attempt = Attempt(candidate: Candidate, progress: Progress, record: Option<OrderRecord>)

  datatype Mark = Mark(account: string, candidate: Candidate)

  /** A file created with mode "x": it exists, possibly torn, from the creation on. */
  datatype File = Absent | Torn | Written(mark: Mark)

  /** Where the process that holds the lock is; `Free` when nobody holds it. */
  datatype Pc =
    | Free
    | Preflighted(c: Candidate)
    | RowInserted(c: Candidate)
    | AnchorOpen(c: Candidate)
    | Anchored(c: Candidate)
    | Bought(c: Candidate)
    | Observed(c: Candidate, entry: OrderRecord, cancelled: bool)
    | Cancelling(c: Candidate, entry: OrderRecord)
    | CancelSent(c: Candidate)
    | Stopping(c: Candidate, entry: OrderRecord)
    | FenceOpen(c: Candidate, entry: OrderRecord)
    | Fenced(c: Candidate, entry: OrderRecord)

  /** A stop that was posted, and the parent order that was durable at that moment. */
  datatype Stop = Stop(candidate: Candidate, parent: Option<OrderRecord>)

  datatype State = State(
    account: string, db: Option<Attempt>, past: set<Option<Attempt>>, anchor: File, fence: File, pc: Pc,
    buys: seq<Candidate>, cancels: seq<Candidate>, stops: seq<Stop>)

  datatype Step =
    | StartRun(c: Candidate)
    | InsertRow
    | OpenAnchor
    | WriteAnchor
    | SendBuy
    | RecordEntry(entry: OrderRecord)
    | RecordCancelPending(entry: OrderRecord)
    | SendCancel
    | RecordNotFilled
    | RecordStopPending
    | StartRecovery(c: Candidate)
    | OpenFence
    | WriteFence
    | SendStop
    | RecordProtected
    | RecordQuarantined
    | Die
    | Restore(db: Option<Attempt>)

  // ---------------------------------------------------------------- what the code checks

  function Expected(s: State, a: Attempt): File {
    Written(Mark(s.account, a.candidate))
  }

  /** `_check_anchor` */
  predicate AnchorOk(s: State) {
    match s.db
    case None => s.anchor == Absent
    case Some(a) =>
      && s.anchor == Expected(s, a)
      && (s.fence == Absent
          || (s.fence == Expected(s, a)
              && (a.progress == StopPending || a.progress == FilledProtected || a.progress == Quarantined)))
  }

  /** `mutation_guard` lets a transport call through without creating the fence. */
  predicate GuardPasses(s: State) {
    AnchorOk(s) && s.db.Some? && s.db.value.progress != StopPending
  }

  /** `mutation_guard` creates the fence, exclusively. */
  predicate GuardFences(s: State) {
    AnchorOk(s) && s.db.Some? && s.db.value.progress == StopPending && s.fence == Absent
  }

  predicate FilledOneLot(r: OrderRecord) {
    r.status == Filled && r.filledLots == 1
  }

  /** The broker's entry is the candidate's order. */
  predicate Matches(c: Candidate, o: OrderIntent) {
    && o.orderRequestId == c.orderRequestId && o.instrument == c.instrument && o.side == Buy && o.lots == 1
    && o.limitPrice == c.limitPrice
  }

  predicate NotFilled(r: OrderRecord) {
    (r.status == Cancelled || r.status == Rejected) && r.filledLots == 0
  }

  /** The row that a stop-only recovery starts from. */
  predicate Recoverable(s: State, c: Candidate) {
    && AnchorOk(s) && c.accountId == s.account
    && s.db.Some? && s.db.value.candidate == c && s.db.value.progress == EntryObserved && s.db.value.record.Some?
    && FilledOneLot(s.db.value.record.value) && Matches(c, s.db.value.record.value.intent)
  }

  // ---------------------------------------------------------------- steps

  predicate Enabled(s: State, step: Step) {
    match step
    case StartRun(c) => s.pc == Free && c.accountId == s.account && AnchorOk(s) && s.db == None
    case InsertRow => s.pc.Preflighted? && s.db == None
    case OpenAnchor => s.pc.RowInserted? && s.anchor == Absent
    case WriteAnchor => s.pc.AnchorOpen?
    case SendBuy => s.pc.Anchored? && AnchorOk(s) && GuardPasses(s)
    case RecordEntry(entry) =>
      s.db.Some? && ((s.pc.Bought? && Matches(s.pc.c, entry.intent)) || s.pc.Observed? || s.pc.Cancelling? || s.pc.CancelSent?)
    case RecordCancelPending(_) => s.db.Some? && s.pc.Observed? && !s.pc.cancelled
    case SendCancel => s.pc.Cancelling? && GuardPasses(s)
    case RecordNotFilled => s.db.Some? && s.pc.Observed? && NotFilled(s.pc.entry)
    case RecordStopPending => s.db.Some? && s.pc.Observed? && FilledOneLot(s.pc.entry)
    case StartRecovery(c) => s.pc == Free && Recoverable(s, c)
    case OpenFence => s.pc.Stopping? && GuardFences(s)
    case WriteFence => s.pc.FenceOpen?
    case SendStop => s.pc.Fenced? || (s.pc.Stopping? && GuardPasses(s))
    case RecordProtected => s.db.Some? && s.pc.Stopping?
    case RecordQuarantined =>
      s.db.Some? && !s.pc.Free? && !s.pc.Preflighted? && !s.pc.RowInserted? && !s.pc.AnchorOpen?
    case Die => s.pc != Free
    case Restore(db) => s.pc == Free && db in s.past
  }

  /** `record`: one update of the row, keeping the earlier order record unless a new one is given. */
  function Recorded(s: State, progress: Progress, record: Option<OrderRecord>, pc: Pc): State
    requires s.db.Some?
  {
    var db := Some(Attempt(s.db.value.candidate, progress, if record.Some? then record else s.db.value.record));
    s.(db := db, past := s.past + {db}, pc := pc)
  }

  function Durable(s: State): Option<OrderRecord> {
    if s.db.Some? then s.db.value.record else None
  }

  function Next(s: State, step: Step): State {
    if !Enabled(s, step) then s else
    match step
    case StartRun(c) => s.(pc := Preflighted(c))
    case InsertRow =>
      var db := Some(Attempt(s.pc.c, Claimed, None));
      s.(db := db, past := s.past + {db}, pc := RowInserted(s.pc.c))
    case OpenAnchor => s.(anchor := Torn, pc := AnchorOpen(s.pc.c))
    case WriteAnchor => s.(anchor := Written(Mark(s.account, s.pc.c)), pc := Anchored(s.pc.c))
    case SendBuy => s.(buys := s.buys + [s.pc.c], pc := Bought(s.pc.c))
    case RecordEntry(entry) =>
      Recorded(s, EntryObserved, Some(entry),
               Observed(s.pc.c, entry, s.pc.Cancelling? || s.pc.CancelSent? || (s.pc.Observed? && s.pc.cancelled)))
    case RecordCancelPending(entry) => Recorded(s, CancelPending, Some(entry), Cancelling(s.pc.c, entry))
    case SendCancel => s.(cancels := s.cancels + [s.pc.c], pc := CancelSent(s.pc.c))
    case RecordNotFilled => Recorded(s, EntryNotFilled, Some(s.pc.entry), Free)
    case RecordStopPending => Recorded(s, StopPending, Some(s.pc.entry), Stopping(s.pc.c, s.pc.entry))
    case StartRecovery(c) =>
      Recorded(s, StopPending, None, Stopping(c, s.db.value.record.value.(statusDetail := "")))
    case OpenFence => s.(fence := Torn, pc := FenceOpen(s.pc.c, s.pc.entry))
    case WriteFence => s.(fence := s.anchor, pc := Fenced(s.pc.c, s.pc.entry))
    case SendStop => s.(stops := s.stops + [Stop(s.pc.c, Durable(s))], pc := Stopping(s.pc.c, s.pc.entry))
    case RecordProtected => Recorded(s, FilledProtected, Some(s.pc.entry), Free)
    case RecordQuarantined => Recorded(s, Quarantined, None, Free)
    case Die => s.(pc := Free)
    case Restore(db) => s.(db := db)
  }

  /** An initialized ledger that waits for its first candidate. */
  function Waiting(account: string): State {
    State(account, None, {None}, Absent, Absent, Free, [], [], [])
  }

  function After(s: State, steps: seq<Step>): State {
    if steps == [] then s else Next(After(s, steps[..|steps| - 1]), steps[|steps| - 1])
  }

  // ---------------------------------------------------------------- what every step keeps

  /** What a row says about the world outside the database, whenever it was written. */
  ghost predicate RowTells(s: State, db: Option<Attempt>) {
    db.Some? ==>
      && (db.value.record.Some? ==> s.buys == [db.value.candidate])
      && (db.value.progress == StopPending || db.value.progress == FilledProtected ==>
            db.value.record.Some? && FilledOneLot(db.value.record.value))
  }

  ghost predicate Entered(s: State, c: Candidate) {
    s.anchor == Written(Mark(s.account, c)) && s.buys == [c] && s.db.Some? && s.db.value.candidate == c
  }

  /** Where the process is tells what has happened outside the database. */
  ghost predicate PcTells(s: State) {
    match s.pc
    case Free => true
    case Preflighted(c) => s.anchor == Absent && s.db == None
    case RowInserted(c) => s.anchor == Absent && s.db == Some(Attempt(c, Claimed, None))
    case AnchorOpen(c) => s.anchor == Torn && s.buys == [] && s.db == Some(Attempt(c, Claimed, None))
    case Anchored(c) =>
      s.anchor == Written(Mark(s.account, c)) && s.buys == [] && s.db == Some(Attempt(c, Claimed, None))
    case Bought(c) => Entered(s, c) && s.fence == Absent && s.cancels == [] && s.db.value.progress == Claimed
    case Observed(c, entry, cancelled) =>
      && Entered(s, c) && s.fence == Absent && s.db.value == Attempt(c, EntryObserved, Some(entry))
      && (!cancelled ==> s.cancels == [])
    case Cancelling(c, entry) =>
      && Entered(s, c) && s.fence == Absent && s.db.value == Attempt(c, CancelPending, Some(entry))
      && s.cancels == []
    case CancelSent(c) => Entered(s, c) && s.fence == Absent
    case Stopping(c, entry) =>
      Entered(s, c) && s.db.value.progress == StopPending && FilledOneLot(entry)
    case FenceOpen(c, entry) =>
      && Entered(s, c) && s.db.value.progress == StopPending && FilledOneLot(entry)
      && s.fence == Torn && s.stops == []
    case Fenced(c, entry) =>
      && Entered(s, c) && s.db.value.progress == StopPending && FilledOneLot(entry)
      && s.fence == s.anchor && s.stops == []
  }

  /** The two files bound the transport calls. */
  ghost predicate FilesTell(s: State) {
    && (s.anchor == Absent || s.anchor == Torn ==> s.buys == [])
    && (s.buys == [] ==> s.cancels == [] && s.fence == Absent)
    && (s.cancels == [] || s.cancels == s.buys)
    && (forall c :: c in s.buys ==> s.buys == [c] && s.anchor == Written(Mark(s.account, c)))
    && (s.fence == Absent || s.fence == Torn ==> s.stops == [])
  }

  /** At most one stop, for the bought candidate, with a durable filled one-lot parent. */
  ghost predicate StopsOk(s: State) {
    s.stops == []
    || (exists c: Candidate, r: OrderRecord :: s.stops == [Stop(c, Some(r))] && s.buys == [c] && FilledOneLot(r))
  }

  ghost predicate Inv(s: State) {
    && PcTells(s) && FilesTell(s) && StopsOk(s)
    && s.db in s.past && forall db :: db in s.past ==> RowTells(s, db)
  }

  /** A step of the stop, whoever takes it. */
  predicate IsStopStep(step: Step) {
    step.OpenFence? || step.WriteFence? || step.SendStop? || step.RecordStopPending? || step.StartRecovery?
  }

  lemma StopStepKeepsPc(s: State, step: Step)
    requires Inv(s) && IsStopStep(step)
    ensures PcTells(Next(s, step))
  {
  }

  lemma EntryStepKeepsPc(s: State, step: Step)
    requires Inv(s) && !IsStopStep(step)
    ensures PcTells(Next(s, step))
  {
  }

  lemma NextKeepsPc(s: State, step: Step)
    requires Inv(s)
    ensures PcTells(Next(s, step))
  {
    if IsStopStep(step) {
      StopStepKeepsPc(s, step);
    } else {
      EntryStepKeepsPc(s, step);
    }
  }

  lemma NextKeepsFiles(s: State, step: Step)
    requires PcTells(s) && FilesTell(s)
    ensures FilesTell(Next(s, step))
  {
  }

  lemma NextKeepsStops(s: State, step: Step)
    requires Inv(s)
    ensures StopsOk(Next(s, step))
  {
  }

  lemma NextKeepsRows(s: State, step: Step)
    requires Inv(s)
    ensures var t := Next(s, step); t.db in t.past && forall db :: db in t.past ==> RowTells(t, db)
  {
  }

  lemma NextKeepsInv(s: State, step: Step)
    requires Inv(s)
    ensures Inv(Next(s, step))
  {
    NextKeepsPc(s, step);
    NextKeepsFiles(s, step);
    NextKeepsStops(s, step);
    NextKeepsRows(s, step);
  }

  lemma AccountStays(s: State, step: Step)
    ensures Next(s, step).account == s.account
  {
  }

  lemma AfterOneMore(s: State, steps: seq<Step>, step: Step)
    ensures After(s, steps + [step]) == Next(After(s, steps), step)
  {
    assert (steps + [step])[..|steps|] == steps;
  }

  lemma {:induction false} EveryRunIsSafe(account: string, steps: seq<Step>)
    ensures Inv(After(Waiting(account), steps))
  {
    if steps != [] {
      EveryRunIsSafe(account, steps[..|steps| - 1]);
      NextKeepsInv(After(Waiting(account), steps[..|steps| - 1]), steps[|steps| - 1]);
    }
  }

  /**
   One shot: over any number of run and recovery processes that die anywhere, with the database restored
   to any earlier content between them, at most one BUY, one cancellation and one stop are ever posted,
   all for the same candidate, and the stop only after its one-lot parent was durably FILLED.
   */
  lemma OneShot(account: string, steps: seq<Step>)
    ensures var s := After(Waiting(account), steps);
            && |s.buys| <= 1 && |s.cancels| <= 1 && |s.stops| <= 1
            && (s.cancels != [] ==> s.cancels == s.buys)
            && (s.stops != [] ==> && s.buys == [s.stops[0].candidate]
                                  && s.stops[0].parent.Some? && FilledOneLot(s.stops[0].parent.value))
  {
    EveryRunIsSafe(account, steps);
    var s := After(Waiting(account), steps);
    if s.buys != [] {
      assert s.buys[0] in s.buys;
    }
  }

  /** Once a BUY was posted no process, whatever database it finds, gets as far as claiming again. */
  lemma NoReentry(account: string, steps: seq<Step>, c: Candidate, db: Option<Attempt>)
    requires After(Waiting(account), steps).buys != []
    ensures !Enabled(After(Waiting(account), steps).(db := db), StartRun(c))
  {
    EveryRunIsSafe(account, steps);
  }

  lemma {:induction false} AfterComposes(s: State, a: seq<Step>, b: seq<Step>)
    ensures After(s, a + b) == After(After(s, a), b)
  {
    if b == [] {
      assert a + b == a;
    } else {
      var n := |b| - 1;
      AfterComposes(s, a, b[..n]);
      assert (a + b)[..|a + b| - 1] == a + b[..n];
    }
  }

  lemma AfterTwo(s: State, a: Step, b: Step)
    ensures After(s, [a, b]) == Next(Next(s, a), b)
  {
    assert [a, b][..1] == [a] && [a][..0] == [];
    assert After(s, []) == s && After(s, [a]) == Next(s, a);
  }

  lemma AfterFour(s: State, a: Step, b: Step, c: Step, d: Step)
    ensures After(s, [a, b, c, d]) == Next(Next(Next(Next(s, a), b), c), d)
  {
    assert [a, b, c, d] == [a, b] + [c, d];
    AfterComposes(s, [a, b], [c, d]);
    AfterTwo(s, a, b);
    AfterTwo(Next(Next(s, a), b), c, d);
  }

  /** The first half of an entry: claim it and write the anchor. */
  lemma AnchorIsWritten(c: Candidate)
    ensures After(Waiting(c.accountId), [StartRun(c), InsertRow, OpenAnchor, WriteAnchor]) ==
            Waiting(c.accountId).(
            db := Some(Attempt(c, Claimed, None)), past := {None, Some(Attempt(c, Claimed, None))},
            anchor := Written(Mark(c.accountId, c)), pc := Anchored(c))
  {
    AfterFour(Waiting(c.accountId), StartRun(c), InsertRow, OpenAnchor, WriteAnchor);
  }

  lemma BuyIsObserved(s: State, c: Candidate, entry: OrderRecord)
    requires s.pc == Anchored(c) && GuardPasses(s) && s.db.value.candidate == c
    requires Matches(c, entry.intent)
    ensures var db := Some(Attempt(c, EntryObserved, Some(entry)));
            Next(Next(s, SendBuy), RecordEntry(entry)) ==
            s.(buys := s.buys + [c], db := db, past := s.past + {db}, pc := Observed(c, entry, false))
  {
  }

  lemma StopIsPrepared(s: State, c: Candidate, entry: OrderRecord)
    requires s.pc == Observed(c, entry, false) && FilledOneLot(entry) && s.fence == Absent
    requires s.anchor == Written(Mark(s.account, c)) && s.db == Some(Attempt(c, EntryObserved, Some(entry)))
    ensures var t := Next(Next(s, RecordStopPending), OpenFence);
            && t.pc == FenceOpen(c, entry) && t.db == Some(Attempt(c, StopPending, Some(entry)))
            && t.buys == s.buys && t.stops == s.stops && t.anchor == s.anchor
  {
  }

  lemma EntryFills(s: State, c: Candidate, entry: OrderRecord)
    requires s.pc == Anchored(c) && GuardPasses(s) && s.db.value.candidate == c && s.fence == Absent
    requires Matches(c, entry.intent) && FilledOneLot(entry)
    ensures var t := After(s, [SendBuy, RecordEntry(entry), RecordStopPending, OpenFence]);
            && t.pc == FenceOpen(c, entry) && t.db == Some(Attempt(c, StopPending, Some(entry)))
            && t.buys == s.buys + [c] && t.stops == s.stops && t.anchor == s.anchor
  {
    AfterFour(s, SendBuy, RecordEntry(entry), RecordStopPending, OpenFence);
    BuyIsObserved(s, c, entry);
    StopIsPrepared(Next(Next(s, SendBuy), RecordEntry(entry)), c, entry);
  }

  lemma EntryIsProtected(s: State, c: Candidate, entry: OrderRecord)
    requires s.pc == FenceOpen(c, entry) && s.db == Some(Attempt(c, StopPending, Some(entry)))
    ensures var t := After(s, [WriteFence, SendStop, RecordProtected, Die]);
            && t.pc == Free && t.db == Some(Attempt(c, FilledProtected, Some(entry)))
            && t.buys == s.buys && t.stops == s.stops + [Stop(c, Some(entry))]
  {
    AfterFour(s, WriteFence, SendStop, RecordProtected, Die);
  }

  lemma StopIsPosted(s: State, c: Candidate, entry: OrderRecord)
    requires s.pc == Stopping(c, entry) && GuardFences(s)
    ensures var t := Next(Next(Next(s, OpenFence), WriteFence), SendStop);
            t == s.(fence := s.anchor, stops := s.stops + [Stop(c, Durable(s))])
  {
  }

  /** The bounds are reached: an entry that fills at once is bought once and protected by one stop. */
  lemma FilledEntryIsProtected(c: Candidate, entry: OrderRecord)
    requires Matches(c, entry.intent) && FilledOneLot(entry)
    ensures var s := After(After(After(Waiting(c.accountId), [StartRun(c), InsertRow, OpenAnchor, WriteAnchor]),
                                 [SendBuy, RecordEntry(entry), RecordStopPending, OpenFence]),
                           [WriteFence, SendStop, RecordProtected, Die]);
            && s.buys == [c] && s.stops == [Stop(c, Some(entry))] && s.pc == Free
            && s.db == Some(Attempt(c, FilledProtected, Some(entry)))
  {
    AnchorIsWritten(c);
    var a := After(Waiting(c.accountId), [StartRun(c), InsertRow, OpenAnchor, WriteAnchor]);
    EntryFills(a, c, entry);
    EntryIsProtected(After(a, [SendBuy, RecordEntry(entry), RecordStopPending, OpenFence]), c, entry);
  }

  // ---------------------------------------------------------------- a restore in the middle of a run

  lemma AfterThree(s: State, a: Step, b: Step, c: Step)
    ensures After(s, [a, b, c]) == Next(Next(Next(s, a), b), c)
  {
    assert [a, b, c][..2] == [a, b];
    AfterTwo(s, a, b);
  }

  /** A filled entry that is about to be protected; the row it had before is among the backups. */
  lemma EntryAwaitsItsStop(c: Candidate, entry: OrderRecord)
    requires Matches(c, entry.intent) && FilledOneLot(entry)
    ensures var s := After(After(Waiting(c.accountId), [StartRun(c), InsertRow, OpenAnchor, WriteAnchor]),
                           [SendBuy, RecordEntry(entry), RecordStopPending]);
            && s.pc == Stopping(c, entry) && s.anchor == Written(Mark(c.accountId, c)) && s.fence == Absent
            && s.account == c.accountId && s.stops == [] && Some(Attempt(c, EntryObserved, Some(entry))) in s.past
  {
    AnchorIsWritten(c);
    var a := After(Waiting(c.accountId), [StartRun(c), InsertRow, OpenAnchor, WriteAnchor]);
    AfterThree(a, SendBuy, RecordEntry(entry), RecordStopPending);
  }

  /**
   A run in which restoring an earlier row defeats the fence: the guard reads ENTRY_OBSERVED and lets the
   stop through without creating it, the process dies, and a recovery posts a second stop.
   */
  lemma RestoreDuringARunDefeatsTheFence(c: Candidate, entry: OrderRecord)
    requires Matches(c, entry.intent) && FilledOneLot(entry)
    ensures var s := After(After(Waiting(c.accountId), [StartRun(c), InsertRow, OpenAnchor, WriteAnchor]),
                           [SendBuy, RecordEntry(entry), RecordStopPending]);
            exists backup :: backup in s.past &&
              |After(After(s.(db := backup), [SendStop, Die]), [StartRecovery(c), OpenFence, WriteFence, SendStop]).stops| == 2
  {
    EntryAwaitsItsStop(c, entry);
    var s := After(After(Waiting(c.accountId), [StartRun(c), InsertRow, OpenAnchor, WriteAnchor]),
                   [SendBuy, RecordEntry(entry), RecordStopPending]);
    var backup := Some(Attempt(c, EntryObserved, Some(entry)));
    StopsTwice(s.(db := backup), c, entry);
    assert backup in s.past;
  }

  lemma StopsTwice(restored: State, c: Candidate, entry: OrderRecord)
    requires restored.pc == Stopping(c, entry) && restored.fence == Absent && restored.account == c.accountId
    requires restored.anchor == Written(Mark(c.accountId, c)) && restored.stops == []
    requires restored.db == Some(Attempt(c, EntryObserved, Some(entry)))
    requires Matches(c, entry.intent) && FilledOneLot(entry)
    ensures |After(After(restored, [SendStop, Die]), [StartRecovery(c), OpenFence, WriteFence, SendStop]).stops| == 2
  {
    var dead := restored.(stops := restored.stops + [Stop(c, Some(entry))], pc := Free);
    UnfencedStop(restored, c, entry);
    RecoveryStops(dead, c, entry);
  }

  lemma UnfencedStop(s: State, c: Candidate, entry: OrderRecord)
    requires s.pc == Stopping(c, entry) && GuardPasses(s) && Durable(s) == Some(entry)
    ensures After(s, [SendStop, Die]) == s.(stops := s.stops + [Stop(c, Some(entry))], pc := Free)
  {
    AfterTwo(s, SendStop, Die);
  }

  lemma RecoveryStops(dead: State, c: Candidate, entry: OrderRecord)
    requires dead.pc == Free && Recoverable(dead, c) && dead.fence == Absent && dead.db.value.record == Some(entry)
    ensures |After(dead, [StartRecovery(c), OpenFence, WriteFence, SendStop]).stops| == |dead.stops| + 1
  {
    AfterFour(dead, StartRecovery(c), OpenFence, WriteFence, SendStop);
    var recovering := Next(dead, StartRecovery(c));
    assert recovering.pc == Stopping(c, entry.(statusDetail := "")) && recovering.stops == dead.stops;
    StopIsPosted(recovering, c, entry.(statusDetail := ""));
  }

  /**
   With this row in place the guard lets a stop through that it should fence: the process has reached its
   stop, and the row is of its candidate in another state than STOP_PENDING, or, once the fence is there,
   in FILLED_PROTECTED or QUARANTINED.
   */
  predicate GuardOpens(s: State, db: Option<Attempt>) {
    match s.pc
    case Stopping(_, _) => GuardPasses(s.(db := db))
    case FenceOpen(_, _) => GuardPasses(s.(db := db, fence := s.anchor))
    case Fenced(_, _) => GuardPasses(s.(db := db))
    case _ => false
  }

  predicate Single(s: State) {
    |s.buys| <= 1 && |s.cancels| <= 1 && |s.stops| <= 1
  }

  ghost predicate StaysSingle(s: State) {
    forall steps :: Single(After(s, steps))
  }

  /** What bounds the calls when the row may be anything: the files and the position of the process. */
  ghost predicate Bounded(s: State) {
    && Single(s)
    && (s.anchor == Absent ==> s.buys == [] && s.cancels == [])
    && (s.fence == Absent || s.fence == Torn ==> s.stops == [])
    && match s.pc
       case Free => true
       case Preflighted(_) => s.anchor == Absent
       case RowInserted(_) => s.anchor == Absent
       case AnchorOpen(_) => s.buys == [] && s.cancels == []
       case Anchored(_) => s.buys == [] && s.cancels == []
       case Bought(_) => s.cancels == []
       case Observed(_, _, cancelled) => !cancelled ==> s.cancels == []
       case Cancelling(_, _) => s.cancels == []
       case CancelSent(_) => true
       case Stopping(_, _) => !GuardOpens(s, s.db)
       case FenceOpen(_, _) => s.anchor.Written? && s.stops == [] && !GuardOpens(s, s.db)
       case Fenced(_, _) => s.anchor.Written? && s.fence == s.anchor && s.stops == [] && !GuardOpens(s, s.db)
  }

  lemma NextKeepsBounded(s: State, step: Step)
    requires Bounded(s)
    ensures Bounded(Next(s, step))
  {
  }

  lemma {:induction false} BoundedStaysSingle(s: State, steps: seq<Step>)
    requires Bounded(s)
    ensures Bounded(After(s, steps))
  {
    if steps != [] {
      BoundedStaysSingle(s, steps[..|steps| - 1]);
      NextKeepsBounded(After(s, steps[..|steps| - 1]), steps[|steps| - 1]);
    }
  }

  lemma HarmlessRestoreIsBounded(s: State, db: Option<Attempt>)
    requires Inv(s) && !GuardOpens(s, db)
    ensures Bounded(s.(db := db))
  {
    if s.buys != [] {
      assert s.buys[0] in s.buys;
    }
  }

  /** A guard that is open posts as many stops as it is asked to. */
  lemma OpenGuardPostsAgain(s: State, db: Option<Attempt>)
    requires GuardOpens(s, db)
    ensures !StaysSingle(s.(db := db))
  {
    var r := s.(db := db);
    if s.pc.FenceOpen? {
      var fenced := r.(fence := r.anchor, pc := Fenced(r.pc.c, r.pc.entry));
      AfterThree(r, WriteFence, SendStop, SendStop);
      assert Next(r, WriteFence) == fenced;
      OpenGuardPostsTwo(fenced);
      assert !Single(After(r, [WriteFence, SendStop, SendStop]));
    } else {
      AfterTwo(r, SendStop, SendStop);
      OpenGuardPostsTwo(r);
      assert !Single(After(r, [SendStop, SendStop]));
    }
  }

  lemma OpenGuardPostsTwo(s: State)
    requires (s.pc.Stopping? || s.pc.Fenced?) && GuardPasses(s)
    ensures |Next(Next(s, SendStop), SendStop).stops| == |s.stops| + 2
  {
    assert GuardPasses(Next(s, SendStop)) && Next(s, SendStop).pc.Stopping?;
  }

  /**
   Which restores are harmless, at any moment of any run and for any content put in place: whatever
   happens afterwards at most one BUY, one cancellation and one stop are posted, if and only if the row
   does not open the guard of a process that has reached its stop.
   */
  lemma RestoreIsHarmlessIff(account: string, steps: seq<Step>, db: Option<Attempt>)
    ensures var s := After(Waiting(account), steps); StaysSingle(s.(db := db)) <==> !GuardOpens(s, db)
  {
    var s := After(Waiting(account), steps);
    EveryRunIsSafe(account, steps);
    if GuardOpens(s, db) {
      OpenGuardPostsAgain(s, db);
    } else {
      HarmlessRestoreIsBounded(s, db);
      forall more ensures Single(After(s.(db := db), more)) {
        BoundedStaysSingle(s.(db := db), more);
      }
    }
  }
}
