/**
 The loop of `execute_shadow_plan` and the reconciliation of src/moex_bot/sandbox_execution.py, run
 against the world of `SandboxProtocol`. Between any two steps of the driver the broker and other
 processes may do anything; what they do and answer is given as a `Turn` for each order.
 */
module SandboxDriver {
  import opened Domain
  import opened Journal
  import opened SandboxProtocol
  import opened SandboxFlat

  // Why a run fails.
  const RESULT_REFUSED := "journal refused the broker result"
  const PROCESS_DIED := "process died"
  const DOES_NOT_FIT := "order does not fit the projected position"

  /** A plan run: the plan id, the snapshot it acts on, and the first orders up to the cycle limit. */
  datatype Plan = Plan(runId: string, snapshot: Snapshot, items: seq<OrderIntent>)

  /**
   What happens around one order: other actions, the new request id, and the broker's answers. A process
   that `dies` does so between its reservation and the submission; one that dies later gets no answer.
   */
  datatype Turn = Turn(
    before: seq<Action>, requestId: string, dies: bool,
    during: seq<Action>, reply: Result<OrderRecord>,
    settling: seq<Action>, settled: Option<Result<OrderRecord>>)

  datatype Run = Run(
    world: World, trace: seq<Action>, projected: map<string, int>, submitted: seq<OrderRecord>,
    stopped: Option<OrderStatus>, failure: Option<string>)

  function Begin(w: World, plan: Plan): Run {
    Run(w, [], plan.snapshot.lots, [], None, None)
  }

  /** Only the world and the trace differ. */
  predicate SameReport(r: Run, next: Run) {
    next.projected == r.projected && next.submitted == r.submitted && next.stopped == r.stopped
  }

  function Do(r: Run, actions: seq<Action>): (next: Run)
    ensures SameReport(r, next)
  {
    r.(world := After(r.world, actions), trace := r.trace + actions)
  }

  predicate Halted(r: Run) {
    r.stopped.Some? || r.failure.Some?
  }

  /** A broker answer goes into the journal, which may refuse it. */
  function Recorded(r: Run, answer: Result<OrderRecord>): (next: Run)
    ensures SameReport(r, next)
  {
    if answer.Err? then r.(failure := Some(answer.error))
    else if Record(r.world.book, r.world.account, answer.value, r.world.now).Err? then
      r.(failure := Some(RESULT_REFUSED))
    else Do(r, [Observe(answer.value)])
  }

  function Settled(r: Run, turn: Turn): (next: Run)
    ensures SameReport(r, next)
  {
    if r.failure.Some? || turn.settled.None? then r else Recorded(Do(r, turn.settling), turn.settled.value)
  }

  predicate HasFinalRecord(turn: Turn) {
    turn.reply.Ok? && (turn.settled.Some? ==> turn.settled.value.Ok?)
  }

  function FinalRecord(turn: Turn): OrderRecord
    requires HasFinalRecord(turn)
  {
    if turn.settled.Some? then turn.settled.value.value else turn.reply.value
  }

  function Finish(r: Run, item: OrderIntent, current: int, record: OrderRecord): Run {
    r.(submitted := r.submitted + [record],
    projected := r.projected[Secid(item) := current + Signed(item.side, record.filledLots)],
    stopped := if record.status == Filled then None else Some(record.status))
  }

  /** The run after the answers `done` to an order. */
  function Finished(r: Run, done: Run, item: OrderIntent, current: int, turn: Turn): Run {
    if done.failure.Some? then done
    else if HasFinalRecord(turn) then Finish(done, item, current, FinalRecord(turn))
    else r
  }

  function Answered(r: Run, item: OrderIntent, current: int, turn: Turn): Run {
    Finished(r, Settled(Recorded(r, turn.reply), turn), item, current, turn)
  }

  /** The order was granted a reservation: it is sent, whatever happens meanwhile, and answered. */
  function Sent(r: Run, a: Action, turn: Turn): (next: Run)
    ensures SameReport(r, next)
  {
    Do(Do(Do(r, [a]), [Submit(turn.requestId)]), turn.during)
  }

  /** The process dies with a reservation that it never submits. */
  function Died(r: Run, a: Action, turn: Turn): (next: Run)
    ensures SameReport(r, next)
  {
    Do(Do(r, [a]), [Crash(turn.requestId)]).(failure := Some(PROCESS_DIED))
  }

  /** The reservation of an order: what becomes of the run, and whether the order was sent. */
  function Opened(r: Run, a: Action, turn: Turn): (Run, bool)
    requires a.Attempt?
  {
    var asked := Do(r, turn.before);
    var reserved := ReserveResult(asked.world, a);
    if reserved.Err? then (asked.(failure := Some(reserved.error)), false)
    else if reserved.value.1.None? then (asked, false)
    else if turn.dies then (Died(asked, a, turn), false)
    else (Sent(asked, a, turn), true)
  }

  /** One iteration of the loop. */
  function DriveOne(r: Run, plan: Plan, item: OrderIntent, turn: Turn): Run {
    var current := Lots(r.projected, Secid(item));
    if Halted(r) then r
    else if !Gate(item, current) then r.(failure := Some(DOES_NOT_FIT))
    else
      var (begun, sent) := Opened(r, Attempt(plan.snapshot, current, item, plan.runId, turn.requestId), turn);
      if sent then Answered(begun, item, current, turn) else begun
  }

  function Drive(w: World, plan: Plan, turns: seq<Turn>, k: nat): Run
    requires k <= |plan.items| && k <= |turns|
  {
    if k == 0 then Begin(w, plan) else DriveOne(Drive(w, plan, turns, k - 1), plan, plan.items[k - 1], turns[k - 1])
  }

  // ---------------------------------------------------------------- what a run reports

  /** One more order was answered with a record the journal accepted. */
  predicate Reports(r: Run, item: OrderIntent, record: OrderRecord, next: Run) {
    && next.submitted == r.submitted + [record]
    && next.projected == r.projected[Secid(item) := Lots(r.projected, Secid(item)) + Signed(item.side, record.filledLots)]
    && next.stopped == (if record.status == Filled then None else Some(record.status))
    && Consistent(record)
  }

  predicate Consistent(record: OrderRecord) {
    && 0 <= record.filledLots <= record.intent.lots
    && (record.status == Filled ==> record.filledLots == record.intent.lots)
  }

  /** The journal accepts only consistent answers. */
  lemma RecordedIsConsistent(r: Run, answer: Result<OrderRecord>)
    requires r.failure.None? && Recorded(r, answer).failure.None?
    ensures answer.Ok? && Consistent(answer.value)
  {
  }

  lemma FinalRecordIsConsistent(r: Run, turn: Turn)
    requires r.failure.None? && Settled(Recorded(r, turn.reply), turn).failure.None?
    ensures HasFinalRecord(turn) && Consistent(FinalRecord(turn))
  {
    var a := Recorded(r, turn.reply);
    RecordedIsConsistent(r, turn.reply);
    if turn.settled.Some? {
      RecordedIsConsistent(Do(a, turn.settling), turn.settled.value);
    }
  }

  predicate ReportsAtMostOne(r: Run, item: OrderIntent, turn: Turn, next: Run) {
    SameReport(r, next) || (HasFinalRecord(turn) && Reports(r, item, FinalRecord(turn), next))
  }

  /** How the answers to an order are reported, for a run `done` with them. */
  lemma DoneReports(r: Run, done: Run, item: OrderIntent, turn: Turn)
    requires SameReport(r, done)
    requires done.failure.None? ==> HasFinalRecord(turn) && Consistent(FinalRecord(turn))
    ensures ReportsAtMostOne(r, item, turn, Finished(r, done, item, Lots(r.projected, Secid(item)), turn))
  {
  }

  /** Reserving an order reports nothing. */
  lemma OpenedReports(r: Run, a: Action, turn: Turn)
    requires a.Attempt?
    ensures SameReport(r, Opened(r, a, turn).0)
    ensures Opened(r, a, turn).1 ==> Opened(r, a, turn).0.failure == r.failure
  {
  }

  lemma SentReports(r: Run, begun: Run, item: OrderIntent, turn: Turn)
    requires SameReport(r, begun) && begun.failure.None?
    ensures ReportsAtMostOne(r, item, turn, Answered(begun, item, Lots(r.projected, Secid(item)), turn))
  {
    var done := Settled(Recorded(begun, turn.reply), turn);
    if done.failure.None? {
      FinalRecordIsConsistent(begun, turn);
    }
    DoneReports(begun, done, item, turn);
  }

  lemma DriveOneReports(r: Run, plan: Plan, item: OrderIntent, turn: Turn)
    ensures ReportsAtMostOne(r, item, turn, DriveOne(r, plan, item, turn))
    ensures Halted(r) ==> DriveOne(r, plan, item, turn) == r
  {
    if !Halted(r) {
      var a := Attempt(plan.snapshot, Lots(r.projected, Secid(item)), item, plan.runId, turn.requestId);
      OpenedReports(r, a, turn);
      if Opened(r, a, turn).1 {
        SentReports(r, Opened(r, a, turn).0, item, turn);
      }
    }
  }

  /** Every order but the last is filled, and the loop stopped exactly when the last one is not. */
  ghost predicate WellReported(submitted: seq<OrderRecord>, stopped: Option<OrderStatus>) {
    && (forall i :: 0 <= i < |submitted| - 1 ==> submitted[i].status == Filled)
    && (forall i :: 0 <= i < |submitted| ==> Consistent(submitted[i]))
    && stopped == if submitted == [] || submitted[|submitted| - 1].status == Filled then None
                  else Some(submitted[|submitted| - 1].status)
  }

  lemma ReportGrows(submitted: seq<OrderRecord>, record: OrderRecord)
    requires WellReported(submitted, None) && Consistent(record)
    ensures WellReported(submitted + [record], if record.status == Filled then None else Some(record.status))
  {
  }

  ghost predicate ReportsUpTo(r: Run, k: nat) {
    WellReported(r.submitted, r.stopped) && |r.submitted| <= k
  }

  lemma DriveOneIsWellReported(r: Run, next: Run, plan: Plan, item: OrderIntent, turn: Turn, k: nat)
    requires next == DriveOne(r, plan, item, turn) && ReportsUpTo(r, k)
    ensures ReportsUpTo(next, k + 1)
  {
    DriveOneReports(r, plan, item, turn);
    if !SameReport(r, next) {
      ReportGrows(r.submitted, FinalRecord(turn));
    }
  }

  /** The loop stops at the first order that is not filled, and only there. */
  lemma {:induction false} StopsAtTheFirstUnfilled(w: World, plan: Plan, turns: seq<Turn>, k: nat)
    requires k <= |plan.items| && k <= |turns|
    ensures ReportsUpTo(Drive(w, plan, turns, k), k)
  {
    if k > 0 {
      StopsAtTheFirstUnfilled(w, plan, turns, k - 1);
      DriveOneIsWellReported(Drive(w, plan, turns, k - 1), Drive(w, plan, turns, k), plan, plan.items[k - 1], turns[k - 1],
                             k - 1);
    }
  }

  predicate UniqueSecurities(items: seq<OrderIntent>) {
    forall i, j :: 0 <= i < j < |items| ==> Secid(items[i]) != Secid(items[j])
  }

  lemma OtherProjectionsStay(r: Run, plan: Plan, item: OrderIntent, turn: Turn, secid: string)
    requires Secid(item) != secid
    ensures Lots(DriveOne(r, plan, item, turn).projected, secid) == Lots(r.projected, secid)
  {
    DriveOneReports(r, plan, item, turn);
  }

  /** While a plan holds one order per security, each order is checked against the snapshot itself. */
  lemma {:induction false} GatesSeeTheSnapshot(w: World, plan: Plan, turns: seq<Turn>, k: nat, j: nat)
    requires k <= j < |plan.items| && k <= |turns| && UniqueSecurities(plan.items)
    ensures Lots(Drive(w, plan, turns, k).projected, Secid(plan.items[j])) ==
            Lots(plan.snapshot.lots, Secid(plan.items[j]))
  {
    if k > 0 {
      GatesSeeTheSnapshot(w, plan, turns, k - 1, j);
      assert Secid(plan.items[k - 1]) != Secid(plan.items[j]);
      OtherProjectionsStay(Drive(w, plan, turns, k - 1), plan, plan.items[k - 1], turns[k - 1], Secid(plan.items[j]));
    }
  }

  // ---------------------------------------------------------------- a run of the driver is a run of the protocol

  /** What is asked of everybody: what their interfaces allow, or also the guard of flats. */
  datatype Rule = AsLawful | AsGuarded(trusted: bool)

  ghost predicate StepAllowed(rule: Rule, w: World, a: Action) {
    Enabled(w, a) && (rule.AsGuarded? ==> Guarded(rule.trusted, w, a))
  }

  ghost predicate Allowed(rule: Rule, w: World, actions: seq<Action>) {
    Lawful(w, actions) && (rule.AsGuarded? ==> Disciplined(rule.trusted, w, actions))
  }

  ghost predicate Follows(rule: Rule, w: World, r: Run) {
    Allowed(rule, w, r.trace) && r.world == After(w, r.trace)
  }

  lemma AllowedAppend(rule: Rule, w: World, actions: seq<Action>, a: Action)
    requires Allowed(rule, w, actions) && StepAllowed(rule, After(w, actions), a)
    ensures Allowed(rule, w, actions + [a]) && After(w, actions + [a]) == Next(After(w, actions), a)
  {
    assert (actions + [a])[..|actions|] == actions;
  }

  lemma {:induction false} AfterComposes(w: World, a: seq<Action>, b: seq<Action>)
    ensures After(w, a + b) == After(After(w, a), b)
  {
    if b == [] {
      assert a + b == a;
    } else {
      var n := |b| - 1;
      AfterComposes(w, a, b[..n]);
      assert (a + b)[..|a + b| - 1] == a + b[..n];
    }
  }

  lemma {:induction false} RunsCompose(rule: Rule, w: World, a: seq<Action>, b: seq<Action>)
    requires Allowed(rule, w, a) && Allowed(rule, After(w, a), b)
    ensures Allowed(rule, w, a + b)
  {
    if b == [] {
      assert a + b == a;
    } else {
      var n := |b| - 1;
      RunsCompose(rule, w, a, b[..n]);
      AfterComposes(w, a, b[..n]);
      AllowedAppend(rule, w, a + b[..n], b[n]);
      assert a + b == (a + b[..n]) + [b[n]];
    }
  }

  lemma AllowedOne(rule: Rule, w: World, a: Action)
    requires StepAllowed(rule, w, a)
    ensures Allowed(rule, w, [a]) && After(w, [a]) == Next(w, a)
  {
    assert [] + [a] == [a] && After(w, []) == w;
    AllowedAppend(rule, w, [], a);
  }

  lemma DoFollows(rule: Rule, w: World, r: Run, actions: seq<Action>)
    requires Follows(rule, w, r) && Allowed(rule, r.world, actions)
    ensures Follows(rule, w, Do(r, actions))
  {
    RunsCompose(rule, w, r.trace, actions);
    AfterComposes(w, r.trace, actions);
  }

  lemma StepFollows(rule: Rule, w: World, r: Run, a: Action)
    requires Follows(rule, w, r) && StepAllowed(rule, r.world, a)
    ensures Follows(rule, w, Do(r, [a])) && Do(r, [a]).world == Next(r.world, a)
  {
    AllowedOne(rule, r.world, a);
    DoFollows(rule, w, r, [a]);
  }

  /** The broker calls an order final only if it is, and reports its real fills where final reports are trusted. */
  ghost predicate Truthful(rule: Rule, w: World, answer: Result<OrderRecord>) {
    answer.Ok? ==> StepAllowed(rule, w, Observe(answer.value))
  }

  lemma RecordedFollows(rule: Rule, w: World, r: Run, answer: Result<OrderRecord>)
    requires Follows(rule, w, r) && Truthful(rule, r.world, answer)
    ensures Follows(rule, w, Recorded(r, answer))
  {
    if answer.Ok? {
      StepFollows(rule, w, r, Observe(answer.value));
    }
  }

  /**
   What the other parties do around one order is allowed at the point where they do it, and the plan's
   snapshot was taken by then. Under the rule for flats one that the journal grants meets the guard.
   */
  ghost predicate AroundAllowed(rule: Rule, r: Run, plan: Plan, item: OrderIntent, turn: Turn)
  {
    var asked := Do(r, turn.before);
    var a := Attempt(plan.snapshot, Lots(r.projected, Secid(item)), item, plan.runId, turn.requestId);
    && Allowed(rule, r.world, turn.before)
    && plan.snapshot in asked.world.snaps && (rule.AsGuarded? ==> Guarded(rule.trusted, asked.world, a))
    && (Granted(asked.world, a) && !turn.dies ==>
          AnswersAllowed(rule, Do(Do(asked, [a]), [Submit(turn.requestId)]), turn))
  }

  ghost predicate AnswersAllowed(rule: Rule, sent: Run, turn: Turn) {
    var answered := Recorded(Do(sent, turn.during), turn.reply);
    && Allowed(rule, sent.world, turn.during) && Truthful(rule, Do(sent, turn.during).world, turn.reply)
    && (turn.settled.Some? ==> Allowed(rule, answered.world, turn.settling)
                               && Truthful(rule, Do(answered, turn.settling).world, turn.settled.value))
  }

  lemma AnsweredFollows(rule: Rule, w: World, sent: Run, item: OrderIntent, current: int, turn: Turn)
    requires Follows(rule, w, sent) && AnswersAllowed(rule, sent, turn)
    ensures Follows(rule, w, Answered(Do(sent, turn.during), item, current, turn))
  {
    var r := Do(sent, turn.during);
    DoFollows(rule, w, sent, turn.during);
    RecordedFollows(rule, w, r, turn.reply);
    var a := Recorded(r, turn.reply);
    if a.failure.None? && turn.settled.Some? {
      DoFollows(rule, w, a, turn.settling);
      RecordedFollows(rule, w, Do(a, turn.settling), turn.settled.value);
    }
  }

  /** Whatever the process does next with a reservation it was granted, sending it or dying, is allowed. */
  lemma ReservedFollows(rule: Rule, w: World, asked: Run, a: Action)
    requires a.Attempt? && Follows(rule, w, asked) && StepAllowed(rule, asked.world, a) && Granted(asked.world, a)
    ensures Follows(rule, w, Do(Do(asked, [a]), [Submit(a.requestId)]))
    ensures Follows(rule, w, Do(Do(asked, [a]), [Crash(a.requestId)]))
  {
    StepFollows(rule, w, asked, a);
    GrantIsReady(asked.world, a);
    var reserved := Do(asked, [a]);
    ReadyMayLeave(rule, reserved.world, a.requestId);
    StepFollows(rule, w, reserved, Submit(a.requestId));
    StepFollows(rule, w, reserved, Crash(a.requestId));
  }

  lemma GrantIsReady(w: World, a: Action)
    requires Granted(w, a)
    ensures a.requestId in Next(w, a).ready
  {
  }

  lemma ReadyMayLeave(rule: Rule, w: World, id: string)
    requires id in w.ready
    ensures StepAllowed(rule, w, Submit(id)) && StepAllowed(rule, w, Crash(id))
  {
  }

  ghost predicate TurnAllowed(rule: Rule, r: Run, plan: Plan, item: OrderIntent, turn: Turn)
  {
    Halted(r) || AroundAllowed(rule, r, plan, item, turn)
  }

  ghost predicate TurnsAllowed(rule: Rule, w: World, plan: Plan, turns: seq<Turn>, k: nat)
    requires k <= |plan.items| && k <= |turns|
  {
    k > 0 ==> TurnsAllowed(rule, w, plan, turns, k - 1)
              && TurnAllowed(rule, Drive(w, plan, turns, k - 1), plan, plan.items[k - 1], turns[k - 1])
  }

  lemma DriveOneFollows(rule: Rule, w: World, r: Run, plan: Plan, item: OrderIntent, turn: Turn)
    requires Follows(rule, w, r) && TurnAllowed(rule, r, plan, item, turn)
    ensures Follows(rule, w, DriveOne(r, plan, item, turn))
  {
    var current := Lots(r.projected, Secid(item));
    if !Halted(r) && Gate(item, current) {
      var asked := Do(r, turn.before);
      var a := Attempt(plan.snapshot, current, item, plan.runId, turn.requestId);
      DoFollows(rule, w, r, turn.before);
      if Granted(asked.world, a) {
        ReservedFollows(rule, w, asked, a);
        if !turn.dies {
          AnsweredFollows(rule, w, Do(Do(asked, [a]), [Submit(turn.requestId)]), item, current, turn);
        }
      }
    }
  }

  /**
   The driver refines the protocol: for every plan, whatever the broker and other processes do around it
   and wherever its process dies, its run is a lawful run of `SandboxProtocol`, and a disciplined one when
   everyone's flats meet the guard.
   */
  lemma {:induction false} DriverFollowsTheProtocol(rule: Rule, w: World, plan: Plan, turns: seq<Turn>, k: nat)
    requires k <= |plan.items| && k <= |turns| && TurnsAllowed(rule, w, plan, turns, k)
    ensures Follows(rule, w, Drive(w, plan, turns, k))
  {
    if k > 0 {
      DriverFollowsTheProtocol(rule, w, plan, turns, k - 1);
      DriveOneFollows(rule, w, Drive(w, plan, turns, k - 1), plan, plan.items[k - 1], turns[k - 1]);
    }
  }

  /** Hence no run of the driver with guarded flats, started in any such history, flips a position. */
  lemma DriverNeverFlips(trusted: bool, account: string, opening: map<string, int>, now: int, past: seq<Action>,
                         plan: Plan, turns: seq<Turn>, k: nat, i: nat)
    requires Allowed(AsGuarded(trusted), Initial(account, opening, now), past)
    requires var w := After(Initial(account, opening, now), past);
             && k <= |plan.items| && k <= |turns| && TurnsAllowed(AsGuarded(trusted), w, plan, turns, k)
             && i < |Drive(w, plan, turns, k).world.book.rows|
             && IsFlat(Drive(w, plan, turns, k).world.book.rows[i].payload)
    ensures var v := Drive(After(Initial(account, opening, now), past), plan, turns, k).world;
            var before, filled := PositionBefore(v, i), FillsOf(v.fills, v.book.rows[i].requestId);
            && (v.book.rows[i].payload.side == Sell ==> 0 <= before - filled <= before)
            && (v.book.rows[i].payload.side == Buy ==> before <= before + filled <= 0)
  {
    var w := Initial(account, opening, now);
    DriverFollowsTheProtocol(AsGuarded(trusted), After(w, past), plan, turns, k);
    var r := Drive(After(w, past), plan, turns, k);
    RunsCompose(AsGuarded(trusted), w, past, r.trace);
    AfterComposes(w, past, r.trace);
    FlatNeverFlips(trusted, account, opening, now, past + r.trace, i);
  }

  /** Without any discipline no driver run sends a logical order that is not a flat twice. */
  lemma DriverSendsOnce(account: string, opening: map<string, int>, now: int, past: seq<Action>,
                        plan: Plan, turns: seq<Turn>, k: nat, a: nat, b: nat, i: nat, j: nat)
    requires Lawful(Initial(account, opening, now), past)
    requires var w := After(Initial(account, opening, now), past);
             && k <= |plan.items| && k <= |turns| && TurnsAllowed(AsLawful, w, plan, turns, k)
             && var v := Drive(w, plan, turns, k).world;
                && a < |v.sent| && b < |v.sent| && i < |v.book.rows| && j < |v.book.rows|
                && v.sent[a] == v.book.rows[i].requestId && v.sent[b] == v.book.rows[j].requestId
                && v.book.rows[i].logicalId == v.book.rows[j].logicalId
                && !IsFlat(v.book.rows[i].payload) && !IsFlat(v.book.rows[j].payload)
    ensures a == b
  {
    var w := Initial(account, opening, now);
    DriverFollowsTheProtocol(AsLawful, After(w, past), plan, turns, k);
    var r := Drive(After(w, past), plan, turns, k);
    RunsCompose(AsLawful, w, past, r.trace);
    AfterComposes(w, past, r.trace);
    AtMostOnce(account, opening, now, past + r.trace, a, b, i, j);
  }
}
