/**
 What one order of a plan comes to: when the driver lets it through, when it is reserved and sent, what the
 journal holds of it afterwards, and what the run reports.
 */
module SandboxRules {
  import opened Domain
  import opened Journal
  import opened JournalTheorems
  import opened JournalRules
  import opened SandboxProtocol
  import opened SandboxDriver

  // ---------------------------------------------------------------- the gate

  function AfterOrder(o: OrderIntent, current: int): int {
    if o.side == Buy then current + o.lots else current - o.lots
  }

  /** Margin is confirmed exactly for a short that grows, on an instrument that allows it, and a flat only closes. */
  predicate Accepts(o: OrderIntent, current: int) {
    var after := AfterOrder(o, current);
    && (o.confirmMarginTrade <==> after < 0 && after < current)
    && (after < 0 && after < current ==> o.instrument.shortEnabled)
    && (o.rationale == "intraday mandatory flat" ==> 0 <= after < current || current < after <= 0)
  }

  lemma GateIff(o: OrderIntent, current: int)
    ensures Gate(o, current) <==> Accepts(o, current)
  {
    ProductIsNegative(current, AfterOrder(o, current));
  }

  /** Every row that was ever reserved confirms margin only for a sale of an instrument that allows shorts. */
  ghost predicate EveryRowIsGated(rows: seq<Row>) {
    forall r :: r in rows && r.payload.confirmMarginTrade ==> r.payload.side == Sell && r.payload.instrument.shortEnabled
  }

  lemma NextIsGated(w: World, a: Action)
    requires Base(w) && Enabled(w, a) && EveryRowIsGated(w.book.rows)
    ensures EveryRowIsGated(Next(w, a).book.rows)
  {
    if Granted(w, a) {
      var row := GrantAppends(w, a);
      GateIff(a.intent, a.basis);
    } else if a.Observe? {
      CompletedIsTerminal(w);
      var k := ObserveRewrites(w, a.result);
    }
  }

  lemma {:induction false} EveryRunIsGated(account: string, opening: map<string, int>, now: int, actions: seq<Action>)
    requires Lawful(Initial(account, opening, now), actions)
    ensures EveryRowIsGated(After(Initial(account, opening, now), actions).book.rows)
  {
    var w := Initial(account, opening, now);
    if actions != [] {
      var n := |actions| - 1;
      EveryRunIsGated(account, opening, now, actions[..n]);
      EveryRunIsBased(account, opening, now, actions[..n]);
      NextIsGated(After(w, actions[..n]), actions[n]);
    }
  }

  // ---------------------------------------------------------------- what later actions keep

  ghost predicate Keeps(w: World, v: World) {
    v.account == w.account && w.sent <= v.sent && Evolves(w.book.rows, v.book.rows)
  }

  lemma NextKeeps(w: World, a: Action)
    requires w.book.migration == Ready
    ensures Keeps(w, Next(w, a)) && Next(w, a).book.migration == Ready
  {
    if a.Attempt? {
      ReserveEvolves(w.book, w.account, a.intent, a.planId, IsFlat(a.intent), SnapshotTime(a.snapshot.started), a.requestId);
    } else if a.Observe? && Record(w.book, w.account, a.result, w.now).Ok? {
      RecordEvolves(w.book, w.account, a.result, w.now);
    }
  }

  lemma KeepsIsTransitive(u: World, v: World, w: World)
    requires Keeps(u, v) && Keeps(v, w)
    ensures Keeps(u, w)
  {
    EvolvesIsTransitive(u.book.rows, v.book.rows, w.book.rows);
  }

  lemma {:induction false} AfterKeeps(w: World, actions: seq<Action>)
    requires w.book.migration == Ready
    ensures Keeps(w, After(w, actions)) && After(w, actions).book.migration == Ready
  {
    if actions != [] {
      var n := |actions| - 1;
      AfterKeeps(w, actions[..n]);
      NextKeeps(After(w, actions[..n]), actions[n]);
      KeepsIsTransitive(w, After(w, actions[..n]), After(w, actions));
    }
  }

  lemma {:induction false} LawfulKeepsBase(w: World, actions: seq<Action>)
    requires Base(w) && Lawful(w, actions)
    ensures Base(After(w, actions))
  {
    if actions != [] {
      var n := |actions| - 1;
      LawfulKeepsBase(w, actions[..n]);
      NextKeepsBase(After(w, actions[..n]), actions[n]);
    }
  }

  // ---------------------------------------------------------------- one order

  /** The journal holds this order under the request. */
  ghost predicate IsReserved(w: World, plan: Plan, item: OrderIntent, id: string) {
    exists k :: 0 <= k < |w.book.rows| && Holds(w.book.rows[k], w.account, plan.runId, item, id)
  }

  predicate Holds(r: Row, account: string, planId: string, item: OrderIntent, id: string) {
    r.requestId == id && r.payload == item && r.planId == planId && r.account == account
  }

  /** The journal tells of an order what the answer says. */
  ghost predicate IsTold(w: World, result: OrderRecord) {
    exists k :: 0 <= k < |w.book.rows| && SaysWhat(w.book.rows[k], w.account, result)
  }

  predicate SaysWhat(r: Row, account: string, result: OrderRecord) {
    Names(r, account, result) && r.state == Status(result.status) && r.record.filledLots == result.filledLots
  }

  /** The answer is one that the journal takes. */
  ghost predicate IsTaken(w: World, answer: Result<OrderRecord>) {
    && answer.Ok?
    && exists k :: 0 <= k < |w.book.rows| && Names(w.book.rows[k], w.account, answer.value)
                   && Agrees(w.book.rows[k], answer.value, w.now)
  }

  predicate MayReserve(w: World, plan: Plan, item: OrderIntent, id: string) {
    Grantable(w.book, w.account, item, plan.runId, item.rationale == "intraday mandatory flat", Ok(plan.snapshot.started), id)
  }

  /** The order was attempted before, and nothing of the account is open. */
  predicate IsRepeated(w: World, plan: Plan, item: OrderIntent) {
    && w.book.migration == Ready && !IsOpen(w.book.rows, w.account)
    && Attempted(w.book.rows, w.account, item, plan.runId, item.rationale == "intraday mandatory flat")
    && LastOf(w.book.rows, w.account, item.orderRequestId).value.payload == item
  }

  /** The world in which the broker's first answer arrives. */
  function WhenAnswered(r: Run, plan: Plan, item: OrderIntent, turn: Turn): World {
    var asked := After(r.world, turn.before);
    var a := Attempt(plan.snapshot, Lots(r.projected, Secid(item)), item, plan.runId, turn.requestId);
    After(Next(Next(asked, a), Submit(turn.requestId)), turn.during)
  }

  /** The world in which the settled answer arrives. */
  function WhenSettled(w: World, turn: Turn): World
    requires turn.reply.Ok?
  {
    After(Next(w, Observe(turn.reply.value)), turn.settling)
  }

  /** All answers to the order are taken. */
  ghost predicate AreTaken(w: World, turn: Turn) {
    && IsTaken(w, turn.reply)
    && (turn.settled.Some? ==> IsTaken(WhenSettled(w, turn), turn.settled.value))
  }

  /** The order is reported as answered last: its result, the position it leaves, and whether the loop goes on. */
  ghost predicate IsReported(r: Run, next: Run, item: OrderIntent, last: OrderRecord) {
    var filled := if item.side == Buy then last.filledLots else -last.filledLots;
    && next.failure.None? && next.submitted == r.submitted + [last]
    && next.projected == r.projected[item.instrument.secid := Lots(r.projected, item.instrument.secid) + filled]
    && next.stopped == if last.status == Filled then None else Some(last.status)
  }

  /** What the driver does with an order that it may reserve. */
  ghost predicate ReservedIsRight(r: Run, next: Run, plan: Plan, item: OrderIntent, turn: Turn) {
    && IsReserved(next.world, plan, item, turn.requestId)
    && if turn.dies then
         && SameReport(r, next) && next.failure.Some?
         && turn.requestId !in next.world.ready && next.world.sent == After(r.world, turn.before).sent
       else
         && turn.requestId in next.world.sent
         && if AreTaken(WhenAnswered(r, plan, item, turn), turn) then
              && HasFinalRecord(turn) && IsReported(r, next, item, FinalRecord(turn))
              && IsTold(next.world, FinalRecord(turn))
            else SameReport(r, next) && next.failure.Some?
  }

  ghost predicate IterationIsRight(r: Run, next: Run, plan: Plan, item: OrderIntent, turn: Turn) {
    if Halted(r) then next == r
    else if !Accepts(item, Lots(r.projected, item.instrument.secid)) then
      SameReport(r, next) && next.failure.Some? && next.world == r.world && next.trace == r.trace
    else if !MayReserve(After(r.world, turn.before), plan, item, turn.requestId) then
      && SameReport(r, next) && next.world == After(r.world, turn.before)
      && (next.failure.None? <==> IsRepeated(After(r.world, turn.before), plan, item))
    else ReservedIsRight(r, next, plan, item, turn)
  }

  lemma TakenIff(w: World, answer: Result<OrderRecord>)
    requires WellKept(w.book.rows)
    ensures IsTaken(w, answer) <==> answer.Ok? && Record(w.book, w.account, answer.value, w.now).Ok?
  {
    if answer.Ok? {
      RecordIsAcceptedIff(w.book, w.account, answer.value, w.now);
    }
  }

  lemma TakenIsTold(w: World, answer: Result<OrderRecord>)
    requires WellKept(w.book.rows) && IsTaken(w, answer)
    ensures IsTold(Next(w, Observe(answer.value)), answer.value)
  {
    TakenIff(w, answer);
    var k: nat :| k < |w.book.rows| && Names(w.book.rows[k], w.account, answer.value)
                  && Agrees(w.book.rows[k], answer.value, w.now);
    NamedRowIsTold(w.book, w.account, answer.value, w.now, k);
    ObservedBook(w, answer.value);
    RowIsTold(Next(w, Observe(answer.value)), answer.value, k);
  }

  lemma ObservedBook(w: World, result: OrderRecord)
    requires Record(w.book, w.account, result, w.now).Ok?
    ensures Next(w, Observe(result)).book == Record(w.book, w.account, result, w.now).value
    ensures Next(w, Observe(result)).account == w.account
  {
  }

  lemma RowIsTold(w: World, result: OrderRecord, k: nat)
    requires k < |w.book.rows| && SaysWhat(w.book.rows[k], w.account, result)
    ensures IsTold(w, result)
  {
  }

  lemma NamedRowIsTold(b: Book, account: string, result: OrderRecord, now: int, k: nat)
    requires WellKept(b.rows) && Record(b, account, result, now).Ok?
    requires k < |b.rows| && Names(b.rows[k], account, result) && Agrees(b.rows[k], result, now)
    ensures var rows := Record(b, account, result, now).value.rows;
            |rows| == |b.rows| && SaysWhat(rows[k], account, result)
  {
    RecordTellsTheAnswer(b, account, result, now, k);
  }

  lemma ReservationMeans(w: World, plan: Plan, item: OrderIntent, a: Action)
    requires a.Attempt? && a.snapshot == plan.snapshot && a.intent == item && a.planId == plan.runId
    ensures Granted(w, a) <==> MayReserve(w, plan, item, a.requestId)
    ensures ReserveResult(w, a).Ok? && !Granted(w, a) <==> IsRepeated(w, plan, item)
  {
    ReserveIsGrantedIff(w.book, w.account, item, plan.runId, IsFlat(item), SnapshotTime(plan.snapshot.started), a.requestId);
  }

  /** The answers to an order that was sent: taken without a failure, or the run fails. */
  lemma AnswersMean(begun: Run, turn: Turn)
    requires begun.failure.None? && WellKept(begun.world.book.rows)
    requires turn.reply.Ok? && turn.settled.Some? ==> WellKept(WhenSettled(begun.world, turn).book.rows)
    ensures var done := Settled(Recorded(begun, turn.reply), turn);
            && SameReport(begun, done)
            && (done.failure.None? <==> AreTaken(begun.world, turn))
            && (done.failure.None? ==> HasFinalRecord(turn) && IsTold(done.world, FinalRecord(turn)))
  {
    TakenIff(begun.world, turn.reply);
    if IsTaken(begun.world, turn.reply) {
      var answered := Recorded(begun, turn.reply);
      OneStep(begun.world, Observe(turn.reply.value));
      assert answered == Do(begun, [Observe(turn.reply.value)]);
      if turn.settled.None? {
        TakenIsTold(begun.world, turn.reply);
      } else {
        var w := WhenSettled(begun.world, turn);
        TakenIff(w, turn.settled.value);
        if IsTaken(w, turn.settled.value) {
          OneStep(w, Observe(turn.settled.value.value));
          TakenIsTold(w, turn.settled.value);
        }
      }
    }
  }

  lemma OneStep(w: World, a: Action)
    ensures After(w, [a]) == Next(w, a)
  {
    assert [a][..0] == [] && After(w, []) == w;
  }

  /** What is reserved stays reserved, and what is sent stays sent. */
  lemma ReservationStays(w: World, v: World, plan: Plan, item: OrderIntent, id: string)
    requires IsReserved(w, plan, item, id) && Keeps(w, v)
    ensures IsReserved(v, plan, item, id)
  {
    var k :| 0 <= k < |w.book.rows| && Holds(w.book.rows[k], w.account, plan.runId, item, id);
    assert RowEvolves(w.book.rows[k], v.book.rows[k]) && Holds(v.book.rows[k], v.account, plan.runId, item, id);
  }

  lemma AnswersKeep(begun: Run, turn: Turn)
    requires begun.world.book.migration == Ready && begun.failure.None?
    ensures Keeps(begun.world, Settled(Recorded(begun, turn.reply), turn).world)
  {
    RecordedKeeps(begun, turn.reply);
    var answered := Recorded(begun, turn.reply);
    if answered.failure.None? && turn.settled.Some? {
      var v := Do(answered, turn.settling);
      AfterKeeps(answered.world, turn.settling);
      RecordedKeeps(v, turn.settled.value);
      KeepsIsTransitive(answered.world, v.world, Recorded(v, turn.settled.value).world);
      KeepsIsTransitive(begun.world, answered.world, Recorded(v, turn.settled.value).world);
    }
  }

  lemma RecordedKeeps(r: Run, answer: Result<OrderRecord>)
    requires r.world.book.migration == Ready
    ensures Keeps(r.world, Recorded(r, answer).world) && Recorded(r, answer).world.book.migration == Ready
  {
    AfterKeeps(r.world, []);
    if answer.Ok? {
      OneStep(r.world, Observe(answer.value));
      NextKeeps(r.world, Observe(answer.value));
    }
  }

  /** The reservation and the sending, up to the first answer. */
  lemma SendingIsRight(asked: Run, plan: Plan, item: OrderIntent, a: Action, turn: Turn)
    requires Base(asked.world) && Granted(asked.world, a) && a.intent == item && a.planId == plan.runId
    requires a.requestId == turn.requestId
    ensures var w := Next(asked.world, a);
            && IsReserved(w, plan, item, turn.requestId) && w.book.migration == Ready && w.sent == asked.world.sent
            && Died(asked, a, turn).world == Next(w, Crash(turn.requestId))
            && Sent(asked, a, turn).world == After(Next(w, Submit(turn.requestId)), turn.during)
  {
    var row := GrantAppends(asked.world, a);
    var w := Next(asked.world, a);
    assert Holds(w.book.rows[|asked.world.book.rows|], w.account, plan.runId, item, turn.requestId);
    OneStep(asked.world, a);
    OneStep(w, Crash(turn.requestId));
    OneStep(w, Submit(turn.requestId));
  }

  lemma DeathIsRight(asked: Run, plan: Plan, item: OrderIntent, a: Action, turn: Turn)
    requires Base(asked.world) && Granted(asked.world, a) && a.intent == item && a.planId == plan.runId
    requires a.requestId == turn.requestId
    ensures var w := Died(asked, a, turn).world;
            IsReserved(w, plan, item, turn.requestId) && turn.requestId !in w.ready && w.sent == asked.world.sent
  {
    SendingIsRight(asked, plan, item, a, turn);
    NextKeeps(Next(asked.world, a), Crash(turn.requestId));
    ReservationStays(Next(asked.world, a), Died(asked, a, turn).world, plan, item, turn.requestId);
  }

  lemma SendingStays(asked: Run, plan: Plan, item: OrderIntent, a: Action, turn: Turn)
    requires Base(asked.world) && Granted(asked.world, a) && a.intent == item && a.planId == plan.runId
    requires a.requestId == turn.requestId && asked.failure.None?
    ensures var done := Settled(Recorded(Sent(asked, a, turn), turn.reply), turn);
            IsReserved(done.world, plan, item, turn.requestId) && turn.requestId in done.world.sent
  {
    SendingIsRight(asked, plan, item, a, turn);
    var w, id := Next(asked.world, a), turn.requestId;
    var begun := Sent(asked, a, turn);
    var done := Settled(Recorded(begun, turn.reply), turn);
    NextKeeps(w, Submit(id));
    assert Next(w, Submit(id)).sent[|w.sent|] == id;
    AfterKeeps(Next(w, Submit(id)), turn.during);
    AnswersKeep(begun, turn);
    KeepsIsTransitive(Next(w, Submit(id)), begun.world, done.world);
    KeepsIsTransitive(w, Next(w, Submit(id)), done.world);
    ReservationStays(w, done.world, plan, item, id);
  }

  lemma RecordedWorld(r: Run, answer: Result<OrderRecord>)
    ensures Recorded(r, answer).world == if answer.Ok? then Next(r.world, Observe(answer.value)) else r.world
  {
    if answer.Ok? {
      OneStep(r.world, Observe(answer.value));
    }
  }

  /** The answers arrive in worlds that the protocol allows. */
  lemma AnswersAreBased(rule: Rule, sent: Run, turn: Turn)
    requires Base(sent.world) && AnswersAllowed(rule, sent, turn) && sent.failure.None?
    ensures WellKept(Do(sent, turn.during).world.book.rows)
    ensures turn.reply.Ok? && turn.settled.Some? ==> WellKept(WhenSettled(Do(sent, turn.during).world, turn).book.rows)
  {
    var w := Do(sent, turn.during).world;
    LawfulKeepsBase(sent.world, turn.during);
    RecordedWorld(Do(sent, turn.during), turn.reply);
    if turn.reply.Ok? && turn.settled.Some? {
      NextKeepsBase(w, Observe(turn.reply.value));
      LawfulKeepsBase(Next(w, Observe(turn.reply.value)), turn.settling);
    }
  }

  /** An order that may be reserved, is granted, and is sent: the answers decide what is reported. */
  lemma SentIsRight(r: Run, plan: Plan, item: OrderIntent, a: Action, turn: Turn)
    requires var asked := Do(r, turn.before);
             && Base(asked.world) && Granted(asked.world, a) && !Halted(r)
             && a == Attempt(plan.snapshot, Lots(r.projected, Secid(item)), item, plan.runId, turn.requestId)
             && !turn.dies && AnswersAllowed(AsLawful, Do(Do(asked, [a]), [Submit(turn.requestId)]), turn)
    ensures ReservedIsRight(r, Answered(Sent(Do(r, turn.before), a, turn), item, Lots(r.projected, Secid(item)), turn),
                            plan, item, turn)
  {
    var asked := Do(r, turn.before);
    var begun := Sent(asked, a, turn);
    SendingIsRight(asked, plan, item, a, turn);
    SendingStays(asked, plan, item, a, turn);
    SubmittedIsBased(asked, a, turn);
    AnswersAreBased(AsLawful, Do(Do(asked, [a]), [Submit(turn.requestId)]), turn);
    AnswersMean(begun, turn);
    AnsweredIsRight(r, begun, plan, item, turn);
  }

  lemma AnsweredIsRight(r: Run, begun: Run, plan: Plan, item: OrderIntent, turn: Turn)
    requires SameReport(r, begun) && !turn.dies && begun.world == WhenAnswered(r, plan, item, turn)
    requires var done := Settled(Recorded(begun, turn.reply), turn);
             && SameReport(begun, done) && (done.failure.None? <==> AreTaken(begun.world, turn))
             && (done.failure.None? ==> HasFinalRecord(turn) && IsTold(done.world, FinalRecord(turn)))
             && IsReserved(done.world, plan, item, turn.requestId) && turn.requestId in done.world.sent
    ensures ReservedIsRight(r, Answered(begun, item, Lots(r.projected, Secid(item)), turn), plan, item, turn)
  {
    FinishedIsRight(begun, Settled(Recorded(begun, turn.reply), turn), item, turn);
  }

  lemma SubmittedIsBased(asked: Run, a: Action, turn: Turn)
    requires Base(asked.world) && Granted(asked.world, a) && a.requestId == turn.requestId
    ensures Base(Do(Do(asked, [a]), [Submit(turn.requestId)]).world)
    ensures Do(Do(asked, [a]), [Submit(turn.requestId)]).world == Next(Next(asked.world, a), Submit(turn.requestId))
  {
    GrantKeepsBase(asked.world, a);
    OneStep(asked.world, a);
    OneStep(Next(asked.world, a), Submit(turn.requestId));
    GrantIsReady(asked.world, a);
    NextKeepsBase(Next(asked.world, a), Submit(turn.requestId));
  }

  /** How the answers `done` to an order of a run are reported. */
  lemma FinishedIsRight(begun: Run, done: Run, item: OrderIntent, turn: Turn)
    requires SameReport(begun, done) && (done.failure.None? ==> HasFinalRecord(turn))
    ensures var next := Finished(begun, done, item, Lots(begun.projected, Secid(item)), turn);
            && next.world == done.world
            && (if done.failure.None? then IsReported(begun, next, item, FinalRecord(turn)) else next == done)
  {
  }

  /** Every iteration of the driver's loop, in a lawful history. */
  lemma EveryIterationIsRight(r: Run, plan: Plan, item: OrderIntent, turn: Turn)
    requires Base(r.world) && TurnAllowed(AsLawful, r, plan, item, turn)
    ensures IterationIsRight(r, DriveOne(r, plan, item, turn), plan, item, turn)
  {
    var current := Lots(r.projected, Secid(item));
    GateIff(item, current);
    if !Halted(r) && Accepts(item, current) {
      var asked := Do(r, turn.before);
      var a := Attempt(plan.snapshot, current, item, plan.runId, turn.requestId);
      LawfulKeepsBase(r.world, turn.before);
      ReservationMeans(asked.world, plan, item, a);
      if Granted(asked.world, a) {
        if turn.dies {
          DeathIsRight(asked, plan, item, a, turn);
        } else {
          SentIsRight(r, plan, item, a, turn);
        }
      }
    }
  }

  /** So every order of every plan run is right, after any lawful history and whatever happens around the run. */
  lemma EveryOrderIsRight(account: string, opening: map<string, int>, now: int, past: seq<Action>, plan: Plan,
                          turns: seq<Turn>, k: nat)
    requires Lawful(Initial(account, opening, now), past)
    requires k < |plan.items| && k < |turns|
    requires TurnsAllowed(AsLawful, After(Initial(account, opening, now), past), plan, turns, k + 1)
    ensures var w := After(Initial(account, opening, now), past);
            && Drive(w, plan, turns, 0) == Run(w, [], plan.snapshot.lots, [], None, None)
            && IterationIsRight(Drive(w, plan, turns, k), Drive(w, plan, turns, k + 1), plan, plan.items[k], turns[k])
  {
    var w := After(Initial(account, opening, now), past);
    EveryRunIsBased(account, opening, now, past);
    DriverFollowsTheProtocol(AsLawful, w, plan, turns, k);
    LawfulKeepsBase(w, Drive(w, plan, turns, k).trace);
    EveryIterationIsRight(Drive(w, plan, turns, k), plan, plan.items[k], turns[k]);
  }
}
