/**
 The protection journal of src/moex_bot/live_protection.py under concurrent processes, for one request
 id: every statement of the journal names the request id, so other rows are not involved. Each SQL
 statement is one atomic step; between two statements of a process any other process may act, any
 process may die, and the broker may answer anything.
 */
module ProtectionProtocol {
  import opened Domain

  datatype Plan = Plan(
    account: string, entryLogicalId: string, entryRequestId: string, instrument: Instrument, entryPrice: real,
    stopTrigger: real, stopLimit: Option<real>, takeProfit: Option<real>)

  datatype StopState = PlannedStop | PostPending | UnknownStop | ActiveStop

  datatype Row = Row(plan: Plan, enrollment: string, state: StopState, stopId: Option<string>)

  /** What a process is about to do; processes that hold nothing are not listed. */
  datatype Proc =
    | Reserved                 // won the compare-and-swap
    | Refused                  // the local guard raised StopNotDispatched
    | Failed                   // any other exception before the transport
    | Posted                   // the stop was posted
    | Read(stopId: string)     // reconcile read the stop id
    | Listed(stopId: string)   // reconcile wrote UNKNOWN and reads the broker

  datatype State = State(row: Option<Row>, procs: map<nat, Proc>, posts: seq<Plan>)

  datatype Step =
    | Prepare(plan: Plan, enrollment: string)
    | Reserve(pid: nat, plan: Plan)
    | Refuse(pid: nat)
    | Fail(pid: nat)
    | Post(pid: nat)
    | Revert(pid: nat)
    | Lose(pid: nat)
    | Learn(pid: nat, stopId: string)
    | ReadStop(pid: nat, plan: Plan)
    | Doubt(pid: nat)
    | Confirm(pid: nat)
    | Die(pid: nat)

  /** `_row`: the row of exactly this plan. */
  predicate HasRow(s: State, p: Plan) {
    s.row.Some? && s.row.value.plan == p
  }

  predicate Enabled(s: State, step: Step) {
    match step
    case Prepare(_, _) => s.row.None?
    case Reserve(pid, plan) => pid !in s.procs && HasRow(s, plan) && s.row.value.state == PlannedStop
    case ReadStop(pid, plan) => pid !in s.procs && HasRow(s, plan) && s.row.value.stopId.Some?
    case Refuse(pid) => pid in s.procs && s.procs[pid].Reserved?
    case Fail(pid) => pid in s.procs && s.procs[pid].Reserved?
    case Post(pid) => pid in s.procs && s.procs[pid].Reserved? && s.row.Some?
    case Revert(pid) => pid in s.procs && s.procs[pid].Refused? && s.row.Some?
    case Lose(pid) => pid in s.procs && (s.procs[pid].Failed? || s.procs[pid].Posted?) && s.row.Some?
    case Learn(pid, _) => pid in s.procs && s.procs[pid].Posted? && s.row.Some?
    case Doubt(pid) => pid in s.procs && s.procs[pid].Read? && s.row.Some?
    case Confirm(pid) => pid in s.procs && s.procs[pid].Listed? && s.row.Some?
    case Die(pid) => pid in s.procs
  }

  /** `_state`, which overwrites the stop id. */
  function SetState(s: State, state: StopState, stopId: Option<string>, procs: map<nat, Proc>): State
    requires s.row.Some?
  {
    s.(row := Some(s.row.value.(state := state, stopId := stopId)), procs := procs)
  }

  function Next(s: State, step: Step): State {
    if !Enabled(s, step) then s else
    match step
    case Prepare(plan, enrollment) => s.(row := Some(Row(plan, enrollment, PlannedStop, None)))
    case Reserve(pid, _) => SetState(s, PostPending, s.row.value.stopId, s.procs[pid := Reserved])
    case ReadStop(pid, _) => s.(procs := s.procs[pid := Read(s.row.value.stopId.value)])
    case Refuse(pid) => s.(procs := s.procs[pid := Refused])
    case Fail(pid) => s.(procs := s.procs[pid := Failed])
    case Post(pid) => s.(procs := s.procs[pid := Posted], posts := s.posts + [s.row.value.plan])
    case Revert(pid) =>
      var row := s.row.value;
      if row.state == PostPending && row.stopId.None? then SetState(s, PlannedStop, None, s.procs - {pid})
      else s.(procs := s.procs - {pid})
    case Lose(pid) => SetState(s, UnknownStop, None, s.procs - {pid})
    case Learn(pid, stopId) => SetState(s, UnknownStop, Some(stopId), s.procs - {pid})
    case Doubt(pid) => SetState(s, UnknownStop, Some(s.procs[pid].stopId), s.procs[pid := Listed(s.procs[pid].stopId)])
    case Confirm(pid) => SetState(s, ActiveStop, Some(s.procs[pid].stopId), s.procs - {pid})
    case Die(pid) => s.(procs := s.procs - {pid})
  }

  function After(s: State, steps: seq<Step>): State {
    if steps == [] then s else Next(After(s, steps[..|steps| - 1]), steps[|steps| - 1])
  }

  const EMPTY: State := State(None, map[], [])

  // ---------------------------------------------------------------- what every step keeps

  /** The processes that may still post, or have posted and not yet recorded it. */
  predicate Holds(p: Proc) {
    p.Reserved? || p.Refused? || p.Failed? || p.Posted?
  }

  /** At most one process holds the reservation, and then the row shows it. */
  ghost predicate Exclusive(s: State) {
    && (forall a, b :: a in s.procs && b in s.procs && Holds(s.procs[a]) && Holds(s.procs[b]) ==> a == b)
    && (forall a :: a in s.procs && Holds(s.procs[a]) ==>
                      s.row.Some? && s.row.value.state == PostPending && s.row.value.stopId.None?)
  }

  /** A stop id is only known after a post, and a process that has read one has read that of the row. */
  ghost predicate Agreed(s: State) {
    && (forall a :: a in s.procs && (s.procs[a].Read? || s.procs[a].Listed?) ==>
                      s.row.Some? && s.row.value.stopId == Some(s.procs[a].stopId))
    && (s.row.Some? && s.row.value.stopId.Some? ==>
          (s.row.value.state == UnknownStop || s.row.value.state == ActiveStop) && s.posts != [])
    && (s.row.Some? && s.row.value.state == ActiveStop ==> s.row.value.stopId.Some?)
  }

  /** Nothing was posted while the row is PLANNED or the reservation is unused. */
  ghost predicate Counted(s: State) {
    && |s.posts| <= 1
    && (s.posts != [] ==> s.row.Some? && s.row.value.state != PlannedStop && s.posts == [s.row.value.plan])
    && (forall a :: a in s.procs && Holds(s.procs[a]) && !s.procs[a].Posted? ==> s.posts == [])
    && (forall a :: a in s.procs && s.procs[a].Posted? ==> s.posts != [])
  }

  ghost predicate Inv(s: State) {
    Exclusive(s) && Agreed(s) && Counted(s)
  }

  lemma NextKeepsExclusive(s: State, step: Step)
    requires Inv(s)
    ensures Exclusive(Next(s, step))
  {
  }

  lemma NextKeepsAgreed(s: State, step: Step)
    requires Inv(s)
    ensures Agreed(Next(s, step))
  {
  }

  lemma NextKeepsCounted(s: State, step: Step)
    requires Inv(s)
    ensures Counted(Next(s, step))
  {
  }

  lemma {:induction false} EveryRunIsSafe(steps: seq<Step>)
    ensures Inv(After(EMPTY, steps))
  {
    if steps != [] {
      var before := After(EMPTY, steps[..|steps| - 1]);
      EveryRunIsSafe(steps[..|steps| - 1]);
      NextKeepsExclusive(before, steps[|steps| - 1]);
      NextKeepsAgreed(before, steps[|steps| - 1]);
      NextKeepsCounted(before, steps[|steps| - 1]);
    }
  }

  /** Over all interleavings and deaths a plan's stop gets past the local guard at most once. */
  lemma AtMostOnePost(steps: seq<Step>)
    ensures var s := After(EMPTY, steps);
            && |s.posts| <= 1
            && (s.posts != [] ==> s.row.Some? && s.posts[0] == s.row.value.plan)
            && (s.row.Some? && s.row.value.state == ActiveStop ==> |s.posts| == 1 && s.row.value.stopId.Some?)
  {
    EveryRunIsSafe(steps);
  }

  /** What no later step may undo. */
  ghost predicate Settled(s: State, t: State) {
    && (s.row.Some? ==> t.row.Some? && t.row.value.plan == s.row.value.plan
                        && t.row.value.enrollment == s.row.value.enrollment)
    && (s.row.Some? && s.row.value.stopId.Some? ==> t.row.value.stopId == s.row.value.stopId)
    && (s.posts != [] ==> t.posts == s.posts)
  }

  lemma NextSettles(s: State, step: Step)
    requires Inv(s)
    ensures Settled(s, Next(s, step))
  {
  }

  /** The plan of a row is never replaced, a stop id that is set never changes, and a post is never repeated. */
  lemma {:induction false} StopIdNeverChanges(steps: seq<Step>, k: nat)
    requires k <= |steps|
    ensures Settled(After(EMPTY, steps[..k]), After(EMPTY, steps))
  {
    if k == |steps| {
      assert steps[..k] == steps;
    } else {
      var n := |steps| - 1;
      StopIdNeverChanges(steps[..n], k);
      assert steps[..n][..k] == steps[..k];
      EveryRunIsSafe(steps[..n]);
      NextSettles(After(EMPTY, steps[..n]), steps[n]);
    }
  }

  /** The reservation was used or lost: nobody holds it any more and the row has no stop id. */
  ghost predicate Stuck(s: State) {
    && s.row.Some? && s.row.value.state != PlannedStop && s.row.value.stopId.None?
    && forall a :: a in s.procs ==> !Holds(s.procs[a])
  }

  lemma NextStaysStuck(s: State, step: Step)
    requires Inv(s) && Stuck(s)
    ensures Stuck(Next(s, step)) && Next(s, step).row == s.row && Next(s, step).posts == s.posts
  {
  }

  /**
   An UNKNOWN or POST_PENDING row without a stop id is never resubmitted nor adopted: from the moment
   nobody holds its reservation the row and the posts stay as they are for ever.
   */
  lemma {:induction false} NeverResubmitted(steps: seq<Step>, k: nat)
    requires k <= |steps| && Stuck(After(EMPTY, steps[..k]))
    ensures Stuck(After(EMPTY, steps))
    ensures After(EMPTY, steps).row == After(EMPTY, steps[..k]).row
    ensures After(EMPTY, steps).posts == After(EMPTY, steps[..k]).posts
  {
    if k == |steps| {
      assert steps[..k] == steps;
    } else {
      var n := |steps| - 1;
      assert steps[..n][..k] == steps[..k];
      NeverResubmitted(steps[..n], k);
      EveryRunIsSafe(steps[..n]);
      NextStaysStuck(After(EMPTY, steps[..n]), steps[n]);
    }
  }

  lemma AfterOneMore(s: State, steps: seq<Step>, step: Step)
    ensures After(s, steps + [step]) == Next(After(s, steps), step)
  {
    assert (steps + [step])[..|steps|] == steps;
  }
}
