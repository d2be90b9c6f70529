/**
 The independent files of src/moex_bot/prod_long_once.py: a claim and one dispatch fence per transport
 call, all created exclusively and never removed. The orchestrator is unknown: any number of callers of
 the wrappers, in any order and at the same time, dying anywhere. No database takes part.
 */
module ClaimFences {
  import opened Domain

  /** What a claim is bound to: candidate, protection plan, journal identity and release. */
  datatype Binding = Binding(candidate: string, protection: string, journal: string, release: string)

  datatype Call = BuyCall | StopCall | CancelCall

  /** A file created with O_EXCL; it may be torn when its writer died. */
  datatype File = Torn | Whole(binding: Binding)

  /** A caller inside `dispatch` or behind it. */
  datatype Caller = Created(call: Call, binding: Binding) | Dispatched(call: Call, binding: Binding)

  datatype Sent = Sent(call: Call, binding: Binding)

  datatype State = State(claim: Option<File>, fences: map<Call, File>, callers: map<nat, Caller>, sent: seq<Sent>)

  datatype Step =
    | OpenClaim
    | WriteClaim(binding: Binding)
    | OpenFence(pid: nat, call: Call, binding: Binding)
    | WriteFence(pid: nat)
    | Deliver(pid: nat)
    | Die(pid: nat)

  predicate Enabled(s: State, step: Step) {
    match step
    case OpenClaim => s.claim.None?
    case WriteClaim(_) => s.claim == Some(Torn)
    case OpenFence(pid, call, binding) => pid !in s.callers && s.claim == Some(Whole(binding)) && call !in s.fences
    case WriteFence(pid) => pid in s.callers && s.callers[pid].Created?
    case Deliver(pid) => pid in s.callers && s.callers[pid].Dispatched?
    case Die(pid) => pid in s.callers
  }

  function Next(s: State, step: Step): State {
    if !Enabled(s, step) then s else
    match step
    case OpenClaim => s.(claim := Some(Torn))
    case WriteClaim(binding) => s.(claim := Some(Whole(binding)))
    case OpenFence(pid, call, binding) =>
      s.(fences := s.fences[call := Torn], callers := s.callers[pid := Created(call, binding)])
    case WriteFence(pid) =>
      var c := s.callers[pid];
      s.(fences := s.fences[c.call := Whole(c.binding)], callers := s.callers[pid := Dispatched(c.call, c.binding)])
    case Deliver(pid) =>
      s.(sent := s.sent + [Sent(s.callers[pid].call, s.callers[pid].binding)], callers := s.callers - {pid})
    case Die(pid) => s.(callers := s.callers - {pid})
  }

  function After(s: State, steps: seq<Step>): State {
    if steps == [] then s else Next(After(s, steps[..|steps| - 1]), steps[|steps| - 1])
  }

  const UNCLAIMED: State := State(None, map[], map[], [])

  /** Every call that was sent or may still be sent has its own fence, and is for the claimed binding. */
  ghost predicate Fenced(s: State) {
    && (forall i :: 0 <= i < |s.sent| ==> s.sent[i].call in s.fences && s.claim == Some(Whole(s.sent[i].binding)))
    && (forall p :: p in s.callers ==> s.callers[p].call in s.fences && s.claim == Some(Whole(s.callers[p].binding)))
  }

  /** Nobody else sends, or has sent, the same call. */
  ghost predicate Single(s: State) {
    && (forall i, j :: 0 <= i < j < |s.sent| ==> s.sent[i].call != s.sent[j].call)
    && (forall p, q :: p in s.callers && q in s.callers && p != q ==> s.callers[p].call != s.callers[q].call)
    && (forall p, i :: p in s.callers && 0 <= i < |s.sent| ==> s.callers[p].call != s.sent[i].call)
  }

  lemma NextKeepsFenced(s: State, step: Step)
    requires Fenced(s)
    ensures Fenced(Next(s, step))
  {
  }

  lemma NextKeepsSingle(s: State, step: Step)
    requires Fenced(s) && Single(s)
    ensures Single(Next(s, step))
  {
  }

  lemma {:induction false} EveryRunIsFenced(steps: seq<Step>)
    ensures Fenced(After(UNCLAIMED, steps)) && Single(After(UNCLAIMED, steps))
  {
    if steps != [] {
      EveryRunIsFenced(steps[..|steps| - 1]);
      NextKeepsFenced(After(UNCLAIMED, steps[..|steps| - 1]), steps[|steps| - 1]);
      NextKeepsSingle(After(UNCLAIMED, steps[..|steps| - 1]), steps[|steps| - 1]);
    }
  }

  /**
   Whatever the orchestrator does, at most one BUY, one stop and one cancellation are sent, all for the
   claim that was written first; no restored database can authorize another.
   */
  lemma OneOfEachCall(steps: seq<Step>, i: nat, j: nat)
    requires i < |After(UNCLAIMED, steps).sent| && j < |After(UNCLAIMED, steps).sent|
    ensures var s := After(UNCLAIMED, steps);
            && (s.sent[i].call == s.sent[j].call ==> i == j)
            && s.sent[i].binding == s.sent[j].binding && s.claim == Some(Whole(s.sent[i].binding))
  {
    EveryRunIsFenced(steps);
  }

  /** A fence that exists stays, so its call is never started again, sent or not. */
  lemma {:induction false} FenceBlocksForEver(steps: seq<Step>, k: nat, pid: nat, call: Call, binding: Binding)
    requires k <= |steps| && call in After(UNCLAIMED, steps[..k]).fences
    ensures call in After(UNCLAIMED, steps).fences
    ensures !Enabled(After(UNCLAIMED, steps), OpenFence(pid, call, binding))
  {
    if k == |steps| {
      assert steps[..k] == steps;
    } else {
      var n := |steps| - 1;
      assert steps[..n][..k] == steps[..k];
      FenceBlocksForEver(steps[..n], k, pid, call, binding);
    }
  }

  lemma AfterOneMore(s: State, steps: seq<Step>, step: Step)
    ensures After(s, steps + [step]) == Next(After(s, steps), step)
  {
    assert (steps + [step])[..|steps|] == steps;
  }

  /** The claim directory; `Claim` and the wrappers `OnceBroker` and `OnceProtection` work on it. */
  class ClaimDirectory {
    var claim: Option<File>
    var fences: map<Call, File>
    var callers: map<nat, Caller>
    var sent: seq<Sent>
    ghost var steps: seq<Step>

    function Content(): State
      reads this
    {
      State(claim, fences, callers, sent)
    }

    ghost predicate Valid()
      reads this
    {
      Content() == After(UNCLAIMED, steps)
    }

    constructor ()
      ensures Valid() && Content() == UNCLAIMED
    {
      claim, fences, callers, sent := None, map[], map[], [];
      steps := [];
    }

    method Take(step: Step)
      requires Valid()
      modifies this
      ensures Valid() && Content() == Next(old(Content()), step)
    {
      var next := Next(Content(), step);
      claim, fences, callers, sent := next.claim, next.fences, next.callers, next.sent;
      AfterOneMore(UNCLAIMED, steps, step);
      steps := steps + [step];
    }

    /** `create("claim", binding)`: refused for every claim after the first. */
    method Create(binding: Binding) returns (r: Result<()>)
      requires Valid()
      modifies this
      ensures Valid() && (r.Ok? <==> old(claim).None?)
      ensures claim == (if r.Ok? then Some(Whole(binding)) else old(claim))
      ensures fences == old(fences) && callers == old(callers) && sent == old(sent)
    {
      if claim.Some? {
        return Err("claim exists");
      }
      Take(OpenClaim);
      Take(WriteClaim(binding));
      return Ok(());
    }

    /** One wrapper call: the claim must match, the fence must be new, and only then the transport is used. */
    method Perform(me: nat, call: Call, binding: Binding) returns (r: Result<()>)
      requires Valid() && me !in callers
      modifies this
      ensures Valid() && callers == old(callers)
      ensures r.Ok? <==> old(claim) == Some(Whole(binding)) && call !in old(fences)
      ensures sent == old(sent) + if r.Ok? then [Sent(call, binding)] else []
      ensures fences == if r.Ok? then old(fences)[call := Whole(binding)] else old(fences)
    {
      if claim != Some(Whole(binding)) {
        return Err("independent claim no longer matches");
      }
      if call in fences {
        return Err("dispatch fence exists");
      }
      Take(OpenFence(me, call, binding));
      Take(WriteFence(me));
      Take(Deliver(me));
      return Ok(());
    }
  }
}
