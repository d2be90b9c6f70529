/**
 `ProtectionJournal` of src/moex_bot/live_protection.py as a class. Between any two statements of a
 method other processes may take any steps of `ProtectionProtocol`; every method keeps to its runs.
 */
module ProtectionStore {
  import opened Domain
  import Journal
  import LiveLedger
  import opened ProtectionProtocol

  // What the broker calls the fields of a stop order.
  const SELL_DIRECTION := "STOP_ORDER_DIRECTION_SELL"
  const STOP_LOSS := "STOP_ORDER_TYPE_STOP_LOSS"
  const STOP_LIMIT := "STOP_ORDER_TYPE_STOP_LIMIT"
  const ACTIVE_STATUS := "STOP_ORDER_STATUS_ACTIVE"
  const UNSPECIFIED_CHILD := "EXCHANGE_ORDER_TYPE_UNSPECIFIED"
  const MARKET_CHILD := "EXCHANGE_ORDER_TYPE_MARKET"
  const LIMIT_CHILD := "EXCHANGE_ORDER_TYPE_LIMIT"

  /** One stop order of the broker's answer, as far as it is compared with the plan. */
  datatype BrokerStop = BrokerStop(
    stopOrderId: string, instrumentUid: string, direction: string, currency: string, orderType: string,
    status: string, lotsRequested: string, stopPrice: Option<real>, price: Option<real>,
    childType: Option<string>, activated: bool, expires: bool)

  /** `_verified_stop` for a plan of one lot */
  predicate Verified(p: Plan, s: BrokerStop) {
    && !s.activated && !s.expires
    && s.instrumentUid == p.instrument.uid && s.direction == SELL_DIRECTION && s.currency == "rub"
    && s.orderType == (if p.stopLimit.None? then STOP_LOSS else STOP_LIMIT)
    && s.status == ACTIVE_STATUS
    && (s.childType.None? || s.childType.value == UNSPECIFIED_CHILD
        || s.childType.value == if p.stopLimit.None? then MARKET_CHILD else LIMIT_CHILD)
    && s.lotsRequested == "1" && s.stopPrice == Some(p.stopTrigger)
    && (p.stopLimit.Some? ==> s.price == p.stopLimit)
  }

  /** The broker shows exactly one stop of the instrument, with this id, and it is the planned one. */
  ghost predicate Shown(p: Plan, stopId: string, observed: seq<BrokerStop>) {
    && (forall s :: s in observed ==> s.instrumentUid != "")
    && (forall s :: s in observed && s.instrumentUid == p.instrument.uid ==> s.stopOrderId == stopId)
    && exists i :: 0 <= i < |observed| && observed[i].stopOrderId == stopId && Verified(p, observed[i])
                   && forall j :: 0 <= j < |observed| && observed[j].stopOrderId == stopId ==> j == i
  }

  function ScopeOf(p: Plan): string {
    "prod:" + p.account
  }

  /** The entry is the plan's own BUY of one lot, recorded and filled in full. */
  predicate ParentFilled(p: Plan, entries: seq<Journal.Row>) {
    var i := Journal.IndexOf(entries, ScopeOf(p), p.entryRequestId);
    && i >= 0
    && var row := entries[i];
       && row.logicalId == p.entryLogicalId && row.state == Journal.Status(Filled)
       && row.record.status == Filled && row.record.filledLots == 1
       && row.record.intent.lots == 1 && row.record.intent.side == Buy
       && row.record.intent.instrument == p.instrument && row.record.intent.limitPrice == p.entryPrice
  }

  /** The bot owns exactly the planned lot, all of it is free, and the instrument has no stop yet. */
  predicate Protectable(p: Plan, entries: seq<Journal.Row>, available: int, stops: seq<BrokerStop>) {
    && ParentFilled(p, entries)
    && LiveLedger.Owned(entries, ScopeOf(p), p.instrument.uid) == p.instrument.lotSize == available
    && forall s :: s in stops ==> s.instrumentUid != "" && s.instrumentUid != p.instrument.uid
  }

  /** Who answers for the account. */
  datatype Broker = Broker(account: string, environment: string)

  predicate ExactBroker(broker: Broker, p: Plan) {
    broker.account == p.account && broker.environment == "prod"
  }

  /** `validate` of a plan of one lot, whose kind is given by its stop limit. */
  predicate PlanValid(p: Plan) {
    && p.account != "" && p.instrument.currency == "RUB" && p.instrument.assetClass == "share"
    && PriceValid(p.entryPrice, p.instrument.tickSize) && PriceValid(p.stopTrigger, p.instrument.tickSize)
    && (p.stopLimit.Some? ==> PriceValid(p.stopLimit.value, p.instrument.tickSize) && p.stopLimit.value <= p.stopTrigger)
    && (p.takeProfit.Some? ==> PriceValid(p.takeProfit.value, p.instrument.tickSize) && p.takeProfit.value > p.entryPrice)
    && p.stopTrigger < p.entryPrice
  }

  predicate PriceValid(price: real, tick: real)
    requires tick > 0.0
  {
    price > 0.0 && TickDown(price, tick) == price
  }

  /** The checks of `activate` on the plan, its row, the broker and the enrollment. */
  predicate Admitted(row: Option<Row>, p: Plan, broker: Broker, identity: Option<string>) {
    && PlanValid(p) && row.Some? && row.value.plan == p && ExactBroker(broker, p)
    && identity == Some(row.value.enrollment)
  }

  /** What the transport did with `post_stop`; one that raised may still have delivered. */
  datatype Reply = NotDispatched | Raised(delivered: bool) | Answered(stopId: Option<string>)

  /**
   What surrounds an activation: the steps of other processes before the reservation, the post, the record
   of its answer, and the two writes of a reconciliation; the transport's reply and the stops read back.
   */
  datatype Around = Around(
    reserving: seq<Step>, posting: seq<Step>, answering: seq<Step>, doubting: seq<Step>, listing: seq<Step>,
    reply: Reply, observed: seq<BrokerStop>)

  /** No other process acts. */
  predicate IsQuiet(around: Around) {
    && around.reserving == [] && around.posting == [] && around.answering == []
    && around.doubting == [] && around.listing == []
  }

  predicate IsDelivered(reply: Reply) {
    reply.Answered? || (reply.Raised? && reply.delivered)
  }

  /** The row that a reconciliation of a known stop leaves. */
  ghost function ReadRow(row: Row, p: Plan, observed: seq<BrokerStop>): Row
    requires row.stopId.Some?
  {
    row.(state := if Shown(p, row.stopId.value, observed) then ActiveStop else UnknownStop)
  }

  /** The row that a reservation comes to when nobody interferes. */
  ghost function SubmittedRow(row: Row, p: Plan, around: Around): Row {
    match around.reply
    case NotDispatched => row.(state := PlannedStop, stopId := None)
    case Raised(_) => row.(state := UnknownStop, stopId := None)
    case Answered(None) => row.(state := UnknownStop, stopId := None)
    case Answered(Some(id)) => ReadRow(row.(stopId := Some(id)), p, around.observed)
  }

  lemma ActiveHasStop(steps: seq<Step>)
    ensures var s := After(EMPTY, steps); s.row.Some? && s.row.value.state == ActiveStop ==> s.row.value.stopId.Some?
  {
    AtMostOnePost(steps);
  }

  class ProtectionJournal {
    var row: Option<Row>
    var others: seq<Row>  // the rows of other request ids
    var procs: map<nat, Proc>
    var posts: seq<Plan>
    ghost var steps: seq<Step>

    function Content(): State
      reads this
    {
      State(row, procs, posts)
    }

    ghost predicate Valid()
      reads this
    {
      Content() == After(EMPTY, steps)
    }

    constructor ()
      ensures Valid() && Content() == EMPTY
    {
      row, others, procs, posts := None, [], map[], [];
      steps := [];
    }

    method Take(step: Step)
      requires Valid()
      modifies this
      ensures Valid() && Content() == Next(old(Content()), step) && others == old(others)
    {
      AfterOneMore(EMPTY, steps, step);
      Store(Next(Content(), step));
      steps := steps + [step];
    }

    method Store(next: State)
      modifies this
      ensures Content() == next && others == old(others) && steps == old(steps)
    {
      row, procs, posts := next.row, next.procs, next.posts;
    }

    /** These steps of other processes, and anything they do to other rows. */
    method Others(me: nat, theirs: seq<Step>)
      requires Valid()
      modifies this
      ensures Valid() && (me in procs <==> old(me in procs))
      ensures me in procs ==> procs[me] == old(procs)[me]
      ensures old(row).Some? ==> row.Some? && row.value.plan == old(row).value.plan
      ensures forall p :: p in old(posts) ==> p in posts
      ensures theirs == [] ==> Content() == old(Content())
    {
      for i := 0 to |theirs|
        invariant Valid() && (me in procs <==> old(me in procs))
        invariant me in procs ==> procs[me] == old(procs)[me]
        invariant old(row).Some? ==> row.Some? && row.value.plan == old(row).value.plan
        invariant forall p :: p in old(posts) ==> p in posts
        invariant i == 0 ==> Content() == old(Content())
      {
        if theirs[i].Prepare? || theirs[i].pid != me {
          Take(theirs[i]);
        }
      }
      var rows: seq<Row> :| true;
      others := rows;
    }

    /**
     `prepare` under the identity that the entry journal is enrolled with. A plan is stored once, and
     while the account has no other plan.
     */
    method Prepare(plan: Plan, identity: Option<string>) returns (r: Result<()>)
      requires Valid()
      modifies this
      ensures Valid() && others == old(others)
      ensures !PlanValid(plan) || identity.None? ==> r.Err?
      ensures PlanValid(plan) && identity.Some? ==>
                (r.Ok? <==> if old(row).None? then forall r :: r in others ==> r.plan.account != plan.account
                            else old(row).value.plan == plan && old(row).value.enrollment == identity.value)
      ensures Content() == if r.Ok? && old(row).None?
                           then old(Content()).(row := Some(Row(plan, identity.value, PlannedStop, None)))
                           else old(Content())
    {
      if !PlanValid(plan) || identity.None? {
        return Err("protection plan or enrollment is invalid");
      }
      if row.Some? {
        if row.value.plan != plan {
          return Err("protection plan changed; no replacement permitted");
        }
        if row.value.enrollment != identity.value {
          return Err("protection plan belongs to another enrollment");
        }
        return Ok(());
      }
      for k := 0 to |others|
        invariant forall i :: 0 <= i < k ==> others[i].plan.account != plan.account
      {
        if others[k].plan.account == plan.account {
          return Err("outstanding protection plan blocks another entry");
        }
      }
      Take(ProtectionProtocol.Prepare(plan, identity.value));
      return Ok(());
    }

    /** The checks of `activate` before it reserves, with its loop over the entry journal. */
    method CheckParent(plan: Plan, entries: seq<Journal.Row>, available: int, stops: seq<BrokerStop>)
      returns (ok: bool)
      ensures ok == Protectable(plan, entries, available, stops)
    {
      if !ParentFilled(plan, entries) {
        return false;
      }
      var owned := 0;
      for k := 0 to |entries|
        invariant owned == LiveLedger.Owned(entries[..k], ScopeOf(plan), plan.instrument.uid)
      {
        assert entries[..k + 1][..k] == entries[..k];
        if LiveLedger.Touches(entries[k], ScopeOf(plan), plan.instrument.uid) {
          owned := owned + LiveLedger.UnitsOf(entries[k]);
        }
      }
      assert entries[..|entries|] == entries;
      if owned != plan.instrument.lotSize || available != plan.instrument.lotSize {
        return false;
      }
      return !exists s :: s in stops && (s.instrumentUid == "" || s.instrumentUid == plan.instrument.uid);
    }

    /**
     `activate`: `sent` says whether this call posted the stop. The wrong broker, another enrollment, an
     invalid or missing plan change nothing. Without interference a planned stop that is protectable is
     posted, and the row and the answer are what the transport and the readback make of it.
     */
    method Activate(me: nat, plan: Plan, broker: Broker, identity: Option<string>, entries: seq<Journal.Row>,
                    available: int, stops: seq<BrokerStop>, around: Around)
      returns (r: Result<StopState>, sent: bool)
      requires Valid() && me !in procs
      modifies this
      ensures Valid() && me !in procs
      ensures |posts| <= 1
      ensures !Admitted(old(row), plan, broker, identity) ==> r.Err? && !sent && Content() == old(Content())
      ensures sent ==> Protectable(plan, entries, available, stops) && posts == [plan]
      ensures r == Ok(ActiveStop) ==> row.Some? && row.value.plan == plan && row.value.state == ActiveStop
                                      && row.value.stopId.Some? && Shown(plan, row.value.stopId.value, around.observed)
      ensures Admitted(old(row), plan, broker, identity) && IsQuiet(around) && old(row).value.state == PlannedStop ==>
                if !Protectable(plan, entries, available, stops) then r.Err? && !sent && Content() == old(Content())
                else
                  && sent == IsDelivered(around.reply) && row == Some(SubmittedRow(old(row).value, plan, around))
                  && (r == Ok(ActiveStop) <==> row.value.state == ActiveStop)
      ensures Admitted(old(row), plan, broker, identity) && old(row).value.state != PlannedStop ==> !sent
      ensures (&& Admitted(old(row), plan, broker, identity) && IsQuiet(around)
               && old(row).value.state != PlannedStop && old(row).value.stopId.Some?) ==>
                row == Some(ReadRow(old(row).value, plan, around.observed))
    {
      sent := false;
      AtMostOnePost(steps);
      EveryRunIsSafe(steps);
      if !Admitted(row, plan, broker, identity) {
        return Err("protection plan, broker or enrollment does not match"), false;
      }
      if row.value.state != PlannedStop {
        r := Reconcile(me, plan, broker, around);
      } else {
        r := Err("protection is not active");
        var ok := CheckParent(plan, entries, available, stops);
        if ok {
          r, sent := Post(me, plan, broker, around);
        }
      }
      AtMostOnePost(steps);
    }

    /** The reservation of a planned stop, unless another process was first, and its submission. */
    method Post(me: nat, plan: Plan, broker: Broker, around: Around) returns (r: Result<StopState>, sent: bool)
      requires Valid() && me !in procs && HasRow(Content(), plan) && ExactBroker(broker, plan)
      modifies this
      ensures Valid() && me !in procs && (sent ==> plan in posts)
      ensures r == Ok(ActiveStop) ==> row.Some? && row.value.plan == plan && row.value.state == ActiveStop
                                      && row.value.stopId.Some? && Shown(plan, row.value.stopId.value, around.observed)
      ensures IsQuiet(around) && old(row).value.state == PlannedStop ==>
                && sent == IsDelivered(around.reply) && row == Some(SubmittedRow(old(row).value, plan, around))
                && (r == Ok(ActiveStop) <==> row.value.state == ActiveStop)
    {
      Others(me, around.reserving);
      if !HasRow(Content(), plan) || row.value.state != PlannedStop {
        return Err("protection submission is already reserved"), false;
      }
      Take(Reserve(me, plan));
      r, sent := Submit(me, plan, broker, around);
    }

    /** The stop submission under a reservation. */
    method Submit(me: nat, plan: Plan, broker: Broker, around: Around) returns (r: Result<StopState>, sent: bool)
      requires Valid() && me in procs && procs[me] == Reserved && HasRow(Content(), plan) && ExactBroker(broker, plan)
      modifies this
      ensures Valid() && me !in procs
      ensures sent ==> plan in posts
      ensures r == Ok(ActiveStop) ==> row.Some? && row.value.plan == plan && row.value.state == ActiveStop
                                      && row.value.stopId.Some? && Shown(plan, row.value.stopId.value, around.observed)
      ensures sent == IsDelivered(around.reply)
      ensures IsQuiet(around) ==> && row == Some(SubmittedRow(old(row).value, plan, around))
                                  && (r == Ok(ActiveStop) <==> row.value.state == ActiveStop)
    {
      Others(me, around.posting);
      match around.reply {
        case NotDispatched =>
          WithdrawReservation(me, plan, around);
          return Err("stop was not dispatched"), false;
        case Raised(delivered) =>
          RecordAnswer(me, plan, delivered, None, around);
          return Err("stop delivery is unknown"), delivered;
        case Answered(stopId) =>
          RecordAnswer(me, plan, true, stopId, around);
          if stopId.None? {
            return Err("stop POST response identity is incomplete"), true;
          }
          r := Reconcile(me, plan, broker, around);
          return r, true;
      }
    }

    /** The local guard refused: the row is PLANNED again, since nobody else could touch the reservation. */
    method WithdrawReservation(me: nat, plan: Plan, around: Around)
      requires Valid() && me in procs && procs[me] == Reserved && HasRow(Content(), plan)
      modifies this
      ensures Valid() && me !in procs
      ensures HasRow(Content(), plan) && row == Some(Row(plan, row.value.enrollment, PlannedStop, None))
      ensures IsQuiet(around) ==> row.value.enrollment == old(row).value.enrollment
    {
      Take(Refuse(me));
      Others(me, around.answering);
      EveryRunIsSafe(steps);
      Take(Revert(me));
    }

    /** UNKNOWN with the returned stop id, or without one after an exception or an incomplete answer. */
    method RecordAnswer(me: nat, plan: Plan, delivered: bool, stopId: Option<string>, around: Around)
      requires Valid() && me in procs && procs[me] == Reserved && HasRow(Content(), plan)
      requires stopId.Some? ==> delivered
      modifies this
      ensures Valid() && me !in procs
      ensures delivered ==> plan in posts
      ensures HasRow(Content(), plan) && row == Some(Row(plan, row.value.enrollment, UnknownStop, stopId))
      ensures IsQuiet(around) ==> row.value.enrollment == old(row).value.enrollment
    {
      Take(if delivered then ProtectionProtocol.Post(me) else Fail(me));
      Others(me, around.answering);
      Take(if stopId.Some? then Learn(me, stopId.value) else Lose(me));
    }

    /** `reconcile`: a row without a stop id, another broker or another plan is left as it is. */
    method Reconcile(me: nat, plan: Plan, broker: Broker, around: Around) returns (r: Result<StopState>)
      requires Valid() && me !in procs
      modifies this
      ensures Valid() && me !in procs
      ensures forall p :: p in old(posts) ==> p in posts
      ensures !HasRow(old(Content()), plan) || !ExactBroker(broker, plan) ==> r.Err? && Content() == old(Content())
      ensures HasRow(old(Content()), plan) && ExactBroker(broker, plan) && old(row).value.stopId.None? ==>
                r == Ok(old(row).value.state) && Content() == old(Content())
      ensures r == Ok(ActiveStop) ==> row.Some? && row.value.plan == plan && row.value.state == ActiveStop
                                      && row.value.stopId.Some? && Shown(plan, row.value.stopId.value, around.observed)
      ensures HasRow(old(Content()), plan) && ExactBroker(broker, plan) && old(row).value.stopId.Some? && IsQuiet(around) ==>
                && row == Some(ReadRow(old(row).value, plan, around.observed))
                && (if Shown(plan, row.value.stopId.value, around.observed) then r == Ok(ActiveStop) else r.Err?)
    {
      if !HasRow(Content(), plan) {
        return Err("persisted immutable protection plan missing");
      }
      if !ExactBroker(broker, plan) {
        return Err("exact production protection broker required");
      }
      if row.value.stopId.None? {
        ActiveHasStop(steps);
        return Ok(row.value.state);
      }
      r := ReadBack(me, plan, around);
    }

    /** A known stop is in doubt until the broker shows it. */
    method ReadBack(me: nat, plan: Plan, around: Around) returns (r: Result<StopState>)
      requires Valid() && me !in procs && HasRow(Content(), plan) && row.value.stopId.Some?
      modifies this
      ensures Valid() && me !in procs
      ensures forall p :: p in old(posts) ==> p in posts
      ensures r.Ok? <==> Shown(plan, old(row).value.stopId.value, around.observed)
      ensures r.Ok? ==> r.value == ActiveStop && HasRow(Content(), plan) && row.value.state == ActiveStop
                        && row.value.stopId == old(row).value.stopId
      ensures IsQuiet(around) ==> row == Some(ReadRow(old(row).value, plan, around.observed))
    {
      var stopId := row.value.stopId.value;
      Take(ReadStop(me, plan));
      WriteDoubt(me, plan, stopId, around);
      var shown := IsShown(plan, stopId, around.observed);
      r := WriteConfirmation(me, plan, stopId, shown);
    }

    /** The first write of a reconciliation: a known stop is in doubt until it is read back. */
    method WriteDoubt(me: nat, plan: Plan, stopId: string, around: Around)
      requires Valid() && me in procs && procs[me] == Read(stopId) && HasRow(Content(), plan)
      modifies this
      ensures Valid() && me in procs && procs[me] == Listed(stopId) && HasRow(Content(), plan)
      ensures forall p :: p in old(posts) ==> p in posts
      ensures IsQuiet(around) ==> row == Some(old(row).value.(state := UnknownStop, stopId := Some(stopId)))
    {
      Others(me, around.doubting);
      Take(Doubt(me));
      Others(me, around.listing);
    }

    /** The second write, after the broker readback. */
    method WriteConfirmation(me: nat, plan: Plan, stopId: string, shown: bool) returns (r: Result<StopState>)
      requires Valid() && me in procs && procs[me] == Listed(stopId) && HasRow(Content(), plan)
      modifies this
      ensures Valid() && me !in procs && posts == old(posts)
      ensures r.Ok? <==> shown
      ensures r.Ok? ==> r.value == ActiveStop
      ensures row == if shown then Some(old(row).value.(state := ActiveStop, stopId := Some(stopId))) else old(row)
    {
      if !shown {
        Take(Die(me));
        return Err("known stop is absent, mismatched or ambiguous");
      }
      Take(Confirm(me));
      return Ok(ActiveStop);
    }

    /** The readback loop: no foreign stop, exactly one match, and the match verified. */
    method IsShown(plan: Plan, stopId: string, observed: seq<BrokerStop>) returns (ok: bool)
      ensures ok == Shown(plan, stopId, observed)
    {
      var matches: seq<nat> := [];
      for k := 0 to |observed|
        invariant AreMatches(plan, stopId, observed, k, matches)
      {
        var s := observed[k];
        if IsForeign(plan, stopId, s) {
          assert s in observed;
          return false;
        }
        if s.stopOrderId == stopId {
          matches := matches + [k];
        }
      }
      ShownByMatches(plan, stopId, observed, matches);
      return |matches| == 1 && Verified(plan, observed[matches[0]]);
    }
  }

  /** A stop of no instrument, or another one of the plan's. */
  predicate IsForeign(p: Plan, stopId: string, s: BrokerStop) {
    s.instrumentUid == "" || (s.instrumentUid == p.instrument.uid && s.stopOrderId != stopId)
  }

  /** No stop so far is foreign, and these are the ones with the id. */
  ghost predicate AreMatches(p: Plan, stopId: string, observed: seq<BrokerStop>, k: nat, matches: seq<nat>)
    requires k <= |observed|
  {
    && (forall i :: 0 <= i < k ==> !IsForeign(p, stopId, observed[i]))
    && (forall i :: 0 <= i < k && observed[i].stopOrderId == stopId ==> i in matches)
    && (forall a :: 0 <= a < |matches| ==> matches[a] < k && observed[matches[a]].stopOrderId == stopId)
    && (forall a, b :: 0 <= a < b < |matches| ==> matches[a] < matches[b])
  }

  lemma ShownByMatches(p: Plan, stopId: string, observed: seq<BrokerStop>, matches: seq<nat>)
    requires AreMatches(p, stopId, observed, |observed|, matches)
    ensures Shown(p, stopId, observed) <==> |matches| == 1 && Verified(p, observed[matches[0]])
  {
    if |matches| == 1 {
      assert matches[0] in matches;
    } else if |matches| > 1 {
      assert matches[0] < matches[1];
    }
  }
}
