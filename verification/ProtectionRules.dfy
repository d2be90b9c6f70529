/**
 What a protection plan is checked against, in the terms of its prices, its parent order and the broker's
 list: which plans are valid, which parents are protectable, and which listed stops are the planned one.
 */
module ProtectionRules {
  import opened Domain
  import Journal
  import JournalTheorems
  import LiveLedger
  import opened ProtectionProtocol
  import opened ProtectionStore

  // ---------------------------------------------------------------- the stop

  /** How the broker lists the stop of a plan; the child order's type and its price are what is left open. */
  function Listed(p: Plan, id: string, price: Option<real>, child: Option<string>): BrokerStop {
    BrokerStop(
      id, p.instrument.uid, "STOP_ORDER_DIRECTION_SELL", "rub",
      if p.stopLimit.Some? then "STOP_ORDER_TYPE_STOP_LIMIT" else "STOP_ORDER_TYPE_STOP_LOSS",
      "STOP_ORDER_STATUS_ACTIVE", "1", Some(p.stopTrigger), price, child, false, false)
  }

  /** The child orders that such a stop may announce. */
  predicate MayAnnounce(p: Plan, child: Option<string>) {
    || child == None || child == Some("EXCHANGE_ORDER_TYPE_UNSPECIFIED")
    || child == Some(if p.stopLimit.Some? then "EXCHANGE_ORDER_TYPE_LIMIT" else "EXCHANGE_ORDER_TYPE_MARKET")
  }

  /** A stop is verified exactly if it is listed as the plan's: one lot, sold at its trigger, active and without an end. */
  lemma VerifiedIff(p: Plan, s: BrokerStop)
    ensures Verified(p, s) <==>
            && s == Listed(p, s.stopOrderId, s.price, s.childType) && MayAnnounce(p, s.childType)
            && (p.stopLimit.Some? ==> s.price == p.stopLimit)
  {
  }

  /** The one listed stop with this id is the plan's, and no other is for its instrument or for none. */
  predicate IsOnly(p: Plan, stopId: string, observed: seq<BrokerStop>, i: nat)
    requires i < |observed|
  {
    && observed[i] == Listed(p, stopId, observed[i].price, observed[i].childType) && MayAnnounce(p, observed[i].childType)
    && (p.stopLimit.Some? ==> observed[i].price == p.stopLimit)
    && forall j :: 0 <= j < |observed| && j != i ==>
                     observed[j].stopOrderId != stopId && observed[j].instrumentUid !in {"", p.instrument.uid}
  }

  lemma ShownIff(p: Plan, stopId: string, observed: seq<BrokerStop>)
    ensures Shown(p, stopId, observed) <==>
            p.instrument.uid != "" && exists i: nat :: i < |observed| && IsOnly(p, stopId, observed, i)
  {
    if Shown(p, stopId, observed) {
      var i: nat :| i < |observed| && observed[i].stopOrderId == stopId && Verified(p, observed[i])
                    && forall j :: 0 <= j < |observed| && observed[j].stopOrderId == stopId ==> j == i;
      VerifiedIff(p, observed[i]);
      assert forall j :: 0 <= j < |observed| ==> observed[j] in observed;
      assert IsOnly(p, stopId, observed, i);
    }
    if p.instrument.uid != "" && exists i: nat :: i < |observed| && IsOnly(p, stopId, observed, i) {
      var i: nat :| i < |observed| && IsOnly(p, stopId, observed, i);
      VerifiedIff(p, observed[i]);
    }
  }

  // ---------------------------------------------------------------- the plan

  ghost predicate IsPrice(price: real, tick: real) {
    price > 0.0 && OnTick(price, tick)
  }

  lemma PriceIff(price: real, tick: real)
    requires tick > 0.0
    ensures PriceValid(price, tick) <==> IsPrice(price, tick)
  {
    OnTickIff(price, tick);
  }

  /** A plan is valid exactly if its prices are positive ticks in their order: limit, trigger, entry, profit. */
  lemma PlanValidIff(p: Plan)
    ensures PlanValid(p) <==>
            && p.account != "" && p.instrument.currency == "RUB" && p.instrument.assetClass == "share"
            && IsPrice(p.entryPrice, p.instrument.tickSize) && IsPrice(p.stopTrigger, p.instrument.tickSize)
            && p.stopTrigger < p.entryPrice
            && (p.stopLimit.None? || (IsPrice(p.stopLimit.value, p.instrument.tickSize) && p.stopLimit.value <= p.stopTrigger))
            && (p.takeProfit.None? || (IsPrice(p.takeProfit.value, p.instrument.tickSize) && p.entryPrice < p.takeProfit.value))
  {
    PriceIff(p.entryPrice, p.instrument.tickSize);
    PriceIff(p.stopTrigger, p.instrument.tickSize);
    if p.stopLimit.Some? {
      PriceIff(p.stopLimit.value, p.instrument.tickSize);
    }
    if p.takeProfit.Some? {
      PriceIff(p.takeProfit.value, p.instrument.tickSize);
    }
  }

  // ---------------------------------------------------------------- the parent

  /** The row of the plan's entry: a BUY of one lot of its instrument at its price, filled and recorded as filled. */
  predicate IsParent(p: Plan, row: Journal.Row) {
    && row.account == "prod:" + p.account && row.requestId == p.entryRequestId && row.logicalId == p.entryLogicalId
    && row.state == Journal.Status(Filled) && row.record.status == Filled && row.record.filledLots == 1
    && row.record.intent.side == Buy && row.record.intent.lots == 1
    && row.record.intent.instrument == p.instrument && row.record.intent.limitPrice == p.entryPrice
  }

  /** The units of the instrument that the rows of the account executed, bought less sold. */
  function OwnedUnits(entries: seq<Journal.Row>, account: string, uid: string): int {
    if entries == [] then 0
    else
      var r := entries[|entries| - 1];
      OwnedUnits(entries[..|entries| - 1], account, uid)
      + if r.account != "prod:" + account || r.record.intent.instrument.uid != uid then 0
        else if r.record.intent.side == Buy then r.record.filledLots * r.record.intent.instrument.lotSize
        else -(r.record.filledLots * r.record.intent.instrument.lotSize)
  }

  lemma {:induction false} OwnedMeans(entries: seq<Journal.Row>, p: Plan)
    ensures LiveLedger.Owned(entries, ScopeOf(p), p.instrument.uid) == OwnedUnits(entries, p.account, p.instrument.uid)
  {
    if entries != [] {
      OwnedMeans(entries[..|entries| - 1], p);
    }
  }

  /**
   A stop may be posted exactly if the plan's entry is recorded as filled, its lot is all that the bot owns of
   the instrument and all of it is free, and the broker lists no stop of the instrument and none without one.
   */
  lemma ProtectableIff(p: Plan, entries: seq<Journal.Row>, available: int, stops: seq<BrokerStop>)
    requires JournalTheorems.UniqueRequests(entries)
    ensures Protectable(p, entries, available, stops) <==>
            && (exists k :: 0 <= k < |entries| && IsParent(p, entries[k]))
            && OwnedUnits(entries, p.account, p.instrument.uid) == p.instrument.lotSize
            && available == p.instrument.lotSize
            && forall s :: s in stops ==> s.instrumentUid !in {"", p.instrument.uid}
  {
    OwnedMeans(entries, p);
    ParentIff(p, entries);
  }

  lemma ParentIff(p: Plan, entries: seq<Journal.Row>)
    requires JournalTheorems.UniqueRequests(entries)
    ensures ParentFilled(p, entries) <==> exists k :: 0 <= k < |entries| && IsParent(p, entries[k])
  {
    var i := Journal.IndexOf(entries, ScopeOf(p), p.entryRequestId);
    if i >= 0 && ParentFilled(p, entries) {
      assert IsParent(p, entries[i]);
    }
  }

  /** An activation is admitted exactly for the stored valid plan, on its own production account and enrollment. */
  lemma AdmittedIff(row: Option<Row>, p: Plan, broker: Broker, identity: Option<string>)
    ensures Admitted(row, p, broker, identity) <==>
            && PlanValid(p) && broker == Broker(p.account, "prod")
            && identity.Some? && row.Some? && row.value == Row(p, identity.value, row.value.state, row.value.stopId)
  {
  }
}
