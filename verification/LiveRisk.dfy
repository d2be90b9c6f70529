/**
 What an authorized buy means for the bot's holdings: once it has filled completely, the capital limit and
 the concentration limits of the canary hold over all holdings, the bought one included.
 */
module LiveRisk {
  import opened Domain
  import opened Journal
  import opened LiveLedger

  /** The broker lists each instrument once. */
  ghost predicate ListedOnce(positions: seq<(string, Holding)>) {
    forall i, j :: 0 <= i < j < |positions| ==> positions[i].0 != positions[j].0
  }

  predicate Lists(positions: seq<(string, Holding)>, uid: string) {
    exists i :: 0 <= i < |positions| && positions[i].0 == uid
  }

  /** The captured positions with the ordered instrument at index `k` valued as `h`, or added at the end. */
  function Revalued(positions: seq<(string, Holding)>, k: nat, uid: string, h: Holding): seq<(string, Holding)>
    requires k <= |positions|
  {
    if k < |positions| then positions[k := (uid, h)] else positions + [(uid, h)]
  }

  /** A price for the ordered instrument that is neither above its limit nor above its captured price. */
  predicate FairlyValued(positions: seq<(string, Holding)>, k: nat, intent: OrderIntent, h: Holding) {
    && k <= |positions| && 0.0 <= h.price <= intent.limitPrice
    && if k == |positions| then !Lists(positions, intent.instrument.uid) && h.instrument == intent.instrument
       else && positions[k].0 == intent.instrument.uid && h.instrument == positions[k].1.instrument
            && h.price <= positions[k].1.price
  }

  /** The row of a buy of this intent that has filled completely. */
  predicate FilledBuy(r: Row, scope: string, intent: OrderIntent) {
    && r.account == scope && r.record.intent.instrument == intent.instrument && r.record.intent.side == Buy
    && intent.side == Buy && r.record.filledLots == intent.lots
  }

  function Bought(intent: OrderIntent): int {
    Units(intent.lots, intent.instrument.lotSize)
  }

  lemma OwnedAfter(rows: seq<Row>, r: Row, scope: string, intent: OrderIntent, uid: string)
    requires FilledBuy(r, scope, intent)
    ensures Owned(rows + [r], scope, uid) ==
            Owned(rows, scope, uid) + if uid == intent.instrument.uid then Bought(intent) else 0
  {
    assert (rows + [r])[..|rows|] == rows;
  }

  /** What is owned and bought, at the new price, against the old price and the limit. */
  lemma PricedAfter(units: int, more: int, captured: real, price: real, limit: real)
    requires units >= 0 && more > 0 && 0.0 <= price <= limit
    requires units > 0 ==> price <= captured
    ensures Priced(units + more, price) <= Priced(units, captured) + Priced(more, limit)
  {
    assert (units + more) as real * price == units as real * price + more as real * price;
    assert more as real * price <= more as real * limit;
    if units > 0 {
      assert units as real * price <= units as real * captured;
    }
  }

  lemma BoughtIsPositive(intent: OrderIntent)
    ensures Bought(intent) > 0
  {
  }

  lemma IntentWorth(intent: OrderIntent)
    ensures Priced(Bought(intent), intent.limitPrice) ==
            intent.limitPrice * intent.lots as real * intent.instrument.lotSize as real
  {
    var lots, lotSize := intent.lots as real, intent.instrument.lotSize as real;
    assert (intent.lots * intent.instrument.lotSize) as real == lots * lotSize;
  }

  // ---------------------------------------------------------------- what is owned was listed

  lemma {:induction false} OutsideTheLedger(rows: seq<Row>, scope: string, uid: string)
    requires uid !in Uids(rows, scope)
    ensures Owned(rows, scope, uid) == 0
  {
    if rows != [] {
      OutsideTheLedger(rows[..|rows| - 1], scope, uid);
    }
  }

  lemma {:induction false} FindListed(positions: seq<(string, Holding)>, uid: string)
    ensures Find(positions, uid).Some? <==> Lists(positions, uid)
    ensures forall k :: ListedOnce(positions) && 0 <= k < |positions| && positions[k].0 == uid ==>
                          Find(positions, uid) == Some(positions[k].1)
  {
    if positions != [] {
      FindListed(positions[1..], uid);
      assert forall i :: 0 <= i < |positions[1..]| ==> positions[1..][i] == positions[i + 1];
      if Lists(positions, uid) && positions[0].0 != uid {
        var i :| 0 <= i < |positions| && positions[i].0 == uid;
        assert positions[1..][i - 1].0 == uid;
      }
    }
  }

  /** Nothing is owned of an instrument that the broker does not list. */
  lemma UnlistedIsNotOwned(s: LiveState, rows: seq<Row>, scope: string, uid: string)
    requires Backs(s, rows, scope, Uids(rows, scope)) && !Lists(s.positions, uid)
    ensures Owned(rows, scope, uid) == 0
  {
    FindListed(s.positions, uid);
    if uid !in Uids(rows, scope) {
      OutsideTheLedger(rows, scope, uid);
    }
  }

  // ---------------------------------------------------------------- concentration

  /** Where the ordered instrument is not among these positions its exposure does not move. */
  lemma {:induction false} ExposureOfOthers(positions: seq<(string, Holding)>, rows: seq<Row>, r: Row, scope: string,
                                            intent: OrderIntent, inGroup: Instrument -> bool)
    requires FilledBuy(r, scope, intent) && !Lists(positions, intent.instrument.uid)
    ensures Exposure(positions, rows + [r], scope, inGroup) == Exposure(positions, rows, scope, inGroup)
  {
    if positions != [] {
      var n := |positions| - 1;
      assert forall i :: 0 <= i < n ==> positions[..n][i] == positions[i];
      ExposureOfOthers(positions[..n], rows, r, scope, intent, inGroup);
      OwnedAfter(rows, r, scope, intent, positions[n].0);
    }
  }

  lemma {:induction false} ListedExposure(positions: seq<(string, Holding)>, k: nat, h: Holding, rows: seq<Row>, r: Row,
                                          scope: string, intent: OrderIntent, inGroup: Instrument -> bool)
    requires FilledBuy(r, scope, intent) && ListedOnce(positions) && k < |positions|
    requires FairlyValued(positions, k, intent, h) && Owned(rows, scope, intent.instrument.uid) >= 0
    ensures Exposure(positions[k := (intent.instrument.uid, h)], rows + [r], scope, inGroup) <=
            Exposure(positions, rows, scope, inGroup) + Priced(Bought(intent), intent.limitPrice)
  {
    var n, uid := |positions| - 1, intent.instrument.uid;
    var after := positions[k := (uid, h)];
    BoughtIsPositive(intent);
    OwnedAfter(rows, r, scope, intent, after[n].0);
    if k == n {
      assert after[..n] == positions[..n];
      ExposureOfOthers(positions[..n], rows, r, scope, intent, inGroup);
      PricedAfter(Owned(rows, scope, uid), Bought(intent), positions[n].1.price, h.price, intent.limitPrice);
    } else {
      assert after[..n] == positions[..n][k := (uid, h)];
      ListedExposure(positions[..n], k, h, rows, r, scope, intent, inGroup);
    }
  }

  lemma ExposureAfterFill(s: LiveState, k: nat, h: Holding, rows: seq<Row>, r: Row, scope: string, intent: OrderIntent,
                          inGroup: Instrument -> bool)
    requires FilledBuy(r, scope, intent) && ListedOnce(s.positions) && FairlyValued(s.positions, k, intent, h)
    requires Backs(s, rows, scope, Uids(rows, scope)) && Owned(rows, scope, intent.instrument.uid) >= 0
    ensures Exposure(Revalued(s.positions, k, intent.instrument.uid, h), rows + [r], scope, inGroup) <=
            Exposure(s.positions, rows, scope, inGroup) + Priced(Bought(intent), intent.limitPrice)
  {
    var uid := intent.instrument.uid;
    if k < |s.positions| {
      ListedExposure(s.positions, k, h, rows, r, scope, intent, inGroup);
    } else {
      BoughtIsPositive(intent);
      UnlistedIsNotOwned(s, rows, scope, uid);
      OwnedAfter(rows, r, scope, intent, uid);
      ExposureOfOthers(s.positions, rows, r, scope, intent, inGroup);
      PricedAfter(0, Bought(intent), 0.0, h.price, intent.limitPrice);
      assert (s.positions + [(uid, h)])[..|s.positions|] == s.positions;
    }
  }

  // ---------------------------------------------------------------- capital

  lemma RevaluedFind(positions: seq<(string, Holding)>, k: nat, intent: OrderIntent, h: Holding)
    requires ListedOnce(positions) && FairlyValued(positions, k, intent, h)
    ensures Find(Revalued(positions, k, intent.instrument.uid, h), intent.instrument.uid) == Some(h)
  {
    var after := Revalued(positions, k, intent.instrument.uid, h);
    assert after[k] == (intent.instrument.uid, h);
    FindListed(after, intent.instrument.uid);
  }

  lemma OthersStayListed(positions: seq<(string, Holding)>, k: nat, intent: OrderIntent, h: Holding, uid: string)
    requires ListedOnce(positions) && FairlyValued(positions, k, intent, h) && uid != intent.instrument.uid
    ensures var after := Revalued(positions, k, intent.instrument.uid, h);
            ListedOnce(after) && Find(after, uid) == Find(positions, uid)
  {
    var after := Revalued(positions, k, intent.instrument.uid, h);
    FindListed(positions, uid);
    FindListed(after, uid);
    assert after[k].0 == intent.instrument.uid;
    forall i | 0 <= i < |positions| && i != k ensures after[i] == positions[i] {
    }
  }

  /** What one instrument contributes to the gross of the ledger. */
  function GrossOf(s: LiveState, rows: seq<Row>, scope: string, uid: string): real {
    var h := Find(s.positions, uid);
    if Owned(rows, scope, uid) != 0 && h.Some? then Priced(Owned(rows, scope, uid), h.value.price) else 0.0
  }

  lemma GrossOfAnother(s: LiveState, k: nat, h: Holding, rows: seq<Row>, r: Row, scope: string, intent: OrderIntent, uid: string)
    requires FilledBuy(r, scope, intent) && ListedOnce(s.positions) && FairlyValued(s.positions, k, intent, h)
    requires uid != intent.instrument.uid
    ensures GrossOf(s.(positions := Revalued(s.positions, k, intent.instrument.uid, h)), rows + [r], scope, uid) ==
            GrossOf(s, rows, scope, uid)
  {
    OthersStayListed(s.positions, k, intent, h, uid);
    OwnedAfter(rows, r, scope, intent, uid);
  }

  lemma GrossOfBought(s: LiveState, k: nat, h: Holding, rows: seq<Row>, r: Row, scope: string, intent: OrderIntent)
    requires FilledBuy(r, scope, intent) && ListedOnce(s.positions) && FairlyValued(s.positions, k, intent, h)
    requires Backs(s, rows, scope, Uids(rows, scope)) && Owned(rows, scope, intent.instrument.uid) >= 0
    ensures var after := s.(positions := Revalued(s.positions, k, intent.instrument.uid, h));
            GrossOf(after, rows + [r], scope, intent.instrument.uid) <=
            GrossOf(s, rows, scope, intent.instrument.uid) + Priced(Bought(intent), intent.limitPrice)
  {
    var after := s.(positions := Revalued(s.positions, k, intent.instrument.uid, h));
    BoughtIsPositive(intent);
    RevaluedFind(s.positions, k, intent, h);
    OwnedAfter(rows, r, scope, intent, intent.instrument.uid);
    CapturedGross(s, k, h, rows, scope, intent);
    GrossOfHeld(after, rows + [r], scope, intent.instrument.uid, h);
  }

  lemma GrossOfHeld(s: LiveState, rows: seq<Row>, scope: string, uid: string, h: Holding)
    requires Find(s.positions, uid) == Some(h) && Owned(rows, scope, uid) != 0
    ensures GrossOf(s, rows, scope, uid) == Priced(Owned(rows, scope, uid), h.price)
  {
  }

  /** The bought instrument before and after the fill. */
  lemma CapturedGross(s: LiveState, k: nat, h: Holding, rows: seq<Row>, scope: string, intent: OrderIntent)
    requires ListedOnce(s.positions) && FairlyValued(s.positions, k, intent, h) && Bought(intent) > 0
    requires Backs(s, rows, scope, Uids(rows, scope)) && Owned(rows, scope, intent.instrument.uid) >= 0
    ensures Priced(Owned(rows, scope, intent.instrument.uid) + Bought(intent), h.price) <=
            GrossOf(s, rows, scope, intent.instrument.uid) + Priced(Bought(intent), intent.limitPrice)
  {
    var uid := intent.instrument.uid;
    if k == |s.positions| {
      UnlistedIsNotOwned(s, rows, scope, uid);
      PricedAfter(0, Bought(intent), 0.0, h.price, intent.limitPrice);
    } else {
      FindListed(s.positions, uid);
      PricedAfter(Owned(rows, scope, uid), Bought(intent), s.positions[k].1.price, h.price, intent.limitPrice);
    }
  }

  /** Over instruments that are counted once. */
  lemma {:induction false} GrossAfterFill(s: LiveState, k: nat, h: Holding, rows: seq<Row>, r: Row, scope: string,
                                          intent: OrderIntent, uids: seq<string>)
    requires FilledBuy(r, scope, intent) && ListedOnce(s.positions) && FairlyValued(s.positions, k, intent, h)
    requires Backs(s, rows, scope, Uids(rows, scope)) && Owned(rows, scope, intent.instrument.uid) >= 0
    requires Distinct(uids)
    ensures var after := s.(positions := Revalued(s.positions, k, intent.instrument.uid, h));
            Gross(after, rows + [r], scope, uids) <=
            Gross(s, rows, scope, uids)
            + if intent.instrument.uid in uids then Priced(Bought(intent), intent.limitPrice) else 0.0
  {
    if uids != [] {
      var n := |uids| - 1;
      GrossAfterFill(s, k, h, rows, r, scope, intent, uids[..n]);
      if uids[n] == intent.instrument.uid {
        GrossOfBought(s, k, h, rows, r, scope, intent);
      } else {
        GrossOfAnother(s, k, h, rows, r, scope, intent, uids[n]);
      }
    }
  }

  ghost predicate Distinct(uids: seq<string>) {
    forall i, j :: 0 <= i < j < |uids| ==> uids[i] != uids[j]
  }

  lemma {:induction false} UidsAreDistinct(rows: seq<Row>, scope: string)
    ensures Distinct(Uids(rows, scope))
  {
    if rows != [] {
      UidsAreDistinct(rows[..|rows| - 1], scope);
      var before := Uids(rows[..|rows| - 1], scope);
      assert Uids(rows, scope)[..|before|] == before;
    }
  }

  /** The ledger gains at most the bought instrument, of which it owned nothing. */
  lemma GrossOfNewLedger(s: LiveState, rows: seq<Row>, r: Row, scope: string)
    ensures Gross(s, rows, scope, Uids(rows + [r], scope)) == Gross(s, rows, scope, Uids(rows, scope))
  {
    assert (rows + [r])[..|rows|] == rows;
    var uids, uid := Uids(rows, scope), r.record.intent.instrument.uid;
    if Uids(rows + [r], scope) != uids {
      OutsideTheLedger(rows, scope, uid);
      assert (uids + [uid])[..|uids|] == uids;
    }
  }

  // ---------------------------------------------------------------- the canary's limits after the fill

  /** What `_authorize` established for a buy. */
  lemma AuthorizedBuyFits(setup: Setup, intent: OrderIntent, s: LiveState, rows: seq<Row>, now: int)
    requires Authorize(intent, setup, s, rows, now).Ok? && intent.side == Buy
    ensures BuyFits(intent, setup.policy, s, rows, setup.scope) && Acceptable(intent, setup.policy, s)
    ensures Backs(s, rows, setup.scope, Uids(rows, setup.scope))
  {
  }

  lemma PermittedBuyIsAuthorized(
    setup: Setup, intent: OrderIntent, permission: Permission, s: LiveState, rows: seq<Row>, now: int)
    requires AuthorizeWith(setup, intent, permission, Ok(s), now)(rows).Ok?
    ensures Authorize(intent, setup, s, rows, now).Ok?
    ensures Owned(rows, setup.scope, intent.instrument.uid) >= 0
  {
    if intent.instrument.uid !in Uids(rows, setup.scope) {
      OutsideTheLedger(rows, setup.scope, intent.instrument.uid);
    }
  }

  /**
   An authorized buy that fills completely, at its limit or better, keeps the bot's capital within the
   canary's limit and issuer, sector and cluster within its shares, valued over all captured positions
   and the bought instrument, whether or not that was listed before.
   */
  lemma FilledBuyStaysWithinLimits(setup: Setup, intent: OrderIntent, permission: Permission, s: LiveState, rows: seq<Row>,
                                   now: int, r: Row, k: nat, h: Holding)
    requires AuthorizeWith(setup, intent, permission, Ok(s), now)(rows).Ok? && FilledBuy(r, setup.scope, intent)
    requires ListedOnce(s.positions) && FairlyValued(s.positions, k, intent, h)
    ensures var i, limit := intent.instrument, setup.policy.capitalLimit;
            var after, filled := Revalued(s.positions, k, i.uid, h), rows + [r];
            && Gross(s.(positions := after), filled, setup.scope, Uids(filled, setup.scope)) <= limit
            && Exposure(after, filled, setup.scope, (x: Instrument) => x.issuerId == i.issuerId) <= limit * 0.25
            && Exposure(after, filled, setup.scope, (x: Instrument) => x.sector == i.sector) <= limit * 0.5
            && Exposure(after, filled, setup.scope, (x: Instrument) => x.riskCluster == i.riskCluster) <= limit * 0.5
  {
    var i, scope := intent.instrument, setup.scope;
    PermittedBuyIsAuthorized(setup, intent, permission, s, rows, now);
    AuthorizedBuyFits(setup, intent, s, rows, now);
    IntentWorth(intent);
    ExposureAfterFill(s, k, h, rows, r, scope, intent, (x: Instrument) => x.issuerId == i.issuerId);
    ExposureAfterFill(s, k, h, rows, r, scope, intent, (x: Instrument) => x.sector == i.sector);
    ExposureAfterFill(s, k, h, rows, r, scope, intent, (x: Instrument) => x.riskCluster == i.riskCluster);
    UidsAreDistinct(rows + [r], scope);
    GrossOfNewLedger(s, rows, r, scope);
    GrossAfterFill(s, k, h, rows, r, scope, intent, Uids(rows + [r], scope));
  }
}
