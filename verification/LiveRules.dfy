/**
 The rules of the production canary one by one: an order is authorized exactly when all of them hold, and it
 reaches the broker exactly when they still hold. Prices and limits are compared as the quotients they are.
 */
module LiveRules {
  import opened Domain
  import opened Sums
  import opened Journal
  import opened LiveLedger
  import opened LiveRisk
  import opened LiveExecution

  // ---------------------------------------------------------------- the ledger

  /** The row's snapshot lies in the day, which begins at 21:00 UTC of the day before. */
  predicate IsOf(r: Row, scope: string, day: int) {
    r.account == scope && day * 86400 - 10800 <= r.snapshotAt < day * 86400 + 75600
  }

  lemma DayMeans(r: Row, scope: string, day: int)
    ensures OnDay(r, scope, day) <==> IsOf(r, scope, day)
  {
    MoscowDayBegins(r.snapshotAt, day);
  }

  ghost function AttemptsOn(rows: seq<Row>, scope: string, day: int): set<int> {
    set k | 0 <= k < |rows| && IsOf(rows[k], scope, day)
  }

  lemma AttemptsOfLast(rows: seq<Row>, scope: string, day: int)
    requires rows != []
    ensures var n := |rows| - 1;
            AttemptsOn(rows, scope, day) == AttemptsOn(rows[..n], scope, day) + if IsOf(rows[n], scope, day) then {n} else {}
  {
  }

  lemma {:induction false} CountMeans(rows: seq<Row>, scope: string, day: int)
    ensures CountOn(rows, scope, day) == |AttemptsOn(rows, scope, day)|
  {
    if rows == [] {
      assert AttemptsOn(rows, scope, day) == {};
    } else {
      CountMeans(rows[..|rows| - 1], scope, day);
      DayMeans(rows[|rows| - 1], scope, day);
      AttemptsOfLast(rows, scope, day);
    }
  }

  /** The notionals of those attempts, from the first to the last. */
  function NotionalsOn(rows: seq<Row>, scope: string, day: int): real {
    if rows == [] then 0.0
    else (if IsOf(rows[0], scope, day) then rows[0].record.intent.notional else 0.0) + NotionalsOn(rows[1..], scope, day)
  }

  lemma {:induction false} NotionalsOfLast(rows: seq<Row>, scope: string, day: int)
    requires rows != []
    ensures var n := |rows| - 1;
            NotionalsOn(rows, scope, day) ==
            NotionalsOn(rows[..n], scope, day) + if IsOf(rows[n], scope, day) then rows[n].record.intent.notional else 0.0
  {
    if |rows| > 1 {
      NotionalsOfLast(rows[1..], scope, day);
      assert rows[1..][..|rows| - 2] == rows[..|rows| - 1][1..];
    }
  }

  lemma {:induction false} TurnoverMeans(rows: seq<Row>, scope: string, day: int)
    ensures TurnoverOn(rows, scope, day) == NotionalsOn(rows, scope, day)
  {
    if rows != [] {
      TurnoverMeans(rows[..|rows| - 1], scope, day);
      DayMeans(rows[|rows| - 1], scope, day);
      NotionalsOfLast(rows, scope, day);
    }
  }

  /** The value of a holding, in units. */
  function ValueOf(units: int, price: real): real {
    units as real * price
  }

  /** What the bot owns of the listed instruments in a group, from the first to the last. */
  function GroupValue(positions: seq<(string, Holding)>, rows: seq<Row>, scope: string, inGroup: Instrument -> bool): real {
    if positions == [] then 0.0
    else
      (if inGroup(positions[0].1.instrument) then ValueOf(Owned(rows, scope, positions[0].0), positions[0].1.price) else 0.0)
      + GroupValue(positions[1..], rows, scope, inGroup)
  }

  lemma {:induction false} GroupValueOfLast(positions: seq<(string, Holding)>, rows: seq<Row>, scope: string,
                                            inGroup: Instrument -> bool)
    requires positions != []
    ensures var (uid, h) := positions[|positions| - 1];
            GroupValue(positions, rows, scope, inGroup) ==
            GroupValue(positions[..|positions| - 1], rows, scope, inGroup)
            + if inGroup(h.instrument) then ValueOf(Owned(rows, scope, uid), h.price) else 0.0
  {
    if |positions| > 1 {
      GroupValueOfLast(positions[1..], rows, scope, inGroup);
      assert positions[1..][..|positions| - 2] == positions[..|positions| - 1][1..];
    }
  }

  lemma {:induction false} ExposureMeans(positions: seq<(string, Holding)>, rows: seq<Row>, scope: string,
                                         inGroup: Instrument -> bool)
    ensures Exposure(positions, rows, scope, inGroup) == GroupValue(positions, rows, scope, inGroup)
  {
    if positions != [] {
      var n := |positions| - 1;
      ExposureMeans(positions[..n], rows, scope, inGroup);
      GroupValueOfLast(positions, rows, scope, inGroup);
      ValueMeans(Owned(rows, scope, positions[n].0), positions[n].1.price);
    }
  }

  lemma ValueMeans(units: int, price: real)
    ensures ValueOf(units, price) == Priced(units, price)
  {
  }

  /** The value of everything the bot owns, by instrument, for those among `uids`. */
  ghost function OwnedValues(s: LiveState, rows: seq<Row>, scope: string, uids: seq<string>): map<string, real> {
    map uid | uid in uids && Owned(rows, scope, uid) != 0 && Find(s.positions, uid).Some? ::
      ValueOf(Owned(rows, scope, uid), Find(s.positions, uid).value.price)
  }

  lemma {:induction false} GrossMeans(s: LiveState, rows: seq<Row>, scope: string, uids: seq<string>)
    requires Distinct(uids)
    ensures Gross(s, rows, scope, uids) == Total(OwnedValues(s, rows, scope, uids))
  {
    if uids == [] {
      assert OwnedValues(s, rows, scope, uids) == map[];
    } else {
      var n := |uids| - 1;
      var last, before := uids[n], OwnedValues(s, rows, scope, uids[..n]);
      GrossMeans(s, rows, scope, uids[..n]);
      if Owned(rows, scope, last) != 0 && Find(s.positions, last).Some? {
        var value := ValueOf(Owned(rows, scope, last), Find(s.positions, last).value.price);
        ValueMeans(Owned(rows, scope, last), Find(s.positions, last).value.price);
        TotalUpdate(before, last, value);
        assert OwnedValues(s, rows, scope, uids) == before[last := value];
      } else {
        assert OwnedValues(s, rows, scope, uids) == before;
      }
    }
  }

  // ---------------------------------------------------------------- the rules

  predicate IsOpenAccount(s: LiveState, policy: Policy) {
    && s.accountType == policy.accountType && s.accountStatus == "ACCOUNT_STATUS_OPEN"
    && s.accessLevel == "ACCOUNT_ACCESS_LEVEL_FULL_ACCESS"
  }

  /** Taken within twenty seconds of this moment, with a book of the last ten. */
  predicate IsCurrent(s: LiveState, now: int) {
    s.startedAt <= s.finishedAt <= now && now <= s.startedAt + 20 && s.bookAt <= now <= s.bookAt + 10
  }

  /** A rouble share that the policy allows, by a limit order without margin, on the tick and within the order cap. */
  ghost predicate IsPlain(intent: OrderIntent, policy: Policy, s: LiveState) {
    var i := intent.instrument;
    && i == s.instrument && i.assetClass == "share" && i.currency == "RUB" && intent.orderType == "limit"
    && !intent.confirmMarginTrade && !policy.allowMargin
    && i.secid in policy.allowed && i.secid !in policy.protectedSecids
    && OnTick(intent.limitPrice, i.tickSize)
    && intent.notional == ValueOf(intent.lots * i.lotSize, intent.limitPrice) <= policy.maxOrderNotional
  }

  /** The spread is at most half a percent, and the limit within one percent of its middle. */
  predicate IsNearTheBook(intent: OrderIntent, s: LiveState) {
    && s.tradingAllowed && 0.0 < s.bid <= s.ask && s.ask / s.bid - 1.0 <= 0.005
    && -0.01 <= intent.limitPrice / ((s.bid + s.ask) / 2.0) - 1.0 <= 0.01
  }

  ghost predicate HasDailyRoom(intent: OrderIntent, policy: Policy, s: LiveState, rows: seq<Row>, scope: string, day: int) {
    && |AttemptsOn(rows, scope, day)| + 1 <= policy.maxOrdersPerDay
    && s.equity > 0.0 && s.dailyTurnover >= 0.0
    && s.dailyTurnover + intent.notional <= policy.maxDailyTurnover
    && NotionalsOn(rows, scope, day) + intent.notional <= policy.maxDailyTurnover
  }

  /** The broker holds free, at a price, everything the bot owns, and nothing else but what is protected. */
  ghost predicate HoldingsAgree(policy: Policy, s: LiveState, rows: seq<Row>, scope: string) {
    && (forall uid :: Owned(rows, scope, uid) != 0 ==> IsBacked(Find(s.positions, uid), Owned(rows, scope, uid)))
    && (forall p :: p in s.positions ==>
                      && p.1.units >= 0
                      && (p.1.units > 0 ==> p.1.instrument.secid in policy.protectedSecids || Owned(rows, scope, p.0) != 0))
  }

  predicate IsBacked(h: Option<Holding>, units: int) {
    h.Some? && units <= h.value.units && units <= h.value.freeUnits && h.value.price > 0.0
  }

  /** What is sold is owned and free. */
  predicate IsCovered(intent: OrderIntent, s: LiveState, rows: seq<Row>, scope: string) {
    var units, h := intent.lots * intent.instrument.lotSize, Find(s.positions, intent.instrument.uid);
    units <= Owned(rows, scope, intent.instrument.uid) && h.Some? && units <= h.value.freeUnits
  }

  /** The loss of the day is below its share of the equity, or of the canary's capital if that is less. */
  predicate IsBelowTheLossLimit(policy: Policy, s: LiveState) {
    -s.dailyPnl < (if s.equity <= policy.capitalLimit then s.equity else policy.capitalLimit) * policy.lossWeight
  }

  /** With the estimated total of the order the group stays within a part of the capital. */
  predicate IsDiverse(intent: OrderIntent, policy: Policy, s: LiveState, rows: seq<Row>, scope: string) {
    var i, capital := intent.instrument, policy.capitalLimit;
    && i.sector != "unknown" && i.riskCluster != "unknown"
    && GroupValue(s.positions, rows, scope, (x: Instrument) => x.issuerId == i.issuerId) + intent.notional <= capital * 0.25
    && GroupValue(s.positions, rows, scope, (x: Instrument) => x.sector == i.sector) + intent.notional <= capital * 0.5
    && GroupValue(s.positions, rows, scope, (x: Instrument) => x.riskCluster == i.riskCluster) + intent.notional
       <= capital * 0.5
  }

  /** What is bought is paid from free cash, fees included, and fits the capital, the loss limit and the groups. */
  ghost predicate IsAffordable(intent: OrderIntent, policy: Policy, s: LiveState, rows: seq<Row>, scope: string) {
    && IsPaid(intent.notional, policy, s, Total(OwnedValues(s, rows, scope, Uids(rows, scope))))
    && IsDiverse(intent, policy, s, rows, scope)
  }

  predicate IsPaid(notional: real, policy: Policy, s: LiveState, owned: real) {
    && IsBelowTheLossLimit(policy, s) && notional <= s.estimatedTotal <= notional + notional * 0.005
    && s.estimatedTotal <= s.cashAvailable && owned + s.estimatedTotal <= policy.capitalLimit
  }

  /** Every rule of the canary. */
  ghost predicate Passes(intent: OrderIntent, setup: Setup, s: LiveState, rows: seq<Row>, now: int) {
    && IsOpenAccount(s, setup.policy) && IsCurrent(s, now) && IsPlain(intent, setup.policy, s) && IsNearTheBook(intent, s)
    && s.activeOrders == 0 && intent.instrument.uid !in s.stopUids
    && HasDailyRoom(intent, setup.policy, s, rows, setup.scope, MoscowDay(now))
    && HoldingsAgree(setup.policy, s, rows, setup.scope)
    && (intent.side == Sell ==> IsCovered(intent, s, rows, setup.scope))
    && (intent.side == Buy ==> IsAffordable(intent, setup.policy, s, rows, setup.scope))
  }

  // ---------------------------------------------------------------- the authorization checks these rules

  lemma PlainMeans(intent: OrderIntent, policy: Policy, s: LiveState)
    ensures IsPlain(intent, policy, s) <==> Acceptable(intent, policy, s)
  {
    OnTickIff(intent.limitPrice, intent.instrument.tickSize);
    IntentWorth(intent);
  }

  lemma QuotientOrder(x: real, y: real, b: real)
    requires y > 0.0
    ensures x / y <= b <==> x <= b * y
    ensures b <= x / y <==> b * y <= x
  {
    var q := x / y;
    assert q * y == x;
    if q < b {
      assert (b - q) * y > 0.0;
    } else if b < q {
      assert (q - b) * y > 0.0;
    }
  }

  lemma OneMore(d: real, y: real)
    ensures (1.0 + d) * y == y + d * y && (1.0 - d) * y == y - d * y
  {
  }

  /** `x / y` is within `d` of one exactly if `x` is within that part of `y` of it. */
  lemma NearOne(x: real, y: real, d: real)
    requires y > 0.0
    ensures x / y - 1.0 <= d <==> x - y <= d * y
    ensures -d <= x / y - 1.0 <==> -(d * y) <= x - y
  {
    OneMore(d, y);
    QuotientOrder(x, y, 1.0 + d);
    QuotientOrder(x, y, 1.0 - d);
  }

  lemma BookMeans(intent: OrderIntent, s: LiveState)
    ensures IsNearTheBook(intent, s) <==> BookOk(intent, s)
  {
    if 0.0 < s.bid <= s.ask {
      NearOne(s.ask, s.bid, 0.005);
      NearOne(intent.limitPrice, (s.bid + s.ask) / 2.0, 0.01);
    }
  }

  lemma RoomMeans(intent: OrderIntent, policy: Policy, s: LiveState, rows: seq<Row>, scope: string, day: int)
    ensures HasDailyRoom(intent, policy, s, rows, scope, day) <==>
            && CountOn(rows, scope, day) < policy.maxOrdersPerDay && s.equity > 0.0 && s.dailyTurnover >= 0.0
            && Max(s.dailyTurnover, TurnoverOn(rows, scope, day)) + intent.notional <= policy.maxDailyTurnover
  {
    CountMeans(rows, scope, day);
    TurnoverMeans(rows, scope, day);
  }

  lemma NotOwnedOutside(rows: seq<Row>, scope: string)
    ensures forall uid :: Owned(rows, scope, uid) != 0 ==> uid in Uids(rows, scope)
  {
    forall uid | Owned(rows, scope, uid) != 0 ensures uid in Uids(rows, scope) {
      if uid !in Uids(rows, scope) {
        OutsideTheLedger(rows, scope, uid);
      }
    }
  }

  lemma BackedIsBacking(s: LiveState, rows: seq<Row>, scope: string)
    requires Backs(s, rows, scope, Uids(rows, scope))
    ensures forall uid :: Owned(rows, scope, uid) != 0 ==> IsBacked(Find(s.positions, uid), Owned(rows, scope, uid))
  {
    NotOwnedOutside(rows, scope);
    forall uid | Owned(rows, scope, uid) != 0 ensures IsBacked(Find(s.positions, uid), Owned(rows, scope, uid)) {
      assert uid in Uids(rows, scope);
    }
  }

  lemma BackingIsBacked(s: LiveState, rows: seq<Row>, scope: string)
    requires forall uid :: Owned(rows, scope, uid) != 0 ==> IsBacked(Find(s.positions, uid), Owned(rows, scope, uid))
    ensures Backs(s, rows, scope, Uids(rows, scope))
  {
    forall uid | uid in Uids(rows, scope) && Owned(rows, scope, uid) != 0
      ensures IsBacked(Find(s.positions, uid), Owned(rows, scope, uid))
    {
    }
  }

  /** The authorization's checks on the broker's holdings. */
  predicate HoldingsOk(policy: Policy, s: LiveState, rows: seq<Row>, scope: string) {
    && Backs(s, rows, scope, Uids(rows, scope))
    && !(exists p :: p in s.positions && p.1.units < 0)
    && !(exists p :: p in s.positions && p.1.units != 0 && p.1.instrument.secid !in policy.protectedSecids
                     && Owned(rows, scope, p.0) == 0)
  }

  lemma HoldingsMean(policy: Policy, s: LiveState, rows: seq<Row>, scope: string)
    ensures HoldingsAgree(policy, s, rows, scope) <==> HoldingsOk(policy, s, rows, scope)
  {
    if HoldingsOk(policy, s, rows, scope) {
      BackedIsBacking(s, rows, scope);
    }
    if HoldingsAgree(policy, s, rows, scope) {
      BackingIsBacked(s, rows, scope);
    }
  }

  lemma DiversityMeans(intent: OrderIntent, policy: Policy, s: LiveState, rows: seq<Row>, scope: string)
    ensures IsDiverse(intent, policy, s, rows, scope) <==> Diversified(intent, policy, s, rows, scope)
  {
    var i := intent.instrument;
    ExposureMeans(s.positions, rows, scope, (x: Instrument) => x.issuerId == i.issuerId);
    ExposureMeans(s.positions, rows, scope, (x: Instrument) => x.sector == i.sector);
    ExposureMeans(s.positions, rows, scope, (x: Instrument) => x.riskCluster == i.riskCluster);
  }

  lemma LossMeans(policy: Policy, s: LiveState)
    ensures IsBelowTheLossLimit(policy, s) <==> s.dailyPnl > -(Min(s.equity, policy.capitalLimit) * policy.lossWeight)
  {
  }

  lemma PaymentMeans(notional: real, policy: Policy, s: LiveState, gross: real)
    ensures IsPaid(notional, policy, s, gross) <==> Payable(notional, policy, s, gross)
  {
    LossMeans(policy, s);
  }

  lemma BuyMeans(intent: OrderIntent, policy: Policy, s: LiveState, rows: seq<Row>, scope: string)
    ensures IsAffordable(intent, policy, s, rows, scope) <==> BuyFits(intent, policy, s, rows, scope)
  {
    UidsAreDistinct(rows, scope);
    GrossMeans(s, rows, scope, Uids(rows, scope));
    PaymentMeans(intent.notional, policy, s, Gross(s, rows, scope, Uids(rows, scope)));
    DiversityMeans(intent, policy, s, rows, scope);
  }

  /** An order is authorized exactly if it passes every rule. */
  lemma AuthorizedIff(intent: OrderIntent, setup: Setup, s: LiveState, rows: seq<Row>, now: int)
    ensures Authorize(intent, setup, s, rows, now).Ok? <==> Passes(intent, setup, s, rows, now)
  {
    PlainMeans(intent, setup.policy, s);
    BookMeans(intent, s);
    RoomMeans(intent, setup.policy, s, rows, setup.scope, MoscowDay(now));
    HoldingsMean(setup.policy, s, rows, setup.scope);
    BuyMeans(intent, setup.policy, s, rows, setup.scope);
  }

  // ---------------------------------------------------------------- permission and submission

  /** The confirmation is of exactly this order, policy, release and account, current, and for five minutes at most. */
  predicate IsConfirmed(p: Permission, setup: Setup, intent: OrderIntent, now: int) {
    && p == Permission(setup.account, intent, setup.policy, setup.release, p.confirmedAt, p.expiresAt, true)
    && p.confirmedAt <= now < p.expiresAt <= p.confirmedAt + 300
  }

  lemma ConfirmedIff(p: Permission, setup: Setup, intent: OrderIntent, now: int)
    ensures Permitted(p, setup, intent, now) <==> IsConfirmed(p, setup, intent, now)
  {
  }

  lemma ShortMeans(rows: seq<Row>, scope: string)
    ensures (exists uid :: uid in Uids(rows, scope) && Owned(rows, scope, uid) < 0) <==>
            !(forall uid :: Owned(rows, scope, uid) >= 0)
  {
    NotOwnedOutside(rows, scope);
    if uid :| Owned(rows, scope, uid) < 0 {
      assert uid in Uids(rows, scope);
    }
  }

  /** The reservation's callback grants the snapshot's instant exactly to a confirmed order that passes. */
  lemma CallbackIff(setup: Setup, intent: OrderIntent, permission: Permission, capture: Result<LiveState>, now: int,
                    rows: seq<Row>)
    ensures var r := AuthorizeWith(setup, intent, permission, capture, now)(rows);
            && (r.Ok? <==> && capture.Ok? && IsConfirmed(permission, setup, intent, now)
                           && capture.value.accountId == setup.account
                           && (forall uid :: Owned(rows, setup.scope, uid) >= 0)
                           && Passes(intent, setup, capture.value, rows, now))
            && (r.Ok? ==> r.value == capture.value.startedAt)
  {
    ConfirmedIff(permission, setup, intent, now);
    if capture.Ok? {
      AuthorizedIff(intent, setup, capture.value, rows, now);
    }
    ShortMeans(rows, setup.scope);
  }

  /** A reserved order reaches the broker exactly if nothing failed and confirmation, snapshot and book are still current. */
  lemma StillGoodIff(setup: Setup, intent: OrderIntent, permission: Permission, around: Around)
    ensures StillGood(setup, intent, permission, around) <==>
            && around.hook.Ok? && around.capture.Ok? && IsConfirmed(permission, setup, intent, around.submittingAt)
            && around.capture.value.startedAt <= around.submittingAt <= around.capture.value.startedAt + 20
            && around.capture.value.bookAt <= around.submittingAt <= around.capture.value.bookAt + 10
  {
    ConfirmedIff(permission, setup, intent, around.submittingAt);
  }

  /** Two orders of an account share a broker request id only if they are the same logical order. */
  lemma RequestIdsDiffer(setup: Setup, a: OrderIntent, b: OrderIntent)
    ensures RequestIdOf(setup, a) == RequestIdOf(setup, b) <==> a.orderRequestId == b.orderRequestId
  {
    var n := |setup.scope + ":"|;
    assert RequestIdOf(setup, a)[n..] == a.orderRequestId && RequestIdOf(setup, b)[n..] == b.orderRequestId;
  }
}
