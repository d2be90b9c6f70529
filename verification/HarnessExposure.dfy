/**
 The incremental exposure trackers against recomputation from the projected positions. With limit prices
 equal to the market prices they always agree and the clamps at zero never act; with any other limit price
 an accepted order makes the trackers of the groups it touches drift, but for what their clamps hide.
 */
module HarnessExposure {
  import opened Domain
  import opened Sums
  import opened RiskGate
  import opened Harness
  import opened HarnessTheorems

  /** What each position contributes to an exposure at market prices. */
  function Values(p: Portfolio, prices: map<string, real>, group: Group): map<string, real> {
    map secid | secid in p.positions && secid in prices ::
      Part(group, p.positions[secid].instrument, p.positions[secid].lots, prices[secid])
  }

  /** The exposure recomputed from scratch. */
  ghost function Exposure(p: Portfolio, prices: map<string, real>, group: Group): real {
    Total(Values(p, prices, group))
  }

  ghost predicate Exact(s: Account, prices: map<string, real>) {
    forall group :: Tracked(s.trackers, group) == Exposure(s.portfolio, prices, group)
  }

  /** Positions are priced, and held in the instrument under whose name they are listed. */
  ghost predicate Listed(p: Portfolio, instruments: map<string, Instrument>, prices: map<string, real>) {
    && instruments.Keys == prices.Keys
    && (forall secid :: secid in prices ==> prices[secid] > 0.0)
    && (forall secid :: secid in p.positions ==> secid in instruments && p.positions[secid].instrument == instruments[secid])
  }

  /** The order is for a listed instrument, at its market price. */
  predicate AtMarket(o: OrderIntent, instruments: map<string, Instrument>, prices: map<string, real>) {
    && o.instrument.secid in instruments && o.instrument == instruments[o.instrument.secid]
    && o.instrument.secid in prices && o.limitPrice == prices[o.instrument.secid]
  }

  predicate OfListed(o: OrderIntent, instruments: map<string, Instrument>) {
    o.instrument.secid in instruments && o.instrument == instruments[o.instrument.secid]
  }

  lemma ExposureIsNotNegative(p: Portfolio, prices: map<string, real>, group: Group)
    requires forall secid :: secid in prices ==> prices[secid] > 0.0
    ensures Exposure(p, prices, group) >= 0.0
  {
    forall secid | secid in Values(p, prices, group) ensures Values(p, prices, group)[secid] >= 0.0 {
      WorthIsNotNegative(p.positions[secid].lots, p.positions[secid].instrument.lotSize, prices[secid]);
    }
    TotalIsNotNegative(Values(p, prices, group));
  }

  /** What the security of an order contributes before and after it, at market prices. */
  function PartAt(o: OrderIntent, group: Group, lots: int, prices: map<string, real>): real
    requires o.instrument.secid in prices
  {
    Part(group, o.instrument, lots, prices[o.instrument.secid])
  }

  /** An accepted order changes the recomputed exposure by the part of its own position. */
  lemma ExposureAfter(s: Account, g: Gate, o: OrderIntent, instruments: map<string, Instrument>, prices: map<string, real>,
                      group: Group)
    requires Allowed(o, s.portfolio, s.trackers, g)
    requires Listed(s.portfolio, instruments, prices) && OfListed(o, instruments)
    ensures Exposure(Step(s, g, o).portfolio, prices, group) ==
            Exposure(s.portfolio, prices, group) + PartAt(o, group, Resulting(o, s.portfolio), prices)
            - PartAt(o, group, Current(o, s.portfolio), prices)
    ensures Listed(Step(s, g, o).portfolio, instruments, prices)
  {
    var secid := o.instrument.secid;
    var before, after := Values(s.portfolio, prices, group), Values(Step(s, g, o).portfolio, prices, group);
    var part := PartAt(o, group, Resulting(o, s.portfolio), prices);
    PartsOfOne(s.portfolio, o, instruments, prices, group);
    ValuesAfter(s, g, o, instruments, prices, group);
    TotalIsExtensional(after, before[secid := part]);
    TotalUpdate(before, secid, part);
  }

  lemma ValuesAfter(s: Account, g: Gate, o: OrderIntent, instruments: map<string, Instrument>, prices: map<string, real>,
                    group: Group)
    requires Allowed(o, s.portfolio, s.trackers, g)
    requires Listed(s.portfolio, instruments, prices) && OfListed(o, instruments)
    ensures var part := PartAt(o, group, Resulting(o, s.portfolio), prices);
            forall k :: At(Values(Step(s, g, o).portfolio, prices, group), k) ==
                        At(Values(s.portfolio, prices, group)[o.instrument.secid := part], k)
    ensures Listed(Step(s, g, o).portfolio, instruments, prices)
  {
    WorthIsNotNegative(0, o.instrument.lotSize, prices[o.instrument.secid]);
  }

  lemma PartsOfOne(p: Portfolio, o: OrderIntent, instruments: map<string, Instrument>, prices: map<string, real>, group: Group)
    requires Listed(p, instruments, prices) && OfListed(o, instruments)
    ensures At(Values(p, prices, group), o.instrument.secid) == PartAt(o, group, Current(o, p), prices)
  {
    WorthIsNotNegative(0, o.instrument.lotSize, prices[o.instrument.secid]);
  }

  /** Each accepted order at its market price keeps every tracker exact, without the help of its clamp. */
  lemma StepStaysExact(s: Account, g: Gate, o: OrderIntent, instruments: map<string, Instrument>, prices: map<string, real>,
                       group: Group)
    requires Allowed(o, s.portfolio, s.trackers, g)
    requires Listed(s.portfolio, instruments, prices) && AtMarket(o, instruments, prices)
    requires Tracked(s.trackers, group) == Exposure(s.portfolio, prices, group)
    ensures Tracked(Step(s, g, o).trackers, group) == Exposure(Step(s, g, o).portfolio, prices, group)
    ensures Tracked(s.trackers, group) + Part(group, o.instrument, Resulting(o, s.portfolio), o.limitPrice)
            - Part(group, o.instrument, Current(o, s.portfolio), o.limitPrice) >= 0.0
  {
    ExposureAfter(s, g, o, instruments, prices, group);
    ExposureIsNotNegative(Step(s, g, o).portfolio, prices, group);
    NextTrackedOfOthers(o, s.portfolio, s.trackers, group);
    OtherGroupsHaveNoPart(o, group, Current(o, s.portfolio));
    OtherGroupsHaveNoPart(o, group, Resulting(o, s.portfolio));
  }

  lemma OtherGroupsHaveNoPart(o: OrderIntent, group: Group, lots: int)
    ensures group == Everything || group == ShortSide || group == Sector(o.instrument.sector)
            || group == Cluster(o.instrument.riskCluster) || Part(group, o.instrument, lots, o.limitPrice) == 0.0
  {
  }

  /**
   The trackers refine recomputation: over any plan whose orders carry market prices, after every order,
   gross, short, sector and cluster exposures equal their sums over the projected positions.
   */
  lemma {:induction false} TrackersStayExact(s: Account, g: Gate, plan: seq<OrderIntent>, instruments: map<string, Instrument>,
                                             prices: map<string, real>)
    requires Listed(s.portfolio, instruments, prices) && Exact(s, prices)
    requires forall i :: 0 <= i < |plan| ==> AtMarket(plan[i], instruments, prices)
    ensures Listed(Run(s, g, plan).portfolio, instruments, prices) && Exact(Run(s, g, plan), prices)
  {
    if plan != [] {
      var before, o := Run(s, g, plan[..|plan| - 1]), plan[|plan| - 1];
      TrackersStayExact(s, g, plan[..|plan| - 1], instruments, prices);
      if Allowed(o, before.portfolio, before.trackers, g) {
        ExposureAfter(before, g, o, instruments, prices, Everything);
        forall group
          ensures Tracked(Step(before, g, o).trackers, group) == Exposure(Step(before, g, o).portfolio, prices, group)
        {
          StepStaysExact(before, g, o, instruments, prices, group);
        }
      }
    }
  }

  // ---------------------------------------------------------------- limit prices off the market

  /** The order moves units that the group counts. */
  predicate Touches(o: OrderIntent, p: Portfolio, group: Group) {
    InGroup(group, o.instrument, Current(o, p)) || InGroup(group, o.instrument, Resulting(o, p))
  }

  function Scaled(n: real, price: real): real {
    n * price
  }

  /** The units that an order adds to a group. */
  function UnitsAdded(o: OrderIntent, p: Portfolio, group: Group): real {
    Part(group, o.instrument, Resulting(o, p), 1.0) - Part(group, o.instrument, Current(o, p), 1.0)
  }

  lemma PartChange(o: OrderIntent, p: Portfolio, group: Group, price: real)
    ensures Part(group, o.instrument, Resulting(o, p), price) - Part(group, o.instrument, Current(o, p), price) ==
            Scaled(UnitsAdded(o, p, group), price)
  {
    PartScales(group, o.instrument, Resulting(o, p), price);
    PartScales(group, o.instrument, Current(o, p), price);
    ScaledDifference(Part(group, o.instrument, Resulting(o, p), 1.0), Part(group, o.instrument, Current(o, p), 1.0), price);
  }

  lemma PartScales(group: Group, i: Instrument, lots: int, price: real)
    ensures Part(group, i, lots, price) == Scaled(Part(group, i, lots, 1.0), price)
  {
  }

  lemma ScaledDifference(x: real, y: real, price: real)
    ensures Scaled(x, price) - Scaled(y, price) == Scaled(x - y, price)
  {
  }

  /** An accepted order adds no units to a group exactly when it does not touch it. */
  lemma UnitsAreAddedIff(s: Account, g: Gate, o: OrderIntent, group: Group)
    requires Allowed(o, s.portfolio, s.trackers, g)
    ensures UnitsAdded(o, s.portfolio, group) == 0.0 <==> !Touches(o, s.portfolio, group)
  {
    var a, b := Current(o, s.portfolio), Resulting(o, s.portfolio);
    StepDirection(s, g, o);
    MoreLotsAreWorthMore(a, b, o.instrument.lotSize, 1.0);
    MoreLotsAreWorthMore(b, a, o.instrument.lotSize, 1.0);
    WorthIsNotNegative(a, o.instrument.lotSize, 1.0);
    WorthIsNotNegative(b, o.instrument.lotSize, 1.0);
  }

  /** A quantity that is not zero tells two prices apart. */
  lemma EqualProducts(n: real, limit: real, price: real)
    requires price > 0.0
    ensures n == 0.0 ==> Scaled(n, limit) == Scaled(n, price) == 0.0
    ensures n != 0.0 ==> (Scaled(n, limit) == Scaled(n, price) <==> limit == price)
    ensures n < 0.0 ==> (Scaled(n, limit) < Scaled(n, price) <==> limit > price)
    ensures n > 0.0 ==> (Scaled(n, limit) > Scaled(n, price) <==> limit > price) && Scaled(n, price) > 0.0
  {
  }

  /** A tracker moves by the units the order adds to its group, at the order's limit price, clamped at zero. */
  lemma TrackerMoves(s: Account, g: Gate, o: OrderIntent, group: Group)
    requires Allowed(o, s.portfolio, s.trackers, g) && Tracked(s.trackers, group) >= 0.0
    ensures Tracked(Step(s, g, o).trackers, group) ==
            Max(0.0, Tracked(s.trackers, group) + Scaled(UnitsAdded(o, s.portfolio, group), o.limitPrice))
  {
    NextTrackedOfOthers(o, s.portfolio, s.trackers, group);
    OtherGroupsHaveNoPart(o, group, Current(o, s.portfolio));
    OtherGroupsHaveNoPart(o, group, Resulting(o, s.portfolio));
    PartChange(o, s.portfolio, group, o.limitPrice);
  }

  lemma ExposureMoves(s: Account, g: Gate, o: OrderIntent, instruments: map<string, Instrument>, prices: map<string, real>,
                      group: Group)
    requires Allowed(o, s.portfolio, s.trackers, g)
    requires Listed(s.portfolio, instruments, prices) && OfListed(o, instruments)
    ensures Exposure(Step(s, g, o).portfolio, prices, group) ==
            Exposure(s.portfolio, prices, group) + Scaled(UnitsAdded(o, s.portfolio, group), prices[o.instrument.secid])
  {
    ExposureAfter(s, g, o, instruments, prices, group);
    PartChange(o, s.portfolio, group, prices[o.instrument.secid]);
  }

  /**
   When a tracker of any group is exact before an accepted order it is exact after it if and only if the
   order does not touch the group, its limit is the market price, or the limit is above the market price
   and the clamp at zero hides the difference because nothing of the group is left.
   */
  lemma TrackerStaysExactIff(s: Account, g: Gate, o: OrderIntent, instruments: map<string, Instrument>,
                             prices: map<string, real>, group: Group)
    requires Allowed(o, s.portfolio, s.trackers, g)
    requires Listed(s.portfolio, instruments, prices) && OfListed(o, instruments)
    requires Tracked(s.trackers, group) == Exposure(s.portfolio, prices, group)
    ensures Tracked(Step(s, g, o).trackers, group) == Exposure(Step(s, g, o).portfolio, prices, group) <==>
            || !Touches(o, s.portfolio, group)
            || o.limitPrice == prices[o.instrument.secid]
            || (o.limitPrice > prices[o.instrument.secid]
                && Exposure(Step(s, g, o).portfolio, prices, group) == 0.0)
  {
    var market, n := prices[o.instrument.secid], UnitsAdded(o, s.portfolio, group);
    ExposureIsNotNegative(s.portfolio, prices, group);
    ExposureIsNotNegative(Step(s, g, o).portfolio, prices, group);
    ExposureMoves(s, g, o, instruments, prices, group);
    TrackerMoves(s, g, o, group);
    UnitsAreAddedIff(s, g, o, group);
    EqualProducts(n, o.limitPrice, market);
    TrackerDrift(Tracked(s.trackers, group), Scaled(n, o.limitPrice), Scaled(n, market), o.limitPrice > market, n);
  }

  /** The clamped tracker `max(0, x + drifted)` against the true value `x + exact`, which is not negative. */
  lemma TrackerDrift(x: real, drifted: real, exact: real, above: bool, n: real)
    requires x + exact >= 0.0 && x >= 0.0
    requires n == 0.0 ==> drifted == exact
    requires n < 0.0 ==> (drifted < exact <==> above)
    requires n > 0.0 ==> (drifted > exact <==> above)
    requires n > 0.0 ==> exact > 0.0
    ensures Max(0.0, x + drifted) == x + exact <==> drifted == exact || (above && x + exact == 0.0)
  {
  }

  // ---------------------------------------------------------------- the opening exposures

  lemma OnePositionMore(p: Portfolio, prices: map<string, real>, secid: string, position: Position, group: Group)
    requires secid in prices && secid !in p.positions
    ensures Exposure(p.(positions := p.positions[secid := position]), prices, group) ==
            Exposure(p, prices, group) + Part(group, position.instrument, position.lots, prices[secid])
  {
    var before := Values(p, prices, group);
    var part := Part(group, position.instrument, position.lots, prices[secid]);
    assert Values(p.(positions := p.positions[secid := position]), prices, group) == before[secid := part];
    TotalUpdate(before, secid, part);
  }

  function Accumulated(t: Trackers, position: Position, exposure: real): Trackers {
    var i := position.instrument;
    Trackers(
      t.gross + exposure, if position.lots < 0 then t.short + exposure else t.short,
      t.sectors[i.sector := At(t.sectors, i.sector) + exposure],
      t.clusters[i.riskCluster := At(t.clusters, i.riskCluster) + exposure])
  }

  lemma AccumulatedAdds(t: Trackers, position: Position, price: real, group: Group)
    ensures Tracked(Accumulated(t, position, Worth(position.lots, position.instrument.lotSize, price)), group) ==
            Tracked(t, group) + Part(group, position.instrument, position.lots, price)
  {
  }

  lemma AccumulatedIsExact(p: Portfolio, t: Trackers, prices: map<string, real>, secid: string, position: Position)
    requires secid in prices && secid !in p.positions && Exact(Account(p, t, []), prices)
    ensures var next := Accumulated(t, position, Worth(position.lots, position.instrument.lotSize, prices[secid]));
            Exact(Account(p.(positions := p.positions[secid := position]), next, []), prices)
  {
    var next := Accumulated(t, position, Worth(position.lots, position.instrument.lotSize, prices[secid]));
    var grown := p.(positions := p.positions[secid := position]);
    forall group ensures Tracked(next, group) == Exposure(grown, prices, group) {
      OnePositionMore(p, prices, secid, position, group);
      AccumulatedAdds(t, position, prices[secid], group);
      assert Tracked(Account(p, t, []).trackers, group) == Exposure(p, prices, group);
    }
  }

  /** The exposures a run starts from, accumulated over the positions. */
  method OpeningTrackers(p: Portfolio, prices: map<string, real>) returns (t: Trackers)
    requires forall secid :: secid in p.positions ==> secid in prices
    ensures Exact(Account(p, t, []), prices)
  {
    t := Trackers(0.0, 0.0, map[], map[]);
    var rest := p.positions.Keys;
    ghost var seen := p.(positions := map[]);
    assert forall group :: Values(seen, prices, group) == map[];
    while rest != {}
      invariant rest <= p.positions.Keys
      invariant seen == p.(positions := map secid | secid in p.positions && secid !in rest :: p.positions[secid])
      invariant Exact(Account(seen, t, []), prices)
      decreases rest
    {
      var secid :| secid in rest;
      var position := p.positions[secid];
      AccumulatedIsExact(seen, t, prices, secid, position);
      t := Accumulated(t, position, Worth(position.lots, position.instrument.lotSize, prices[secid]));
      seen := seen.(positions := seen.positions[secid := position]);
      rest := rest - {secid};
    }
    assert seen.positions == p.positions;
  }
}
