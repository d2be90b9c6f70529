/**
 When a round of rebalancing does not overspend: with weights that are not negative and add up to at most
 one, and no limits on the size of an order, one round filled at the market prices leaves cash that is not
 negative and every security on its target, but for those that had to be closed first.
 */
module RebalanceCash {
  import opened Domain
  import opened Sums
  import opened Rebalance
  import opened RebalanceConverges
  import Texts

  function SumOfWeights(targets: seq<Target>): real {
    if targets == [] then 0.0 else SumOfWeights(targets[..|targets| - 1]) + targets[|targets| - 1].weight
  }

  /** Long-only weights that spend at most the whole equity. */
  predicate Spendable(targets: seq<Target>) {
    (forall t :: t in targets ==> 0.0 <= t.weight) && SumOfWeights(targets) <= 1.0
  }

  /** An order of any size may be sent. */
  predicate Unlimited(sizing: Sizing) {
    sizing.maxOrder.None? && sizing.minTrade <= 0.0
  }

  /** A part of an amount of money. */
  function PartOf(amount: real, weight: real): real {
    amount * weight
  }

  lemma PartsAdd(amount: real, a: real, b: real)
    ensures PartOf(amount, a + b) == PartOf(amount, a) + PartOf(amount, b)
  {
  }

  lemma PartIsWithin(amount: real, weight: real)
    requires amount >= 0.0
    ensures weight >= 0.0 ==> PartOf(amount, weight) >= 0.0
    ensures weight <= 1.0 ==> PartOf(amount, weight) <= amount
  {
  }

  // ---------------------------------------------------------------- what the targets may cost

  /** The money that the targets assign to each security. */
  function Assigned(equity: real, targets: seq<Target>): map<string, real> {
    if targets == [] then map[]
    else Assigned(equity, targets[..|targets| - 1])[targets[|targets| - 1].secid := PartOf(equity, targets[|targets| - 1].weight)]
  }

  lemma {:induction false} AssignedAt(equity: real, targets: seq<Target>, secid: string)
    ensures At(Assigned(equity, targets), secid) == PartOf(equity, WeightOf(targets, secid))
    ensures secid in Assigned(equity, targets) <==> secid in Targeted(targets)
  {
    if targets != [] {
      var n := |targets| - 1;
      AssignedAt(equity, targets[..n], secid);
      assert targets == targets[..n] + [targets[n]];
      assert Targeted(targets) == Targeted(targets[..n]) + {targets[n].secid};
    }
  }

  lemma {:induction false} AssignedTotal(equity: real, targets: seq<Target>)
    requires Distinct(Ranked(targets))
    ensures Total(Assigned(equity, targets)) == PartOf(equity, SumOfWeights(targets))
  {
    if targets != [] {
      var n := |targets| - 1;
      assert Ranked(targets)[..n] == Ranked(targets[..n]);
      AssignedTotal(equity, targets[..n]);
      LastIsNew(targets);
      AssignedAt(equity, targets[..n], targets[n].secid);
      TotalUpdate(Assigned(equity, targets[..n]), targets[n].secid, PartOf(equity, targets[n].weight));
      PartsAdd(equity, SumOfWeights(targets[..n]), targets[n].weight);
    } else {
      assert Total(map[]) == 0.0;
    }
  }

  lemma LastIsNew(targets: seq<Target>)
    requires targets != [] && Distinct(Ranked(targets))
    ensures targets[|targets| - 1].secid !in Targeted(targets[..|targets| - 1])
  {
    var n := |targets| - 1;
    forall t | t in targets[..n] ensures t.secid != targets[n].secid {
      var i :| 0 <= i < n && targets[..n][i] == t;
      assert Ranked(targets)[i] != Ranked(targets)[n];
    }
  }

  lemma {:induction false} WeightIsNotNegative(targets: seq<Target>, secid: string)
    requires forall t :: t in targets ==> 0.0 <= t.weight
    ensures 0.0 <= WeightOf(targets, secid)
  {
    if targets != [] {
      assert targets[|targets| - 1] in targets;
      WeightIsNotNegative(targets[..|targets| - 1], secid);
    }
  }

  // ---------------------------------------------------------------- one round

  /** Without limits an order closes its whole gap. */
  lemma UnlimitedOrder(current: int, wanted: int, lotSize: int, price: real, sizing: Sizing)
    requires lotSize > 0 && price > 0.0 && Unlimited(sizing)
    ensures current + SizedLots(current, wanted, lotSize, price, sizing) == AimedLots(current, wanted)
  {
    Positive(AbsInt(AimedLots(current, wanted) - current), lotSize, price);
  }

  /** Everything that is held is an exit or has a target. */
  lemma HeldIsBuilt(h: Holdings, targets: seq<Target>, exits: seq<string>, secid: string)
    requires AreExits(exits, h, targets) && (secid in h.lots || secid in Targeted(targets))
    ensures secid in exits + Ranked(targets)
  {
    if secid in Targeted(targets) {
      var t :| t in targets && t.secid == secid;
      var i :| 0 <= i < |targets| && targets[i] == t;
      assert Ranked(targets)[i] == secid;
    } else {
      assert secid in Texts.Elements(exits);
    }
  }

  /** The position of every security after an unlimited round. */
  lemma RoundReachesAim(h: Holdings, equity: real, targets: seq<Target>, market: map<string, Observation>, sizing: Sizing,
                        exits: seq<string>, secid: string)
    requires Listed(h, market) && Distinct(exits + Ranked(targets)) && AreExits(exits, h, targets) && Unlimited(sizing)
    requires secid in market
    ensures Lots(Round(h, equity, targets, market, sizing, exits + Ranked(targets)).lots, secid) ==
            AimedLots(Lots(h.lots, secid), Wanted(equity, targets, market, secid))
  {
    var secids := exits + Ranked(targets);
    OrdersNeverFail(h, equity, targets, market, sizing, secids);
    RoundMoves(h, equity, targets, market, sizing, secids, secid);
    UnlimitedOrder(Lots(h.lots, secid), Wanted(equity, targets, market, secid), market[secid].instrument.lotSize,
                   market[secid].price, sizing);
    if secid !in secids {
      if secid in h.lots || secid in Targeted(targets) {
        HeldIsBuilt(h, targets, exits, secid);
      }
      UntargetedIsUnwanted(equity, targets, market, secid);
    }
  }

  lemma UntargetedIsUnwanted(equity: real, targets: seq<Target>, market: map<string, Observation>, secid: string)
    requires secid !in Targeted(targets)
    ensures Wanted(equity, targets, market, secid) == 0
  {
    NoWeight(targets, secid);
    if secid in market {
      var o := market[secid];
      Positive(1, o.instrument.lotSize, o.price);
      FloorQuotient(0.0, Money(1, o.instrument.lotSize, o.price), 0);
      FloorQuotient(0.0, Money(1, o.instrument.lotSize, o.price), 1);
    }
  }

  lemma {:induction false} NoWeight(targets: seq<Target>, secid: string)
    requires secid !in Targeted(targets)
    ensures WeightOf(targets, secid) == 0.0
  {
    if targets != [] {
      var n := |targets| - 1;
      assert targets[n] in targets;
      assert forall t :: t in targets[..n] ==> t in targets;
      NoWeight(targets[..n], secid);
    }
  }

  /** What is held of a security afterwards is worth at most what the targets assign to it. */
  lemma HeldIsAssigned(equity: real, targets: seq<Target>, o: Observation, current: int, secid: string)
    requires equity >= 0.0 && forall t :: t in targets ==> 0.0 <= t.weight
    ensures var lots := AimedLots(current, WantedLots(equity, WeightOf(targets, secid), o));
            Money(lots, o.instrument.lotSize, o.price) <= PartOf(equity, WeightOf(targets, secid))
  {
    var weight := WeightOf(targets, secid);
    WeightIsNotNegative(targets, secid);
    PartIsWithin(equity, weight);
    WantedIsAssigned(equity, weight, o);
    AimIsCheaper(current, WantedLots(equity, weight, o), o.instrument.lotSize, o.price, PartOf(equity, weight));
  }

  lemma WantedIsAssigned(equity: real, weight: real, o: Observation)
    requires equity >= 0.0 && weight >= 0.0
    ensures Money(WantedLots(equity, weight, o), o.instrument.lotSize, o.price) <= PartOf(equity, weight)
  {
    WantedIsTheMostAffordable(equity, weight, o);
  }

  /** Closing a position first costs nothing. */
  lemma AimIsCheaper(current: int, wanted: int, lotSize: int, price: real, amount: real)
    requires Money(wanted, lotSize, price) <= amount && 0.0 <= amount
    ensures Money(AimedLots(current, wanted), lotSize, price) <= amount
  {
    MoneyAdds(0, 0, lotSize, price);
  }

  lemma HeldIsWithinAssigned(h: Holdings, targets: seq<Target>, market: map<string, Observation>, sizing: Sizing,
                             exits: seq<string>)
    requires Listed(h, market) && Distinct(exits + Ranked(targets)) && AreExits(exits, h, targets)
    requires Unlimited(sizing) && Spendable(targets) && Equity(h, market) >= 0.0
    ensures var after := Round(h, Equity(h, market), targets, market, sizing, exits + Ranked(targets));
            Total(Values(after.lots, market)) <= Total(Assigned(Equity(h, market), targets))
  {
    var equity := Equity(h, market);
    var after := Round(h, equity, targets, market, sizing, exits + Ranked(targets));
    forall x ensures At(Values(after.lots, market), x) <= At(Assigned(equity, targets), x) {
      AssignedAt(equity, targets, x);
      WeightIsNotNegative(targets, x);
      PartIsWithin(equity, WeightOf(targets, x));
      if x in after.lots && x in market {
        RoundReachesAim(h, equity, targets, market, sizing, exits, x);
        HeldIsAssigned(equity, targets, market[x], Lots(h.lots, x), x);
      }
    }
    TotalIsMonotone(Values(after.lots, market), Assigned(equity, targets));
  }

  lemma RankedIsDistinct(exits: seq<string>, targets: seq<Target>)
    requires Distinct(exits + Ranked(targets))
    ensures Distinct(Ranked(targets))
  {
    forall i, j | 0 <= i < j < |targets| ensures Ranked(targets)[i] != Ranked(targets)[j] {
      assert (exits + Ranked(targets))[|exits| + i] != (exits + Ranked(targets))[|exits| + j];
    }
  }

  /** Cash and positions together are at least the equity, which a round keeps. */
  lemma RoundConservesWorth(h: Holdings, equity: real, targets: seq<Target>, market: map<string, Observation>, sizing: Sizing,
                            secids: seq<string>)
    requires Listed(h, market) && equity == Equity(h, market)
    ensures var after := Round(h, equity, targets, market, sizing, secids);
            equity <= after.cash + Total(Values(after.lots, market))
  {
    OrdersNeverFail(h, equity, targets, market, sizing, secids);
    OrdersAreAtMarket(h, equity, targets, market, sizing, secids);
    var orders := Orders(h, equity, targets, market, sizing, secids).value;
    assert forall i :: 0 <= i < |orders| ==> orders[i] in orders;
    RoundConserves(h, market, orders);
  }

  /**
   One unlimited round of a long-only plan that spends at most the equity leaves cash that is not negative,
   and every security on its target unless a position of the other sign had to be closed first.
   */
  lemma RoundDoesNotOverspend(h: Holdings, targets: seq<Target>, market: map<string, Observation>, sizing: Sizing,
                              exits: seq<string>)
    requires Listed(h, market) && Distinct(exits + Ranked(targets)) && AreExits(exits, h, targets)
    requires Unlimited(sizing) && Spendable(targets) && Equity(h, market) >= 0.0
    ensures var equity := Equity(h, market);
            var after := Round(h, equity, targets, market, sizing, exits + Ranked(targets));
            && after.cash >= 0.0
            && forall secid :: secid in market ==>
                                 Lots(after.lots, secid) ==
                                 AimedLots(Lots(h.lots, secid), Wanted(equity, targets, market, secid))
  {
    var equity := Equity(h, market);
    RankedIsDistinct(exits, targets);
    AssignedTotal(equity, targets);
    PartIsWithin(equity, SumOfWeights(targets));
    HeldIsWithinAssigned(h, targets, market, sizing, exits);
    RoundConservesWorth(h, equity, targets, market, sizing, exits + Ranked(targets));
    forall secid | secid in market
      ensures Lots(Round(h, equity, targets, market, sizing, exits + Ranked(targets)).lots, secid) ==
              AimedLots(Lots(h.lots, secid), Wanted(equity, targets, market, secid))
    {
      RoundReachesAim(h, equity, targets, market, sizing, exits, secid);
    }
  }

  /** Two such rounds end exactly on the targets, with the same equity and cash that is not negative. */
  lemma TwoRoundsReachTheTargets(h: Holdings, targets: seq<Target>, market: map<string, Observation>, sizing: Sizing,
                                 exits: seq<string>)
    requires Listed(h, market) && Distinct(exits + Ranked(targets)) && AreExits(exits, h, targets)
    requires Unlimited(sizing) && Spendable(targets) && Equity(h, market) >= 0.0
    ensures var equity, secids := Equity(h, market), exits + Ranked(targets);
            var first := Round(h, equity, targets, market, sizing, secids);
            var second := Round(first, equity, targets, market, sizing, secids);
            && first.cash >= 0.0 && second.cash >= 0.0 && Equity(second, market) == equity
            && forall secid :: secid in market ==> Lots(second.lots, secid) == Wanted(equity, targets, market, secid)
  {
    var equity, secids := Equity(h, market), exits + Ranked(targets);
    var first := Round(h, equity, targets, market, sizing, secids);
    RoundDoesNotOverspend(h, targets, market, sizing, exits);
    RoundKeeps(h, equity, targets, market, sizing, secids);
    RoundKeepsExits(h, equity, targets, market, sizing, exits);
    RoundDoesNotOverspend(first, targets, market, sizing, exits);
    RoundKeeps(first, equity, targets, market, sizing, secids);
    forall secid | secid in market
      ensures AimedLots(Lots(first.lots, secid), Wanted(equity, targets, market, secid)) ==
              Wanted(equity, targets, market, secid)
    {
      AimTwice(Lots(h.lots, secid), Wanted(equity, targets, market, secid));
    }
  }

  lemma AimTwice(current: int, wanted: int)
    ensures AimedLots(AimedLots(current, wanted), wanted) == wanted
  {
  }
}
