/** What `executed_entries` computes: net units, sides, cost basis and realized gain of deduplicated fills. */
module LifecycleTheorems {
  import opened Domain
  import opened Lifecycle

  predicate TradedBefore(ops: seq<Operation>, id: string) {
    exists i :: 0 <= i < |ops| && Counts(ops[i]) && ops[i].id == id
  }

  /** The last row is a fill of this security whose operation id is new. */
  predicate NewFill(ops: seq<Operation>, secid: string)
    requires ops != []
  {
    var op := ops[|ops| - 1];
    Counts(op) && op.secid == secid && !TradedBefore(ops[..|ops| - 1], op.id)
  }

  /** The signed quantities of a security, each operation counted once. */
  function NetUnits(ops: seq<Operation>, secid: string): int {
    if ops == [] then 0
    else NetUnits(ops[..|ops| - 1], secid) + if NewFill(ops, secid) then Delta(ops[|ops| - 1]) else 0
  }

  /** Money received less money paid for a security, each operation counted once. */
  function CashFlow(ops: seq<Operation>, secid: string): real {
    if ops == [] then 0.0
    else
      var op := ops[|ops| - 1];
      CashFlow(ops[..|ops| - 1], secid)
      + if !NewFill(ops, secid) then 0.0 else if op.trade == Some(Sell) then op.gross else -op.gross
  }

  function UnitsOf(e: Option<Entry>): int {
    if e.None? then 0 else e.value.units
  }

  function BasisOf(e: Option<Entry>): real {
    if e.None? then 0.0 else e.value.basis
  }

  /** The units that a fill of `delta` closes of a position. */
  function ClosedUnits(units: int, delta: int): int {
    if (units > 0 && delta < 0) || (units < 0 && delta > 0) then MinInt(AbsInt(units), AbsInt(delta)) else 0
  }

  function Money(units: int, price: real): real {
    units as real * price
  }

  function Gain(e: Option<Entry>, op: Operation): real
    requires Counts(op) && op.quantity > 0
  {
    var closed := ClosedUnits(UnitsOf(e), Delta(op));
    Money(if UnitsOf(e) > 0 then closed else -closed, Price(op) - BasisOf(e))
  }

  /** The gain realized against the average cost whenever a fill closes part of the position. */
  function Realized(ops: seq<Operation>, secid: string): real
    requires Replay(ops).Ok?
  {
    if ops == [] then 0.0
    else
      ReplayPrefix(ops);
      Realized(ops[..|ops| - 1], secid)
      + if NewFill(ops, secid) && Valid(ops[|ops| - 1])
        then Gain(EntryOf(Replay(ops[..|ops| - 1]).value, secid), ops[|ops| - 1]) else 0.0
  }

  lemma ReplayPrefix(ops: seq<Operation>)
    requires ops != [] && Replay(ops).Ok?
    ensures Replay(ops[..|ops| - 1]).Ok?
  {
  }

  lemma {:induction false} SeenAreTraded(ops: seq<Operation>)
    requires Replay(ops).Ok?
    ensures forall id :: id in Replay(ops).value.seen <==> TradedBefore(ops, id)
  {
    if ops != [] {
      var n := |ops| - 1;
      SeenAreTraded(ops[..n]);
      forall id ensures id in Replay(ops).value.seen <==> TradedBefore(ops, id) {
        if TradedBefore(ops[..n], id) {
          var i :| 0 <= i < n && Counts(ops[..n][i]) && ops[..n][i].id == id;
          assert Counts(ops[i]) && ops[i].id == id;
        }
        if TradedBefore(ops, id) {
          var i :| 0 <= i < |ops| && Counts(ops[i]) && ops[i].id == id;
          if i < n {
            assert Counts(ops[..n][i]) && ops[..n][i].id == id;
          }
        }
      }
    }
  }

  /** How one more row changes the entry of a security. */
  lemma EntryAfter(ops: seq<Operation>, secid: string)
    requires ops != [] && Replay(ops).Ok?
    ensures var before := Replay(ops[..|ops| - 1]);
            && before.Ok? && (NewFill(ops, secid) ==> Valid(ops[|ops| - 1]))
            && EntryOf(Replay(ops).value, secid) ==
               if NewFill(ops, secid) then Extended(EntryOf(before.value, secid), ops[|ops| - 1])
               else EntryOf(before.value, secid)
  {
    SeenAreTraded(ops[..|ops| - 1]);
  }

  lemma SignOfProduct(a: int, b: int)
    ensures a * b > 0 <==> (a > 0 && b > 0) || (a < 0 && b < 0)
  {
  }

  ghost predicate WellFormed(e: Option<Entry>) {
    e.Some? ==> e.value.units != 0 && (e.value.side == Buy <==> e.value.units > 0) && e.value.basis > 0.0
  }

  lemma AverageIsWeighted(basis: real, units: int, op: Operation)
    requires Counts(op) && Valid(op) && units * Delta(op) > 0
    ensures units + Delta(op) != 0 && AbsInt(units + Delta(op)) == AbsInt(units) + op.quantity
    ensures Average(basis, units, op) * AbsInt(units + Delta(op)) as real == basis * AbsInt(units) as real + op.gross
  {
    SignOfProduct(units, Delta(op));
    assert Price(op) * op.quantity as real == op.gross;
  }

  lemma PositiveAverage(basis: real, units: int, op: Operation)
    requires Counts(op) && Valid(op) && units * Delta(op) > 0 && basis > 0.0
    ensures units + Delta(op) != 0 && Average(basis, units, op) > 0.0
  {
    AverageIsWeighted(basis, units, op);
  }

  lemma PriceIsPositive(op: Operation)
    requires Valid(op)
    ensures Price(op) > 0.0 && Price(op) * op.quantity as real == op.gross
  {
  }

  lemma ExtendedIsWellFormed(e: Option<Entry>, op: Operation)
    requires WellFormed(e) && Counts(op) && Valid(op)
    ensures WellFormed(Extended(e, op)) && UnitsOf(Extended(e, op)) == UnitsOf(e) + Delta(op)
  {
    PriceIsPositive(op);
    if e.Some? {
      SignOfProduct(e.value.units, Delta(op));
      SignOfProduct(e.value.units, e.value.units + Delta(op));
      if e.value.units * Delta(op) > 0 {
        PositiveAverage(e.value.basis, e.value.units, op);
      }
    }
  }

  /**
   The entries are the net positions of the deduplicated fills: a security has an entry exactly when its
   signed quantities do not cancel, with their sum as units, their sign as side and a positive basis.
   */
  lemma {:induction false} EntriesAreNetPositions(ops: seq<Operation>, secid: string)
    requires Replay(ops).Ok?
    ensures WellFormed(EntryOf(Replay(ops).value, secid))
    ensures UnitsOf(EntryOf(Replay(ops).value, secid)) == NetUnits(ops, secid)
    ensures secid in Replay(ops).value.entries <==> NetUnits(ops, secid) != 0
  {
    if ops != [] {
      EntryAfter(ops, secid);
      EntriesAreNetPositions(ops[..|ops| - 1], secid);
      if NewFill(ops, secid) {
        ExtendedIsWellFormed(EntryOf(Replay(ops[..|ops| - 1]).value, secid), ops[|ops| - 1]);
      }
    }
  }

  // ---------------------------------------------------------------- money

  /** What the open units cost. */
  function Cost(e: Option<Entry>): real {
    Money(UnitsOf(e), BasisOf(e))
  }

  function Paid(op: Operation): real {
    if op.trade == Some(Sell) then -op.gross else op.gross
  }

  /** The cost of the position grows by what the fill paid and by the gain it realized. */
  lemma CostAfter(e: Option<Entry>, op: Operation)
    requires WellFormed(e) && Counts(op) && Valid(op)
    ensures Cost(Extended(e, op)) == Cost(e) + Paid(op) + Gain(e, op)
  {
    var units, basis, delta, price := UnitsOf(e), BasisOf(e), Delta(op), Price(op);
    PriceIsPositive(op);
    PaidIsMoney(op);
    SignOfProduct(units, delta);
    SignOfProduct(units, units + delta);
    if e.Some? && units * delta > 0 {
      AverageIsWeighted(basis, units, op);
      CostOfMore(basis, units, delta, Average(basis, units, op), price);
    } else if e.Some? {
      CostOfLess(basis, units, delta, price);
    }
  }

  lemma PaidIsMoney(op: Operation)
    requires Counts(op) && Valid(op)
    ensures Paid(op) == Money(Delta(op), Price(op)) && Money(op.quantity, Price(op)) == op.gross
  {
    PriceIsPositive(op);
  }

  lemma CostOfMore(basis: real, units: int, delta: int, average: real, price: real)
    requires (units > 0 && delta > 0) || (units < 0 && delta < 0)
    requires average * AbsInt(units + delta) as real == basis * AbsInt(units) as real + Money(AbsInt(delta), price)
    ensures Money(units + delta, average) == Money(units, basis) + Money(delta, price)
  {
  }

  /** A fill against the position closes units at the difference between its price and the basis. */
  lemma CostOfLess(basis: real, units: int, delta: int, price: real)
    requires (units > 0 && delta < 0) || (units < 0 && delta > 0)
    ensures var gain := Money(if units > 0 then ClosedUnits(units, delta) else -ClosedUnits(units, delta), price - basis);
            Money(units + delta, if AbsInt(delta) <= AbsInt(units) then basis else price) ==
            Money(units, basis) + Money(delta, price) + gain
  {
    var closed := ClosedUnits(units, delta) as real;
    assert (price - basis) * closed == price * closed - basis * closed;
    var u, d := units as real, delta as real;
    assert (u + d) * basis == u * basis + d * basis && (u + d) * price == u * price + d * price;
  }

  /** Net cash flow is realized gain less the cost of the open units. */
  lemma {:induction false} CashFlowIdentity(ops: seq<Operation>, secid: string)
    requires Replay(ops).Ok?
    ensures CashFlow(ops, secid) == Realized(ops, secid) - Cost(EntryOf(Replay(ops).value, secid))
  {
    if ops != [] {
      EntryAfter(ops, secid);
      CashFlowIdentity(ops[..|ops| - 1], secid);
      EntriesAreNetPositions(ops[..|ops| - 1], secid);
      if NewFill(ops, secid) {
        CostAfter(EntryOf(Replay(ops[..|ops| - 1]).value, secid), ops[|ops| - 1]);
      }
    }
  }

  // ---------------------------------------------------------------- the basis

  /** The last row opens, adds to, or turns round the position of this security. */
  predicate Builds(ops: seq<Operation>, secid: string)
    requires ops != []
  {
    NewFill(ops, secid) && AbsInt(NetUnits(ops, secid)) > 0
    && !Reduces(NetUnits(ops[..|ops| - 1], secid), NetUnits(ops, secid))
  }

  /** The last row leaves the security flat or on the other side, so that an earlier lifecycle is over. */
  predicate Restarts(ops: seq<Operation>, secid: string)
    requires ops != []
  {
    NetUnits(ops, secid) == 0
    || (NetUnits(ops[..|ops| - 1], secid) > 0 && NetUnits(ops, secid) < 0)
    || (NetUnits(ops[..|ops| - 1], secid) < 0 && NetUnits(ops, secid) > 0)
  }

  /** The prices of the fills that built the present position since the security was last flat. */
  function BuildingPrices(ops: seq<Operation>, secid: string): seq<real> {
    if ops == [] then []
    else
      var before := if Restarts(ops, secid) then [] else BuildingPrices(ops[..|ops| - 1], secid);
      before + if Builds(ops, secid) && ops[|ops| - 1].quantity > 0 then [Price(ops[|ops| - 1])] else []
  }

  predicate Between(lo: real, x: real, hi: real) {
    lo <= x <= hi
  }

  lemma AverageIsBetween(basis: real, units: int, op: Operation, lo: real, hi: real)
    requires Counts(op) && Valid(op) && units * Delta(op) > 0
    requires Between(lo, basis, hi) && Between(lo, Price(op), hi)
    ensures units + Delta(op) != 0 && Between(lo, Average(basis, units, op), hi)
  {
    AverageIsWeighted(basis, units, op);
    SignOfProduct(units, Delta(op));
    var m, q, n := AbsInt(units) as real, op.quantity as real, AbsInt(units + Delta(op)) as real;
    assert Price(op) * q == op.gross && n == m + q && m > 0.0 && q > 0.0;
    WeightedBetween(lo, basis, Price(op), hi, m, q, n, Average(basis, units, op));
  }

  lemma WeightedBetween(lo: real, a: real, b: real, hi: real, m: real, q: real, n: real, x: real)
    requires lo <= a <= hi && lo <= b <= hi && m > 0.0 && q > 0.0 && n == m + q && x * n == a * m + b * q
    ensures lo <= x <= hi
  {
    WeightedAbove(lo, a, b, m, q);
    WeightedAbove(-hi, -a, -b, m, q);
    assert Times(-hi, n) == -(hi * n) && Times(-a, m) == -(a * m) && Times(-b, q) == -(b * q);
    Cancel(lo, x, n);
    Cancel(x, hi, n);
  }

  function Times(x: real, n: real): real {
    x * n
  }

  /** A weighted sum is at least the weight of its least member. */
  lemma WeightedAbove(lo: real, a: real, b: real, m: real, q: real)
    requires lo <= a && lo <= b && m > 0.0 && q > 0.0
    ensures Times(lo, m + q) <= Times(a, m) + Times(b, q)
  {
    Scale(lo, a, m);
    Scale(lo, b, q);
    Distributes(lo, m, q, m + q);
  }

  lemma Scale(x: real, y: real, n: real)
    requires n > 0.0 && x <= y
    ensures x * n <= y * n
  {
  }

  lemma Distributes(x: real, m: real, q: real, n: real)
    requires n == m + q
    ensures x * n == x * m + x * q
  {
  }

  lemma Cancel(x: real, y: real, n: real)
    requires n > 0.0 && x * n <= y * n
    ensures x <= y
  {
  }

  /** The basis lies within the prices of the fills that built the present position. */
  lemma {:induction false} BasisIsWithinTheLifecycle(ops: seq<Operation>, secid: string, lo: real, hi: real)
    requires Replay(ops).Ok? && secid in Replay(ops).value.entries
    requires forall p :: p in BuildingPrices(ops, secid) ==> Between(lo, p, hi)
    ensures Between(lo, Replay(ops).value.entries[secid].basis, hi)
  {
    if ops != [] {
      var n := |ops| - 1;
      EntryAfter(ops, secid);
      EntriesAreNetPositions(ops, secid);
      EntriesAreNetPositions(ops[..n], secid);
      var e := EntryOf(Replay(ops[..n]).value, secid);
      BuildingPricesGrow(ops, secid);
      if e.Some? && !Restarts(ops, secid) {
        BasisIsWithinTheLifecycle(ops[..n], secid, lo, hi);
      }
      if NewFill(ops, secid) {
        BasisAfter(e, ops[n], lo, hi);
      }
    }
  }

  lemma BuildingPricesGrow(ops: seq<Operation>, secid: string)
    requires ops != []
    ensures !Restarts(ops, secid) ==>
              forall p :: p in BuildingPrices(ops[..|ops| - 1], secid) ==> p in BuildingPrices(ops, secid)
    ensures Builds(ops, secid) && ops[|ops| - 1].quantity > 0 ==> Price(ops[|ops| - 1]) in BuildingPrices(ops, secid)
  {
  }

  lemma BasisAfter(e: Option<Entry>, op: Operation, lo: real, hi: real)
    requires WellFormed(e) && Counts(op) && Valid(op) && Extended(e, op).Some?
    requires !Reduces(UnitsOf(e), UnitsOf(e) + Delta(op)) ==> Between(lo, Price(op), hi)
    requires UnitsOf(e) * (UnitsOf(e) + Delta(op)) > 0 ==> Between(lo, BasisOf(e), hi)
    ensures Between(lo, Extended(e, op).value.basis, hi)
  {
    if e.Some? {
      SignOfProduct(e.value.units, Delta(op));
      SignOfProduct(e.value.units, e.value.units + Delta(op));
      if e.value.units * Delta(op) > 0 {
        AverageIsBetween(e.value.basis, e.value.units, op, lo, hi);
      }
    }
  }

  // ---------------------------------------------------------------- repeated operations

  lemma {:induction false} RepeatedLater(a: seq<Operation>, dup: Operation, b: seq<Operation>)
    requires Replay(a).Ok? && (Counts(dup) ==> dup.id in Replay(a).value.seen)
    ensures Replay(a + [dup] + b) == Replay(a + b)
  {
    if b == [] {
      assert (a + [dup] + b)[..|a|] == a && a + b == a;
      assert a + [dup] + b == a + [dup];
    } else {
      var n := |b| - 1;
      RepeatedLater(a, dup, b[..n]);
      assert (a + [dup] + b)[..|a| + 1 + n] == a + [dup] + b[..n];
      assert (a + b)[..|a| + n] == a + b[..n];
    }
  }

  lemma {:induction false} ErrorsPropagate(a: seq<Operation>, b: seq<Operation>)
    requires Replay(a).Err?
    ensures Replay(a + b) == Replay(a)
  {
    if b == [] {
      assert a + b == a;
    } else {
      ErrorsPropagate(a, b[..|b| - 1]);
      assert (a + b)[..|a + b| - 1] == a + b[..|b| - 1];
    }
  }

  lemma RepeatedAfter(a: seq<Operation>, dup: Operation, b: seq<Operation>)
    requires dup in a
    ensures Replay(a + [dup] + b) == Replay(a + b)
  {
    if Replay(a).Ok? {
      SeenAreTraded(a);
      RepeatedLater(a, dup, b);
    } else {
      ErrorsPropagate(a, b);
      ErrorsPropagate(a, [dup] + b);
      assert a + [dup] + b == a + ([dup] + b);
    }
  }

  /** Reporting an operation once more, wherever the sort puts it, changes nothing. */
  lemma RepeatingChangesNothing(raw: seq<Operation>, dup: Operation)
    requires dup in raw
    ensures Replay(Sorted(raw + [dup])) == Replay(Sorted(raw))
  {
    var sorted := Sorted(raw);
    assert (raw + [dup])[..|raw|] == raw;
    SortedIsOrdered(raw);
    var k := InsertSplits(sorted, dup);
    assert sorted == sorted[..k] + sorted[k..];
    EarlierHalf(sorted, raw, dup, k);
    RepeatedAfter(sorted[..k], dup, sorted[k..]);
  }

  lemma EarlierHalf(sorted: seq<Operation>, raw: seq<Operation>, dup: Operation, k: nat)
    requires dup in raw && multiset(sorted) == multiset(raw) && k <= |sorted|
    requires forall i :: k <= i < |sorted| ==> dup.occurred != sorted[i].occurred
    ensures dup in sorted[..k]
  {
    assert dup in multiset(sorted);
    var i :| 0 <= i < |sorted| && sorted[i] == dup;
    assert sorted[..k][i] == dup;
  }
}
