/**
 Which fill an open position dates from, which reports are refused, and that rows with the same text stay in
 the order in which they were reported.
 */
module LifecycleRules {
  import opened Domain
  import opened Texts
  import opened Lifecycle
  import opened LifecycleTheorems

  // ---------------------------------------------------------------- the opening fill

  /** The position is on this side. */
  predicate IsOn(side: Side, units: int) {
    if side == Buy then units > 0 else units < 0
  }

  /** Row `k` is the fill that took the position to its present side, where it has been since. */
  ghost predicate Opens(ops: seq<Operation>, secid: string, k: nat, side: Side)
    requires k < |ops|
  {
    && NewFill(ops[..k + 1], secid) && ops[k].trade == Some(side)
    && !IsOn(side, NetUnits(ops[..k], secid))
    && forall j :: k < j <= |ops| ==> IsOn(side, NetUnits(ops[..j], secid))
  }

  lemma ExtendedKeepsFirst(e: Entry, op: Operation)
    requires WellFormed(Some(e)) && Counts(op) && Valid(op)
    ensures var next := Extended(Some(e), op);
            next.Some? ==>
              if IsOn(e.side, e.units + Delta(op)) then next.value.first == e.first && next.value.side == e.side
              else next.value.first == op.at.value && Some(next.value.side) == op.trade
  {
    SignOfProduct(e.units, Delta(op));
    SignOfProduct(e.units, e.units + Delta(op));
  }

  lemma OpensLater(ops: seq<Operation>, secid: string, k: nat, side: Side)
    requires k < |ops| - 1 && Opens(ops[..|ops| - 1], secid, k, side) && IsOn(side, NetUnits(ops, secid))
    ensures Opens(ops, secid, k, side)
  {
    var n := |ops| - 1;
    assert ops[..n][..k + 1] == ops[..k + 1] && ops[..n][..k] == ops[..k];
    forall j | k < j <= |ops| ensures IsOn(side, NetUnits(ops[..j], secid)) {
      if j <= n {
        assert ops[..n][..j] == ops[..j];
      } else {
        assert ops[..j] == ops;
      }
    }
  }

  lemma OpensNow(ops: seq<Operation>, secid: string, side: Side)
    requires ops != [] && NewFill(ops, secid) && ops[|ops| - 1].trade == Some(side)
    requires IsOn(side, NetUnits(ops, secid)) && !IsOn(side, NetUnits(ops[..|ops| - 1], secid))
    ensures Opens(ops, secid, |ops| - 1, side)
  {
    assert ops[..|ops|] == ops;
  }

  /** An entry dates from the fill that opened its lifecycle: the last one that found the security flat or on the other side. */
  lemma {:induction false} EntryDatesFromItsOpening(ops: seq<Operation>, secid: string) returns (k: nat)
    requires Replay(ops).Ok? && secid in Replay(ops).value.entries
    ensures var e := Replay(ops).value.entries[secid];
            k < |ops| && Opens(ops, secid, k, e.side) && ops[k].at == Some(e.first)
  {
    var n := |ops| - 1;
    var e := Replay(ops).value.entries[secid];
    EntryAfter(ops, secid);
    EntriesAreNetPositions(ops, secid);
    EntriesAreNetPositions(ops[..n], secid);
    var before := EntryOf(Replay(ops[..n]).value, secid);
    if NewFill(ops, secid) && before.Some? {
      ExtendedKeepsFirst(before.value, ops[n]);
    }
    if before.Some? && IsOn(before.value.side, e.units) {
      k := EntryDatesFromItsOpening(ops[..n], secid);
      OpensLater(ops, secid, k, e.side);
    } else {
      k := n;
      OpensNow(ops, secid, e.side);
    }
  }

  // ---------------------------------------------------------------- refused reports

  /** A new BUY or SELL of a security without a quantity, a price or an instant. */
  predicate IsBad(ops: seq<Operation>, k: nat)
    requires k < |ops|
  {
    var op := ops[k];
    && op.trade.Some? && op.secid != "" && !TradedBefore(ops[..k], op.id)
    && (op.quantity <= 0 || op.gross <= 0.0 || op.at.None?)
  }

  /** A report is refused exactly if one of its new fills is bad. */
  lemma {:induction false} ReplayFailsIff(ops: seq<Operation>)
    ensures Replay(ops).Err? <==> exists k: nat :: k < |ops| && IsBad(ops, k)
  {
    if ops != [] {
      var n := |ops| - 1;
      ReplayFailsIff(ops[..n]);
      forall k: nat | k < n ensures IsBad(ops[..n], k) <==> IsBad(ops, k) {
        assert ops[..n][..k] == ops[..k];
      }
      if Replay(ops[..n]).Err? {
        var k: nat :| k < n && IsBad(ops[..n], k);
        assert IsBad(ops, k);
      } else {
        SeenAreTraded(ops[..n]);
        assert Replay(ops).Err? <==> IsBad(ops, n);
      }
    }
  }

  // ---------------------------------------------------------------- the stable sort

  /** The rows with this text, in their order. */
  function WithText(ops: seq<Operation>, text: string): seq<Operation> {
    if ops == [] then []
    else WithText(ops[..|ops| - 1], text) + if ops[|ops| - 1].occurred == text then [ops[|ops| - 1]] else []
  }

  lemma WithTextOfMore(ops: seq<Operation>, op: Operation, text: string)
    ensures WithText(ops + [op], text) == WithText(ops, text) + if op.occurred == text then [op] else []
  {
    assert (ops + [op])[..|ops|] == ops;
  }

  lemma {:induction false} InsertIsStable(sorted: seq<Operation>, op: Operation, text: string)
    requires Ordered(sorted)
    ensures WithText(Insert(sorted, op), text) == WithText(sorted, text) + if op.occurred == text then [op] else []
  {
    WithTextOfMore(sorted, op, text);
    if sorted != [] && !Leq(sorted[|sorted| - 1].occurred, op.occurred) {
      var n := |sorted| - 1;
      InsertIsStable(sorted[..n], op, text);
      WithTextOfMore(Insert(sorted[..n], op), sorted[n], text);
      LeqIsReflexive(op.occurred);
    }
  }

  lemma {:induction false} LeqIsReflexive(a: string)
    ensures Leq(a, a)
  {
    if a != "" {
      LeqIsReflexive(a[1..]);
    }
  }

  /** Rows with the same text stay in the order of the report. */
  lemma {:induction false} SortIsStable(raw: seq<Operation>, text: string)
    ensures WithText(Lifecycle.Sorted(raw), text) == WithText(raw, text)
  {
    if raw != [] {
      SortedIsOrdered(raw[..|raw| - 1]);
      SortIsStable(raw[..|raw| - 1], text);
      InsertIsStable(Lifecycle.Sorted(raw[..|raw| - 1]), raw[|raw| - 1], text);
    }
  }
}
