/**
 The position lifecycle of `executed_entries` (src/moex_bot/intraday.py): cost basis and first fill of
 today's open positions, rebuilt from executed broker operations.
 */
module Lifecycle {
  import opened Domain
  import opened Texts

  /**
   A row of the broker's report. `trade` is empty for rows that are neither BUY nor SELL, and `at` is the
   instant that the text `occurred` names, if it names one with a time zone.
   */
  datatype Operation = Operation(
    id: string, secid: string, trade: Option<Side>, quantity: int, gross: real, occurred: string, at: Option<int>)

  datatype Entry = Entry(first: int, side: Side, basis: real, units: int)

  datatype State = State(entries: map<string, Entry>, seen: set<string>)

  predicate Counts(op: Operation) {
    op.trade.Some? && op.secid != ""
  }

  predicate Valid(op: Operation) {
    op.quantity > 0 && op.gross > 0.0 && op.at.Some?
  }

  function Price(op: Operation): real
    requires op.quantity > 0
  {
    op.gross / op.quantity as real
  }

  function Delta(op: Operation): int
    requires op.trade.Some?
  {
    Signed(op.trade.value, op.quantity)
  }

  /** The average of the basis and a further fill in the same direction. */
  function Average(basis: real, units: int, op: Operation): real
    requires Counts(op) && op.quantity > 0 && units + Delta(op) != 0
  {
    (basis * AbsInt(units) as real + Price(op) * op.quantity as real) / AbsInt(units + Delta(op)) as real
  }

  /** The entry of a security after one more fill. */
  function Extended(previous: Option<Entry>, op: Operation): Option<Entry>
    requires Counts(op) && Valid(op)
  {
    var delta := Delta(op);
    if previous.None? then Some(Entry(op.at.value, op.trade.value, Price(op), delta))
    else
      var e := previous.value;
      var remaining := e.units + delta;
      if remaining == 0 then None
      else if e.units * delta > 0 then Some(Entry(e.first, e.side, Average(e.basis, e.units, op), remaining))
      else if e.units * remaining > 0 then Some(Entry(e.first, e.side, e.basis, remaining))
      else Some(Entry(op.at.value, op.trade.value, Price(op), remaining))
  }

  function EntryOf(s: State, secid: string): Option<Entry> {
    if secid in s.entries then Some(s.entries[secid]) else None
  }

  /** One row of the report: other rows and repeated operations change nothing. */
  function Apply(s: State, op: Operation): Result<State> {
    if !Counts(op) || op.id in s.seen then Ok(s)
    else if !Valid(op) then Err("invalid fill quantity/price/time")
    else
      var seen := s.seen + {op.id};
      var next := Extended(EntryOf(s, op.secid), op);
      Ok(if next.None? then State(s.entries - {op.secid}, seen) else State(s.entries[op.secid := next.value], seen))
  }

  function Replay(ops: seq<Operation>): Result<State> {
    if ops == [] then Ok(State(map[], {}))
    else
      var before := Replay(ops[..|ops| - 1]);
      if before.Err? then before else Apply(before.value, ops[|ops| - 1])
  }

  // ---------------------------------------------------------------- the stable sort

  /** Behind everything whose text is not greater. */
  function Insert(sorted: seq<Operation>, op: Operation): seq<Operation> {
    if sorted == [] || Leq(sorted[|sorted| - 1].occurred, op.occurred) then sorted + [op]
    else Insert(sorted[..|sorted| - 1], op) + [sorted[|sorted| - 1]]
  }

  /** `sorted(raw, key=lambda row: str(row["occurred_at"]))` */
  function Sorted(raw: seq<Operation>): seq<Operation> {
    if raw == [] then [] else Insert(Sorted(raw[..|raw| - 1]), raw[|raw| - 1])
  }

  ghost predicate Ordered(ops: seq<Operation>) {
    forall i, j :: 0 <= i < j < |ops| ==> Leq(ops[i].occurred, ops[j].occurred)
  }

  lemma {:induction false} InsertSplits(sorted: seq<Operation>, op: Operation) returns (k: nat)
    requires Ordered(sorted)
    ensures k <= |sorted| && Insert(sorted, op) == sorted[..k] + [op] + sorted[k..]
    ensures forall i :: 0 <= i < k ==> Leq(sorted[i].occurred, op.occurred)
    ensures forall i :: k <= i < |sorted| ==> Leq(op.occurred, sorted[i].occurred) && op.occurred != sorted[i].occurred
  {
    if sorted == [] || Leq(sorted[|sorted| - 1].occurred, op.occurred) {
      k := |sorted|;
      assert sorted[..k] == sorted && sorted[..k] + [op] + sorted[k..] == sorted + [op];
      forall i | 0 <= i < k ensures Leq(sorted[i].occurred, op.occurred) {
        if i < k - 1 {
          LeqIsTransitive(sorted[i].occurred, sorted[k - 1].occurred, op.occurred);
        }
      }
    } else {
      var n := |sorted| - 1;
      LeqIsTotal(sorted[n].occurred, op.occurred);
      k := InsertSplits(sorted[..n], op);
      assert sorted[..n][..k] == sorted[..k];
      assert sorted[..n][k..] + [sorted[n]] == sorted[k..];
      assert sorted[..k] + [op] + sorted[..n][k..] + [sorted[n]] == sorted[..k] + [op] + (sorted[..n][k..] + [sorted[n]]);
    }
  }

  lemma {:induction false} InsertKeepsRows(sorted: seq<Operation>, op: Operation)
    ensures multiset(Insert(sorted, op)) == multiset(sorted) + multiset{op}
  {
    if sorted != [] && !Leq(sorted[|sorted| - 1].occurred, op.occurred) {
      var n := |sorted| - 1;
      InsertKeepsRows(sorted[..n], op);
      assert sorted == sorted[..n] + [sorted[n]];
    }
  }

  lemma InsertKeepsOrder(sorted: seq<Operation>, op: Operation)
    requires Ordered(sorted)
    ensures Ordered(Insert(sorted, op))
  {
    var k := InsertSplits(sorted, op);
    var next := sorted[..k] + [op] + sorted[k..];
    forall i, j | 0 <= i < j < |next| ensures Leq(next[i].occurred, next[j].occurred) {
      assert next[i] == if i < k then sorted[i] else if i == k then op else sorted[i - 1];
      assert next[j] == if j < k then sorted[j] else if j == k then op else sorted[j - 1];
    }
  }

  /** The sort is a permutation in the order of the texts. */
  lemma {:induction false} SortedIsOrdered(raw: seq<Operation>)
    ensures Ordered(Sorted(raw)) && multiset(Sorted(raw)) == multiset(raw)
  {
    if raw != [] {
      var n := |raw| - 1;
      SortedIsOrdered(raw[..n]);
      InsertKeepsOrder(Sorted(raw[..n]), raw[n]);
      InsertKeepsRows(Sorted(raw[..n]), raw[n]);
      assert raw == raw[..n] + [raw[n]];
    }
  }

  /** `executed_entries` */
  method ExecutedEntries(raw: seq<Operation>) returns (r: Result<map<string, Entry>>)
    ensures r.Ok? <==> Replay(Sorted(raw)).Ok?
    ensures r.Ok? ==> r.value == Replay(Sorted(raw)).value.entries
  {
    var ops := Sorted(raw);
    var result: map<string, Entry> := map[];
    var seen: set<string> := {};
    for k := 0 to |ops|
      invariant Replay(ops[..k]) == Ok(State(result, seen))
    {
      assert ops[..k + 1][..k] == ops[..k];
      var op := ops[k];
      if Counts(op) && op.id !in seen {
        if !Valid(op) {
          ErrorStays(ops, k + 1);
          return Err("invalid fill quantity/price/time");
        }
        seen := seen + {op.id};
        var delta := Delta(op);
        if op.secid !in result {
          result := result[op.secid := Entry(op.at.value, op.trade.value, Price(op), delta)];
        } else {
          var e := result[op.secid];
          var remaining := e.units + delta;
          if remaining == 0 {
            result := result - {op.secid};
          } else if e.units * delta > 0 {
            result := result[op.secid := Entry(e.first, e.side, Average(e.basis, e.units, op), remaining)];
          } else if e.units * remaining > 0 {
            result := result[op.secid := Entry(e.first, e.side, e.basis, remaining)];
          } else {
            result := result[op.secid := Entry(op.at.value, op.trade.value, Price(op), remaining)];
          }
        }
      }
    }
    assert ops[..|ops|] == ops;
    return Ok(result);
  }

  lemma {:induction false} ErrorStays(ops: seq<Operation>, k: nat)
    requires k <= |ops| && Replay(ops[..k]).Err?
    ensures Replay(ops).Err?
    decreases |ops| - k
  {
    if k == |ops| {
      assert ops[..k] == ops;
    } else {
      assert ops[..k + 1][..k] == ops[..k];
      ErrorStays(ops, k + 1);
    }
  }
}
