/**
 Planning runs of src/moex_bot/intraday.py that overlap on one signal store. Each counts the entries of
 the day once, before its loop, so runs that start together may each use the whole daily limit: the store
 can hold as many times the limit as runs overlap, and no more.
 */
module IntradayOverlap {
  import opened Domain
  import opened Sums
  import opened IntradayBudget
  import opened IntradayTheorems

  /** A run between two iterations of its loop. */
  datatype Running = Running(
    account: Account, config: Config, left: seq<Signal>, slots: int, positionSlots: int, capital: real)

  datatype Shared = Shared(stored: set<Key>, active: seq<Running>)

  datatype Event =
    | Begin(account: Account, config: Config, signals: seq<Signal>)
    | Advance(k: nat)
    | End(k: nat)

  /** At most `runs` overlap, with entry limits of at most `limit`; a run may end anywhere. */
  ghost predicate Possible(s: Shared, e: Event, runs: nat, limit: nat) {
    match e
    case Begin(account, config, signals) =>
      |s.active| < runs && OfDay(signals, account.day) && config.maxEntriesPerDay <= limit
    case Advance(k) => k < |s.active| && s.active[k].left != []
    case End(k) => k < |s.active|
  }

  function Without(active: seq<Running>, k: nat): seq<Running>
    requires k < |active|
  {
    active[..k] + active[k + 1..]
  }

  function PlanOf(stored: set<Key>, run: Running): Plan {
    Plan(stored, run.slots, run.positionSlots, run.capital, [])
  }

  /** One signal of one run: the loop's own variables and the shared store move. */
  function Advanced(s: Shared, k: nat, id: Signal -> string): Shared
    requires k < |s.active| && s.active[k].left != []
  {
    var run := s.active[k];
    match PlanOne(PlanOf(s.stored, run), run.account, run.config, run.left[0], id)
    case Err(_) => s.(active := Without(s.active, k))
    case Ok(next) =>
      Shared(next.stored, s.active[k := run.(left := run.left[1..], slots := next.slots,
                                             positionSlots := next.positionSlots, capital := next.capital)])
  }

  ghost function Begun(stored: set<Key>, account: Account, config: Config, signals: seq<Signal>): Running {
    var opening := Opening(stored, account, config, Total(Exposures(account)));
    Running(account, config, signals, opening.slots, opening.positionSlots, opening.capital)
  }

  ghost function After(s: Shared, e: Event, id: Signal -> string, runs: nat, limit: nat): Shared
    requires Possible(s, e, runs, limit)
  {
    match e
    case Begin(account, config, signals) =>
      if Unpriced(account) then s else s.(active := s.active + [Begun(s.stored, account, config, signals)])
    case Advance(k) => Advanced(s, k, id)
    case End(k) => s.(active := Without(s.active, k))
  }

  /** The entries that the running plans of a day may still store. */
  function Pending(active: seq<Running>, day: int): int {
    if active == [] then 0
    else
      var last := active[|active| - 1];
      Pending(active[..|active| - 1], day) + if last.account.day == day then last.slots else 0
  }

  ghost predicate RunsFit(active: seq<Running>, limit: nat) {
    forall i :: 0 <= i < |active| ==>
                  && 0 <= active[i].slots <= limit && 0 <= active[i].positionSlots
                  && OfDay(active[i].left, active[i].account.day)
  }

  function Times(runs: nat, limit: nat): nat {
    runs * limit
  }

  /** What is stored and what may still be stored on a day. */
  ghost predicate Bounded(s: Shared, day: int, runs: nat, limit: nat) {
    && |s.active| <= runs && RunsFit(s.active, limit)
    && |OnDay(s.stored, day)| + Pending(s.active, day) <= Times(runs, limit)
  }

  lemma OneRunMore(runs: nat, limit: nat)
    ensures Times(runs + 1, limit) == Times(runs, limit) + limit
  {
  }

  lemma {:induction false} MoreRunsHoldMore(a: nat, b: nat, limit: nat)
    requires a <= b
    ensures Times(a, limit) <= Times(b, limit)
  {
    if a < b {
      MoreRunsHoldMore(a, b - 1, limit);
      OneRunMore(b - 1, limit);
    }
  }

  lemma {:induction false} PendingIsBounded(active: seq<Running>, day: int, limit: nat)
    requires RunsFit(active, limit)
    ensures 0 <= Pending(active, day) <= Times(|active|, limit)
  {
    if active != [] {
      PendingIsBounded(active[..|active| - 1], day, limit);
      OneRunMore(|active| - 1, limit);
    }
  }

  lemma {:induction false} PendingUpdate(active: seq<Running>, k: nat, run: Running, day: int)
    requires k < |active| && run.account == active[k].account
    ensures Pending(active[k := run], day) ==
            Pending(active, day) + if run.account.day == day then run.slots - active[k].slots else 0
  {
    var n := |active| - 1;
    if k < n {
      PendingUpdate(active[..n], k, run, day);
      assert active[k := run][..n] == active[..n][k := run];
    } else {
      assert active[k := run][..n] == active[..n];
    }
  }

  lemma {:induction false} PendingWithout(active: seq<Running>, k: nat, day: int)
    requires k < |active|
    ensures Pending(Without(active, k), day) ==
            Pending(active, day) - if active[k].account.day == day then active[k].slots else 0
  {
    var n := |active| - 1;
    if k < n {
      PendingWithout(active[..n], k, day);
      assert Without(active, k)[..n - 1] == Without(active[..n], k);
    } else {
      assert Without(active, k) == active[..n];
    }
  }

  /** A run that begins sees what is stored, so what it may add ends at the limit. */
  lemma BeginKeepsBounded(s: Shared, e: Event, id: Signal -> string, day: int, runs: nat, limit: nat)
    requires Bounded(s, day, runs, limit) && e.Begin? && Possible(s, e, runs, limit)
    ensures Bounded(After(s, e, id, runs, limit), day, runs, limit)
  {
    var run := Begun(s.stored, e.account, e.config, e.signals);
    assert (s.active + [run])[..|s.active|] == s.active;
    PendingIsBounded(s.active, day, limit);
    MoreRunsHoldMore(|s.active| + 1, runs, limit);
    OneRunMore(|s.active|, limit);
  }

  lemma AdvanceKeepsBounded(s: Shared, k: nat, id: Signal -> string, day: int, runs: nat, limit: nat)
    requires Bounded(s, day, runs, limit) && k < |s.active| && s.active[k].left != []
    ensures Bounded(Advanced(s, k, id), day, runs, limit)
  {
    var run := s.active[k];
    var planned := PlanOne(PlanOf(s.stored, run), run.account, run.config, run.left[0], id);
    if planned.Err? {
      PendingWithout(s.active, k, day);
    } else {
      PendingUpdate(s.active, k, Advanced(s, k, id).active[k], day);
      if planned.value != PlanOf(s.stored, run) {
        StoredOnceMore(s.stored, KeyOf(run.left[0]), run.account.day);
      }
    }
  }

  lemma AfterKeepsBounded(s: Shared, e: Event, id: Signal -> string, day: int, runs: nat, limit: nat)
    requires Bounded(s, day, runs, limit) && Possible(s, e, runs, limit)
    ensures Bounded(After(s, e, id, runs, limit), day, runs, limit)
  {
    match e
    case Begin(_, _, _) => BeginKeepsBounded(s, e, id, day, runs, limit);
    case Advance(k) => AdvanceKeepsBounded(s, k, id, day, runs, limit);
    case End(k) => PendingWithout(s.active, k, day);
  }

  /** The store reached through these events, from an empty one. */
  ghost predicate Reaches(events: seq<Event>, id: Signal -> string, runs: nat, limit: nat, s: Shared) {
    if events == [] then s == Shared({}, [])
    else
      var n := |events| - 1;
      exists before :: Reaches(events[..n], id, runs, limit, before) && Possible(before, events[n], runs, limit)
                       && s == After(before, events[n], id, runs, limit)
  }

  lemma {:induction false} EveryOverlapIsBounded(events: seq<Event>, id: Signal -> string, runs: nat, limit: nat, s: Shared,
                                                 day: int)
    requires Reaches(events, id, runs, limit, s)
    ensures Bounded(s, day, runs, limit)
  {
    if events == [] {
      assert OnDay({}, day) == {};
    } else {
      var n := |events| - 1;
      var before :| Reaches(events[..n], id, runs, limit, before) && Possible(before, events[n], runs, limit)
                    && s == After(before, events[n], id, runs, limit);
      EveryOverlapIsBounded(events[..n], id, runs, limit, before, day);
      AfterKeepsBounded(before, events[n], id, day, runs, limit);
    }
  }

  /** With at most `runs` planning runs at a time a day never stores more than that many times the entry limit. */
  lemma OverlappingEntryLimit(events: seq<Event>, id: Signal -> string, runs: nat, limit: nat, s: Shared, day: int)
    requires Reaches(events, id, runs, limit, s)
    ensures |OnDay(s.stored, day)| <= runs * limit
  {
    EveryOverlapIsBounded(events, id, runs, limit, s, day);
    PendingIsBounded(s.active, day, limit);
  }
}
