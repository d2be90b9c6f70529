/**
 The stateful side of src/moex_bot/long_auto_once.py: the ledger class, the run and the stop-only
 recovery. A process may die after every durable step; the broker's answers are arbitrary. Every method
 keeps the ledger on a run of `OnceProtocol`, so its theorems hold for all of them.
 */
module OnceLedger {
  import opened Domain
  import opened OnceProtocol

  datatype Outcome = Refused | AlreadyClaimed | Unfilled | Protected | InQuarantine | Died

  predicate Final(r: OrderRecord) {
    r.status == Filled || r.status == Cancelled || r.status == Rejected
  }

  // ---------------------------------------------------------------- what surrounds a run

  /** The moments at which a process may die; those of polls and stop posts are counted. */
  datatype Moment =
    | AtPreflight | AtRow | AtAnchorFile | AtClaim | AtBuy | AtEntry | AtPoll(i: nat) | AtCancelPending | AtCancel
    | AtLastEntry | AtRecovery | AtStop(i: nat) | AtFenceFile(i: nat) | AtFence(i: nat) | AtVerify

  /**
   The deaths of the process and what the broker and its adapter do: the answer to the BUY, the lookups of
   the entry, whether a cancellation is posted and what is said after it, the lookup of a recovery, how often
   a stop post is asked for, and whether the stop is read back. `None` is an exception.
   */
  datatype Around = Around(
    deaths: set<Moment>, answer: Option<OrderRecord>, lookups: nat -> Option<OrderRecord>, cancels: bool,
    cancelled: Option<OrderRecord>, actual: Option<OrderRecord>, stopCalls: nat, verified: bool)

  /** The entry as the lookups leave it, from lookup `i` on: the first that is final or fails, or the last one. */
  function Polled(around: Around, polls: nat, i: nat): Option<OrderRecord>
    requires i <= polls
    decreases polls - i
  {
    var entry := around.lookups(i);
    if entry.None? || Final(entry.value) || i == polls then entry else Polled(around, polls, i + 1)
  }

  /** Polling left the entry open, and what is left of it is cancelled. */
  predicate LeftOpen(around: Around, polls: nat) {
    Polled(around, polls, 0).Some? && !Final(Polled(around, polls, 0).value)
  }

  /** The last answer about the entry. */
  function LastAnswer(around: Around, polls: nat): Option<OrderRecord> {
    if LeftOpen(around, polls) then around.cancelled else Polled(around, polls, 0)
  }

  /** One stop at most is asked for, and it is read back. */
  predicate IsCovered(around: Around) {
    around.stopCalls <= 1 && around.verified
  }

  /** The broker's answer to the BUY is the candidate's own order. */
  predicate IsAcknowledged(c: Candidate, around: Around) {
    around.answer.Some? && Matches(c, around.answer.value.intent)
  }

  /** How a recovery of this durable entry ends that does not die. */
  function EndOfRecovery(entry: OrderRecord, around: Around): Outcome {
    if around.actual == Some(entry.(statusDetail := "")) && IsCovered(around) then Protected else InQuarantine
  }

  /** How a run ends that claims the ledger and does not die. */
  function EndOfRun(c: Candidate, polls: nat, around: Around): Outcome {
    var last := LastAnswer(around, polls);
    if !IsAcknowledged(c, around) || last.None? then InQuarantine
    else if NotFilled(last.value) then Unfilled
    else if FilledOneLot(last.value) && IsCovered(around) then Protected
    else InQuarantine
  }

  predicate SameCalls(s: State, t: State) {
    t.buys == s.buys && t.cancels == s.cancels && t.stops == s.stops
  }

  /** Neither the files nor the transport calls changed. */
  predicate SameTransport(s: State, t: State) {
    SameCalls(s, t) && t.anchor == s.anchor && t.fence == s.fence
  }

  /**
   At most the first stop was posted, for the candidate, behind a fence that was absent before and now
   repeats the anchor. A fence that was there stays as it is, and then nothing was posted.
   */
  predicate PostedBehindFence(s: State, t: State, c: Candidate) {
    && t.buys == s.buys && t.cancels == s.cancels && t.anchor == s.anchor
    && (s.fence != Absent ==> t.fence == s.fence && t.stops == s.stops)
    && (t.stops == s.stops
        || (s.stops == [] && |t.stops| == 1 && t.stops[0].candidate == c && t.anchor.Written? && t.fence == t.anchor))
  }

  class Ledger {
    const account: string
    var db: Option<Attempt>
    var past: set<Option<Attempt>>
    var anchor: File
    var fence: File
    var pc: Pc
    var buys: seq<Candidate>
    var cancels: seq<Candidate>
    var stops: seq<Stop>
    ghost var steps: seq<Step>

    function Content(): State
      reads this
    {
      State(account, db, past, anchor, fence, pc, buys, cancels, stops)
    }

    ghost predicate Valid()
      reads this
    {
      Content() == After(Waiting(account), steps)
    }

    /** `init` */
    constructor (account: string)
      ensures Valid() && Content() == Waiting(account)
    {
      this.account := account;
      db, past, anchor, fence, pc := None, {None}, Absent, Absent, Free;
      buys, cancels, stops := [], [], [];
      steps := [];
    }

    method Store(next: State)
      requires next.account == account
      modifies this
      ensures Content() == next && steps == old(steps)
    {
      db, past, anchor, fence := next.db, next.past, next.anchor, next.fence;
      pc, buys, cancels, stops := next.pc, next.buys, next.cancels, next.stops;
    }

    /** One durable write or transport call. */
    method Take(step: Step)
      requires Valid() && Enabled(Content(), step)
      modifies this
      ensures Valid() && Content() == Next(old(Content()), step)
    {
      AccountStays(Content(), step);
      AfterOneMore(Waiting(account), steps, step);
      Store(Next(Content(), step));
      steps := steps + [step];
    }

    /** The process may die here, which frees the lock. */
    method MayDie(at: Moment, around: Around) returns (died: bool)
      requires Valid() && pc != Free
      modifies this
      ensures Valid() && died == (at in around.deaths)
      ensures Content() == if died then old(Content()).(pc := Free) else old(Content())
    {
      died := at in around.deaths;
      if died {
        Take(Die);
      }
    }

    method Quarantine() returns (outcome: Outcome)
      requires Valid() && Enabled(Content(), RecordQuarantined)
      modifies this
      ensures Valid() && pc == Free && outcome == InQuarantine
      ensures buys == old(buys) && cancels == old(cancels) && stops == old(stops)
      ensures anchor == old(anchor) && fence == old(fence)
      ensures db == Some(old(db).value.(progress := Quarantined)) && old(past) <= past
    {
      Take(RecordQuarantined);
      return InQuarantine;
    }

    /** `_check_anchor` */
    method CheckAnchor() returns (ok: bool)
      ensures ok == AnchorOk(Content())
    {
      if db.None? {
        return anchor == Absent;
      }
      var expected := Written(Mark(account, db.value.candidate));
      if anchor != expected {
        return false;
      }
      if fence != Absent {
        if fence != expected {
          return false;
        }
        var progress := db.value.progress;
        return progress == StopPending || progress == FilledProtected || progress == Quarantined;
      }
      return true;
    }

    /** `claim`: the row, then the anchor file, which must not exist. */
    method Claim(c: Candidate, around: Around) returns (claimed: bool)
      requires Valid() && pc == Preflighted(c)
      modifies this
      ensures Valid() && pc == (if claimed then Anchored(c) else Free) && (claimed ==> db.Some?)
      ensures !claimed ==> around.deaths != {}
      ensures SameCalls(old(Content()), Content())
    {
      // Under the lock nobody has inserted a row or created the anchor since the ledger was checked.
      EveryRunIsSafe(account, steps);
      Take(InsertRow);
      var died := MayDie(AtRow, around);
      if died {
        return false;
      }
      Take(OpenAnchor);
      died := MayDie(AtAnchorFile, around);
      if died {
        return false;
      }
      Take(WriteAnchor);
      died := MayDie(AtClaim, around);
      return !died;
    }

    /**
     `run_sandbox_candidate`. A run that claims the ledger and does not die ends as the answers of the broker
     and the adapter decide, with exactly the calls that go with them.
     */
    method Run(c: Candidate, polls: nat, around: Around) returns (outcome: Outcome)
      requires Valid() && pc == Free
      modifies this
      ensures Valid() && pc == Free
      ensures outcome == Refused <==> c.accountId != account || !(1 <= polls <= 30) || !AnchorOk(old(Content()))
      ensures outcome == AlreadyClaimed <==> outcome != Refused && old(db).Some?
      ensures outcome == Refused || outcome == AlreadyClaimed ==> Content() == old(Content())
      ensures outcome == Died ==> around.deaths != {}
      ensures outcome == Unfilled || outcome == Protected || outcome == InQuarantine ==>
                outcome == EndOfRun(c, polls, around) && RunLeaves(c, polls, around, outcome)
      ensures |buys| <= 1 && |cancels| <= 1 && |stops| <= 1
    {
      var ok := CheckAnchor();
      OneShot(account, steps);
      if c.accountId != account || !(1 <= polls <= 30) || !ok {
        return Refused;
      }
      if db.Some? {
        return AlreadyClaimed;
      }
      EveryRunIsSafe(account, steps);
      Take(StartRun(c));
      var died := MayDie(AtPreflight, around);
      var claimed := false;
      if !died {
        claimed := Claim(c, around);
      }
      outcome := Died;
      if claimed {
        outcome := Enter(c, polls, around);
      }
      OneShot(account, steps);
    }

    /** What a run that ended so leaves: the row, and what was posted. */
    predicate RunLeaves(c: Candidate, polls: nat, around: Around, outcome: Outcome)
      reads this
    {
      && buys == [c] && db.Some? && db.value.candidate == c
      && (outcome == Unfilled ==> db.value == Attempt(c, EntryNotFilled, LastAnswer(around, polls)) && stops == [])
      && (outcome == Protected ==> db.value == Attempt(c, FilledProtected, LastAnswer(around, polls)))
      && (outcome == InQuarantine ==> db.value.progress == Quarantined)
      && (IsAcknowledged(c, around) ==> cancels == if LeftOpen(around, polls) && around.cancels then [c] else [])
      && (IsAcknowledged(c, around) && LastAnswer(around, polls).Some? && FilledOneLot(LastAnswer(around, polls).value) ==>
            && Some(Attempt(c, StopPending, LastAnswer(around, polls))) in past
            && |stops| == if around.stopCalls == 0 then 0 else 1)
    }

    /** The entry of an anchored claim: submit, poll, cancel once, and go on to the stop. */
    method Enter(c: Candidate, polls: nat, around: Around) returns (outcome: Outcome)
      requires Valid() && pc == Anchored(c) && db.Some?
      modifies this
      ensures Valid() && pc == Free
      ensures outcome == Died ==> around.deaths != {}
      ensures outcome != Died ==> outcome == EndOfRun(c, polls, around) && RunLeaves(c, polls, around, outcome)
    {
      var ended := SubmitEntry(c, around);
      if ended.Some? {
        return ended.value;
      }
      ended := Poll(c, polls, around);
      if ended.Some? {
        return ended.value;
      }
      outcome := Conclude(c, LastAnswer(around, polls).value, around);
    }

    /** What the final entry leads to: nothing, a quarantine, or the stop. */
    method Conclude(c: Candidate, entry: OrderRecord, around: Around) returns (outcome: Outcome)
      requires Valid() && pc.Observed? && pc.c == c && pc.entry == entry && db.Some?
      modifies this
      ensures Valid() && pc == Free && buys == [c] && cancels == old(cancels)
      ensures outcome == Died ==> around.deaths != {} && FilledOneLot(entry)
      ensures NotFilled(entry) ==> outcome == Unfilled && db == Some(Attempt(c, EntryNotFilled, Some(entry)))
      ensures !NotFilled(entry) && !FilledOneLot(entry) ==> outcome == InQuarantine
      ensures outcome == InQuarantine ==> db.Some? && db.value.progress == Quarantined && db.value.candidate == c
      ensures !FilledOneLot(entry) ==> stops == []
      ensures FilledOneLot(entry) ==> Some(Attempt(c, StopPending, Some(entry))) in past
      ensures FilledOneLot(entry) && outcome != Died ==>
                && outcome == (if IsCovered(around) then Protected else InQuarantine)
                && |stops| == (if around.stopCalls == 0 then 0 else 1)
                && (outcome == Protected ==> db == Some(Attempt(c, FilledProtected, Some(entry))))
    {
      EveryRunIsSafe(account, steps);
      if NotFilled(entry) {
        Take(RecordNotFilled);
        return Unfilled;
      }
      if !FilledOneLot(entry) {
        outcome := Quarantine();
        return;
      }
      Take(RecordStopPending);
      outcome := Protect(c, around);
    }

    /** `submit` behind the guard, and the check of the acknowledged entry. */
    method SubmitEntry(c: Candidate, around: Around) returns (ended: Option<Outcome>)
      requires Valid() && pc == Anchored(c) && db.Some?
      modifies this
      ensures Valid() && (if ended.Some? then pc == Free else pc.Observed? && pc.c == c && !pc.cancelled && db.Some?)
      ensures ended.None? ==> IsAcknowledged(c, around)
      ensures ended.Some? ==> ended.value == Died || ended.value == InQuarantine
      ensures ended == Some(Died) ==> around.deaths != {}
      ensures ended == Some(InQuarantine) ==>
                && !IsAcknowledged(c, around) && buys == [c]
                && db.Some? && db.value.candidate == c && db.value.progress == Quarantined
    {
      EveryRunIsSafe(account, steps);
      var ok := CheckAnchor();
      assert ok && db.value.progress == Claimed;
      Take(SendBuy);
      var died := MayDie(AtBuy, around);
      if died {
        return Some(Died);
      }
      ended := Acknowledge(c, around);
    }

    /** The broker's answer to the BUY must be the candidate's own order. */
    method Acknowledge(c: Candidate, around: Around) returns (ended: Option<Outcome>)
      requires Valid() && pc == Bought(c) && db.Some?
      modifies this
      ensures Valid() && (if ended.Some? then pc == Free else pc.Observed? && pc.c == c && !pc.cancelled && db.Some?)
      ensures ended.None? ==> IsAcknowledged(c, around)
      ensures ended.Some? ==> ended.value == Died || ended.value == InQuarantine
      ensures ended == Some(Died) ==> around.deaths != {}
      ensures ended == Some(InQuarantine) ==>
                && !IsAcknowledged(c, around) && buys == [c]
                && db.Some? && db.value.candidate == c && db.value.progress == Quarantined
    {
      EveryRunIsSafe(account, steps);
      if !IsAcknowledged(c, around) {
        var outcome := Quarantine();
        return Some(outcome);
      }
      Take(RecordEntry(around.answer.value));
      var died := MayDie(AtEntry, around);
      return if died then Some(Died) else None;
    }

    /** Look the entry up until it is final or the polls are used up, then cancel what is left of it. */
    method Poll(c: Candidate, polls: nat, around: Around) returns (ended: Option<Outcome>)
      requires Valid() && pc.Observed? && pc.c == c && !pc.cancelled && db.Some?
      modifies this
      ensures Valid() && (ended.None? ==> IsAnswered(c, polls, around))
      ensures ended.Some? ==> ended.value == Died || ended.value == InQuarantine
      ensures ended == Some(Died) ==> pc == Free && around.deaths != {}
      ensures ended == Some(InQuarantine) ==> IsUnanswered(c, polls, around)
    {
      var entry := around.lookups(0);
      var i := 0;
      while i < polls && entry.Some?
        invariant i <= polls && entry == around.lookups(i) && Polled(around, polls, i) == Polled(around, polls, 0)
        invariant Valid() && pc.Observed? && pc.c == c && !pc.cancelled && db.Some?
      {
        Take(RecordEntry(entry.value));
        if Final(entry.value) {
          break;
        }
        var died := MayDie(AtPoll(i), around);
        if died {
          return Some(Died);
        }
        i := i + 1;
        entry := around.lookups(i);
      }
      assert entry == Polled(around, polls, 0);
      if LeftOpen(around, polls) {
        ended := CancelRest(c, entry.value, around);
        if ended.Some? {
          return;
        }
        entry := around.cancelled;
      } else {
        EveryRunIsSafe(account, steps);
      }
      ended := RecordLast(c, polls, around, entry);
    }

    /** The last answer about the entry is durable. */
    predicate IsAnswered(c: Candidate, polls: nat, around: Around)
      reads this
    {
      && LastAnswer(around, polls).Some? && pc.Observed? && pc.c == c && pc.entry == LastAnswer(around, polls).value
      && db.Some? && cancels == if LeftOpen(around, polls) && around.cancels then [c] else []
    }

    /** There was no last answer, and the run is quarantined. */
    predicate IsUnanswered(c: Candidate, polls: nat, around: Around)
      reads this
    {
      && LastAnswer(around, polls).None? && pc == Free && buys == [c]
      && db.Some? && db.value.candidate == c && db.value.progress == Quarantined
      && cancels == if LeftOpen(around, polls) && around.cancels then [c] else []
    }

    /** The last answer about the entry becomes durable; without one the run is quarantined. */
    method RecordLast(c: Candidate, polls: nat, around: Around, last: Option<OrderRecord>) returns (ended: Option<Outcome>)
      requires Valid() && (pc.Observed? || pc.Cancelling? || pc.CancelSent?) && pc.c == c && db.Some?
      requires last == LastAnswer(around, polls) && cancels == if LeftOpen(around, polls) && around.cancels then [c] else []
      modifies this
      ensures Valid() && (ended.None? ==> IsAnswered(c, polls, around))
      ensures ended.Some? ==> ended.value == Died || ended.value == InQuarantine
      ensures ended == Some(Died) ==> pc == Free && around.deaths != {}
      ensures ended == Some(InQuarantine) ==> IsUnanswered(c, polls, around)
    {
      EveryRunIsSafe(account, steps);
      if last.None? {
        var outcome := Quarantine();
        return Some(outcome);
      }
      Take(RecordEntry(last.value));
      var died := MayDie(AtLastEntry, around);
      return if died then Some(Died) else None;
    }

    /** `cancel_unfilled_verified` after the durable intention: at most one guarded cancellation. */
    method CancelRest(c: Candidate, entry: OrderRecord, around: Around) returns (ended: Option<Outcome>)
      requires Valid() && pc.Observed? && pc.c == c && !pc.cancelled && db.Some?
      modifies this
      ensures Valid() && (ended.Some? ==> ended.value == Died && pc == Free && around.deaths != {})
      ensures ended.None? ==>
                && (pc.Cancelling? || pc.CancelSent?) && pc.c == c && db.Some?
                && cancels == if around.cancels then [c] else []
    {
      Take(RecordCancelPending(entry));
      EveryRunIsSafe(account, steps);
      var died := MayDie(AtCancelPending, around);
      if died {
        return Some(Died);
      }
      if around.cancels {
        var ok := CheckAnchor();
        assert ok && db.value.progress == CancelPending;
        Take(SendCancel);
        died := MayDie(AtCancel, around);
        if died {
          return Some(Died);
        }
      }
      return None;
    }

    /**
     `protect` and `verify_protection`: however often the adapter asks, one post at most gets past the
     guard, behind a fence that was not there before; with a fence in place nothing is posted.
     */
    method Protect(c: Candidate, around: Around) returns (outcome: Outcome)
      requires Valid() && pc.Stopping? && pc.c == c && db.Some?
      modifies this
      ensures Valid() && pc == Free && PostedBehindFence(old(Content()), Content(), c)
      ensures old(past) <= past
      ensures outcome == Died || outcome == Protected || outcome == InQuarantine
      ensures outcome == Died ==> around.deaths != {}
      ensures outcome == Protected ==> db == Some(Attempt(old(db).value.candidate, FilledProtected, Some(old(pc).entry)))
      ensures outcome == InQuarantine ==> db == Some(old(db).value.(progress := Quarantined))
      ensures outcome != Died && old(fence) == Absent ==>
                && outcome == (if IsCovered(around) then Protected else InQuarantine)
                && |stops| == (if around.stopCalls == 0 then 0 else 1)
    {
      EveryRunIsSafe(account, steps);
      for i := 0 to around.stopCalls
        invariant Valid() && pc == old(pc) && db == old(db) && old(past) <= past
        invariant PostedBehindFence(old(Content()), Content(), c)
        invariant i == 0 ==> fence == old(fence) && stops == old(stops)
        invariant i > 0 ==> i == 1 && old(fence) == Absent && fence != Absent && |stops| == 1
      {
        var ended := PostOnce(c, i, around);
        if ended.Some? {
          return ended.value;
        }
      }
      outcome := Verify(around);
    }

    /** The readback of the stop, and the last write. */
    method Verify(around: Around) returns (outcome: Outcome)
      requires Valid() && pc.Stopping? && db.Some?
      modifies this
      ensures Valid() && pc == Free && SameTransport(old(Content()), Content()) && old(past) <= past
      ensures outcome == Died ==> around.deaths != {}
      ensures outcome != Died ==> outcome == if around.verified then Protected else InQuarantine
      ensures outcome == Protected ==> db == Some(Attempt(old(db).value.candidate, FilledProtected, Some(old(pc).entry)))
      ensures outcome == InQuarantine ==> db == Some(old(db).value.(progress := Quarantined))
    {
      EveryRunIsSafe(account, steps);
      var died := MayDie(AtVerify, around);
      if died {
        return Died;
      }
      if !around.verified {
        outcome := Quarantine();
        return;
      }
      Take(RecordProtected);
      return Protected;
    }

    /** One guarded post of the stop, or how the attempt ended. */
    method PostOnce(c: Candidate, i: nat, around: Around) returns (ended: Option<Outcome>)
      requires Valid() && pc.Stopping? && pc.c == c && db.Some?
      modifies this
      ensures Valid() && PostedBehindFence(old(Content()), Content(), c) && old(past) <= past
      ensures ended.None? ==> && pc == old(pc) && db == old(db) && old(fence) == Absent && fence != Absent
                              && |stops| == 1
      ensures ended.Some? ==> pc == Free && stops == old(stops) && (ended.value == InQuarantine || ended.value == Died)
      ensures ended == Some(Died) ==> around.deaths != {}
      ensures ended == Some(InQuarantine) ==> old(fence) != Absent && db == Some(old(db).value.(progress := Quarantined))
    {
      EveryRunIsSafe(account, steps);
      var died := MayDie(AtStop(i), around);
      if died {
        return Some(Died);
      }
      var ok := CheckAnchor();
      if !ok || fence != Absent {
        var outcome := Quarantine();
        return Some(outcome);
      }
      died := PassFence(c, i, around);
      return if died then Some(Died) else None;
    }

    /** The fence is created and written, then the stop is posted; the process may die before each. */
    method PassFence(c: Candidate, i: nat, around: Around) returns (died: bool)
      requires Valid() && pc.Stopping? && pc.c == c && db.Some? && AnchorOk(Content()) && fence == Absent
      modifies this
      ensures Valid() && PostedBehindFence(old(Content()), Content(), c) && past == old(past)
      ensures if died then pc == Free && stops == old(stops) && around.deaths != {}
              else pc == old(pc) && db == old(db) && fence != Absent && |stops| == 1
    {
      EveryRunIsSafe(account, steps);
      Take(OpenFence);
      died := MayDie(AtFenceFile(i), around);
      if died {
        return;
      }
      Take(WriteFence);
      died := MayDie(AtFence(i), around);
      if died {
        return;
      }
      Take(SendStop);
    }

    /** `recover_sandbox_protection` */
    method Recover(c: Candidate, around: Around) returns (outcome: Outcome)
      requires Valid() && pc == Free
      modifies this
      ensures Valid() && pc == Free
      ensures buys == old(buys) && cancels == old(cancels) && |stops| <= 1
      ensures outcome == Refused <==> !Recoverable(old(Content()), c)
      ensures outcome == Refused ==> Content() == old(Content())
      ensures outcome == Died ==> around.deaths != {}
      ensures outcome != Refused && outcome != Died ==> outcome == EndOfRecovery(old(db).value.record.value, around)
      ensures outcome == Protected ==>
                && db == Some(Attempt(c, FilledProtected, Some(old(db).value.record.value.(statusDetail := ""))))
                && |stops| == if around.stopCalls == 0 then 0 else 1
      ensures outcome == InQuarantine ==> db == Some(old(db).value.(progress := Quarantined))
    {
      OneShot(account, steps);
      var ok := CheckAnchor();
      if c.accountId != account || !ok || db.None? {
        return Refused;
      }
      var row := db.value;
      if row.candidate != c || row.progress != EntryObserved || row.record.None? {
        return Refused;
      }
      if !FilledOneLot(row.record.value) || !Matches(c, row.record.value.intent) {
        return Refused;
      }
      Take(StartRecovery(c));
      outcome := Resume(c, row.record.value, around);
    }

    /** The recovery of a durable entry goes on to the stop if the broker still tells the same. */
    method Resume(c: Candidate, entry: OrderRecord, around: Around) returns (outcome: Outcome)
      requires Valid() && pc == Stopping(c, entry.(statusDetail := "")) && db.Some? && fence == Absent
      modifies this
      ensures Valid() && pc == Free && buys == old(buys) && cancels == old(cancels) && |stops| <= 1
      ensures outcome == Died ==> around.deaths != {}
      ensures outcome != Died ==> outcome == EndOfRecovery(entry, around)
      ensures outcome == Protected ==>
                && db == Some(Attempt(old(db).value.candidate, FilledProtected, Some(entry.(statusDetail := ""))))
                && |stops| == if around.stopCalls == 0 then 0 else 1
      ensures outcome == InQuarantine ==> db == Some(old(db).value.(progress := Quarantined))
    {
      OneShot(account, steps);
      var died := MayDie(AtRecovery, around);
      if died {
        return Died;
      }
      if around.actual != Some(entry.(statusDetail := "")) {
        outcome := Quarantine();
        return;
      }
      outcome := Protect(c, around);
      OneShot(account, steps);
    }

    /** An operator puts an earlier database back while nobody holds the lock. */
    method RestoreDatabase(backup: Option<Attempt>)
      requires Valid() && pc == Free && backup in past
      modifies this
      ensures Valid() && Content() == old(Content()).(db := backup)
    {
      Take(Restore(backup));
    }
  }
}
