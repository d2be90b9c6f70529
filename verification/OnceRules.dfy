/**
 What a one-shot run comes to, from the broker's answers to its outcome, and when a ledger is accepted: one
 that was never restored is refused only while one of its files is missing or torn.
 */
module OnceRules {
  import opened Domain
  import opened OnceProtocol
  import opened OnceLedger

  // ---------------------------------------------------------------- the answers of the broker

  /** The broker will not change this order any more. */
  predicate IsOver(r: OrderRecord) {
    r.status in {Filled, Cancelled, Rejected}
  }

  /** The lookups up to the `n`-th found the order open, and that one failed, found it over, or was the last. */
  predicate EndsAt(around: Around, polls: nat, n: nat) {
    && n <= polls
    && (forall j: nat :: j < n ==> around.lookups(j).Some? && !IsOver(around.lookups(j).value))
    && (around.lookups(n).None? || IsOver(around.lookups(n).value) || n == polls)
  }

  lemma {:induction false} PolledEndsAt(around: Around, polls: nat, i: nat) returns (n: nat)
    requires i <= polls && forall j: nat :: j < i ==> around.lookups(j).Some? && !IsOver(around.lookups(j).value)
    ensures EndsAt(around, polls, n) && Polled(around, polls, i) == around.lookups(n)
    decreases polls - i
  {
    n := i;
    if around.lookups(i).Some? && !IsOver(around.lookups(i).value) && i < polls {
      n := PolledEndsAt(around, polls, i + 1);
    }
  }

  /** The last answer about an entry: that of the lookup at which polling ends, or after a cancellation what is said then. */
  lemma LastAnswerMeans(around: Around, polls: nat) returns (n: nat)
    ensures EndsAt(around, polls, n)
    ensures var entry := around.lookups(n);
            && LastAnswer(around, polls) == (if entry.Some? && !IsOver(entry.value) then around.cancelled else entry)
            && (LeftOpen(around, polls) <==> entry.Some? && !IsOver(entry.value))
  {
    n := PolledEndsAt(around, polls, 0);
  }

  /** The order that a candidate is entered with: a BUY of one lot of its instrument at its price, under its id. */
  predicate IsEntryOf(c: Candidate, o: OrderIntent) {
    && o.orderRequestId == c.orderRequestId && o.instrument == c.instrument && o.side == Buy && o.lots == 1
    && o.limitPrice == c.limitPrice
  }

  /** Polling and at most one cancellation led to this last answer about an acknowledged entry. */
  predicate LedTo(c: Candidate, polls: nat, around: Around, last: OrderRecord) {
    && around.answer.Some? && IsEntryOf(c, around.answer.value.intent)
    && LastAnswer(around, polls) == Some(last)
  }

  /** Each end of a run that does not die, and exactly what it takes. */
  lemma EndOfRunIff(c: Candidate, polls: nat, around: Around)
    ensures EndOfRun(c, polls, around) == Protected <==>
            exists last :: LedTo(c, polls, around, last) && last.status == Filled && last.filledLots == 1
                           && around.stopCalls <= 1 && around.verified
    ensures EndOfRun(c, polls, around) == Unfilled <==>
            exists last :: LedTo(c, polls, around, last) && last.status in {Cancelled, Rejected} && last.filledLots == 0
    ensures EndOfRun(c, polls, around) in {Protected, Unfilled, InQuarantine}
  {
    if LastAnswer(around, polls).Some? {
      var last := LastAnswer(around, polls).value;
      assert LedTo(c, polls, around, last) <==> IsAcknowledged(c, around);
    }
  }

  /** A recovery goes on to the stop exactly for an unchanged one-lot entry that this candidate filled. */
  lemma RecoverableIff(s: State, c: Candidate)
    ensures Recoverable(s, c) <==>
            && AnchorOk(s) && s.account == c.accountId
            && exists r :: s.db == Some(Attempt(c, EntryObserved, Some(r)))
                           && r.status == Filled && r.filledLots == 1 && IsEntryOf(c, r.intent)
  {
    if Recoverable(s, c) {
      assert s.db == Some(Attempt(c, EntryObserved, Some(s.db.value.record.value)));
    }
  }

  lemma EndOfRecoveryIff(entry: OrderRecord, around: Around)
    ensures EndOfRecovery(entry, around) in {Protected, InQuarantine}
    ensures EndOfRecovery(entry, around) == Protected <==>
            && around.actual == Some(OrderRecord(entry.intent, entry.status, entry.filledLots, entry.brokerOrderId, ""))
            && around.stopCalls <= 1 && around.verified
  {
  }

  // ---------------------------------------------------------------- when a ledger is accepted

  /** No database was put back. */
  predicate NeverRestored(steps: seq<Step>) {
    forall k :: 0 <= k < |steps| ==> !steps[k].Restore?
  }

  /** In a ledger that was never restored the row is ahead of the files, and agrees with what they say. */
  ghost predicate FilesFollow(s: State) {
    && (s.db.None? ==> s.anchor == Absent && s.fence == Absent)
    && (s.anchor.Written? ==> s.db.Some? && s.anchor == Written(Mark(s.account, s.db.value.candidate)))
    && (s.fence.Written? ==> s.fence == s.anchor)
    && (s.fence != Absent ==> s.anchor.Written? && s.db.value.progress in {StopPending, FilledProtected, Quarantined})
  }

  lemma NextFollows(s: State, step: Step)
    requires Inv(s) && FilesFollow(s) && !step.Restore?
    ensures FilesFollow(Next(s, step))
  {
  }

  lemma {:induction false} UnrestoredFollows(account: string, steps: seq<Step>)
    requires NeverRestored(steps)
    ensures FilesFollow(After(Waiting(account), steps))
  {
    if steps != [] {
      var n := |steps| - 1;
      UnrestoredFollows(account, steps[..n]);
      EveryRunIsSafe(account, steps[..n]);
      NextFollows(After(Waiting(account), steps[..n]), steps[n]);
    }
  }

  /**
   A ledger that was never restored is accepted exactly if its claim has its anchor and the fence, if there is
   one, was written: it is refused only after a death between the creation of a file and its content.
   */
  lemma UnrestoredIsAcceptedIff(account: string, steps: seq<Step>)
    requires NeverRestored(steps)
    ensures var s := After(Waiting(account), steps);
            AnchorOk(s) <==> (s.db.Some? ==> s.anchor.Written?) && s.fence != Torn
  {
    UnrestoredFollows(account, steps);
  }
}
