# Verified model of the MOEX trading bot

This Dafny 4.11 project models the stateful algorithms that the trading bot's guarantees rest on and
proves what they keep. `dafny verify dfyconfig.toml` checks everything.

## What is modelled

- **DAY-limit matcher and backtest** (`Matcher`, `MatcherTheorems`, `MatcherCausality`, `MatcherLimits`,
  `MatcherRules`, `MatcherLoop`, `Backtest`, `BacktestRules`, `Drawdown`): the event loop that mutates cash,
  positions, window budgets and order counts, and the day loop around it. No lookahead, conservation, volume
  budgets, completeness of fills, solvency, and the attribution identity.
- **Execution journal and sandbox driver** (`Journal`, `JournalTheorems`, `JournalRules`, `JournalStore`,
  `SandboxProtocol`, `SandboxFlat`, `SandboxGuard`, `SandboxStale`, `SandboxDriver`, `SandboxRules`,
  `SandboxExecution`): reservations, observations, crashes, re-runs and reconciliations interleaved with a broker
  that fills and closes orders when it likes.
- **Production canary** (`LiveLedger`, `LiveRules`, `LiveBudget`, `LiveRisk`, `LiveExecution`): ownership ledger,
  authorization and daily budgets on top of the same journal.
- **One-shot entries and stops** (`OnceProtocol`, `OnceRules`, `OnceLedger`, `ProtectionProtocol`,
  `ProtectionRules`, `ProtectionStore`, `ClaimFences`): databases that can be restored, files that are created
  exclusively and stay, deaths between any two durable writes, and concurrent processes.
- **Risk gate, projection and rebalancing** (`RiskGate`, `RiskRules`, `Harness`, `HarnessTheorems`,
  `HarnessExposure`, `Rebalance`, `RebalanceRules`, `RebalanceConverges`, `RebalanceCash`, `RebalanceGate`): caps
  over a whole plan, trackers against recomputation, convergence, and rounds that do not overspend.
- **Intraday folds** (`Lifecycle`, `LifecycleTheorems`, `LifecycleRules`, `IntradayBudget`, `IntradayRules`,
  `IntradayTheorems`, `IntradayOverlap`, `IntradayOverlapBound`): cost basis from executed operations, and the entry
  and capital budget over all planning runs, overlapping or not.

`Domain`, `Sums` and `Texts` hold the shared values, dictionary totals and the order of texts.

Code that loops or updates state is modelled by methods and classes, each proved against a specification
function; the theorems are about those functions, over every input, every run or every interleaving. The modules
named `...Rules` say what each of those functions does without naming it: when it accepts, exactly what it changes,
and every field of its result.

## How the model reads the code

- `Decimal` is an exact real, an aware timestamp is a number of seconds, a Moscow day is UTC+3.
- Digests and version-5 UUIDs are equality of what they are computed from; a SQLite transaction is one atomic step;
  a file opened for exclusive creation exists, possibly torn, from the creation on.
- A constructor that rejects values is a subset type, a raised exception is `Err` or an error outcome.
- A broker, an adapter, a clock or another process is a parameter or a nondeterministic choice: it may answer and
  interleave in any way that its own interface allows.

## What the proofs found

- The journal compares a snapshot with the latest completion only when that belongs to another plan
  (src/moex_bot/execution_journal.py:118). A re-run of a plan on an older snapshot can therefore oversell with a
  mandatory flat (`SandboxStale.StaleRerunFlips`). The guard it needs is that the flat still fits the position shown
  less the lots of its own side that did not complete before the snapshot. The guard is enough in all runs
  (`SandboxFlat.FlatNeverFlips`), and for every granted flat and every run it is exact for what a driver can see
  (`SandboxGuard.GuardIsExact`, `SandboxGuard.DisciplineIsExact`). Where final records are true only the lots they
  report count. With one order per security in a plan the missed lots are those of other plans
  (`SandboxGuard.GuardIsAboutOtherPlans`).
- A commission above one makes a sale cost more than it brings, and cash can become negative;
  `MatcherLimits.NeverOverdrawsIff` has the exact condition.
- Attempts and turnover are counted for the day of the clock but stored under the day of the snapshot
  (src/moex_bot/live_execution.py:177-188), so a capture across midnight can break a daily limit; a grant keeps the
  budgets exactly when the day of its snapshot has room (`LiveBudget.BudgetHoldsIff`, and
  `LiveBudget.BudgetsHoldThroughoutIff` for whole runs).
- The exposure trackers use the rounded limit price, the opening exposures the market price
  (src/moex_bot/harness.py:240-265, 317-352). The tracker of a group stays exact over an accepted order exactly when
  the order does not touch the group, the two prices are equal, or the limit is the higher one and nothing of the
  group is left, which the clamp at zero hides (`HarnessExposure.TrackerStaysExactIff`).
- The running-peak drawdown misses losses of a curve that falls below zero (`Drawdown.DebtEscapesTheDrawdown`). It
  bounds every loss exactly when the curve never falls into debt, or falls deepest into it while its positive equity
  has had only one value (`Drawdown.DrawdownBoundsEveryLossIff`).
- The one-shot fence relies on the database not being restored while a process holds the workflow lock
  (`OnceProtocol.RestoreDuringARunDefeatsTheFence`); a restore is harmless exactly when its row does not open the
  guard of a process that has reached its stop (`OnceProtocol.RestoreIsHarmlessIff`).
- Planning runs that overlap may each use the whole daily entry limit. A day stores at most as many signals as the
  number of runs at a time multiplied by the limit (`IntradayOverlap.OverlappingEntryLimit`), some interleaving
  reaches that for every number and every limit (`IntradayOverlapBound.OverlapReachesTheBound`), and the limit
  itself holds exactly when runs do not overlap or the limit is zero (`IntradayOverlapBound.EntryLimitSurvivesIff`).
- Rebalancing may pass through negative cash. Long-only weights that spend at most the equity, without size limits,
  do not: one round leaves cash that is not negative and two reach every target
  (`RebalanceCash.TwoRoundsReachTheTargets`).
## Model

| member | source | states |
|---|---|---|
| MatcherCausality.NoLookahead | src/moex_bot/backtest_fills.py:127-205 | for every cutoff, a session run on only the windows that end by it makes exactly the full session's fills with window end up to it, in the same order, with the cash and positions of those fills alone |
| MatcherCausality.TheFutureIsIrrelevant | src/moex_bot/backtest_fills.py:127-205 | two sets of windows that agree up to a cutoff give the same fills up to it |
| Matcher.ScheduleIsUnique | src/moex_bot/backtest_fills.py:121-137 | the sorted schedule holds exactly the events of the session and is the only strictly ordered one, so dictionary order plays no part |
| MatcherCausality.EveryEventFillsTheMost | src/moex_bot/backtest_fills.py:137-205 | at each event the matcher fills exactly the greatest number of lots that fits there and then, and nothing only if nothing fits |
| MatcherRules.EveryFillIsDue | src/moex_bot/backtest_fills.py:137-205 | every fill of every session belongs to an order and a window of its security that was active in full and traded strictly through the limit, has the one right price, is within the candle and the limit, and records its units, gross, fee, instants and ids |
| MatcherRules.EveryEventIsRight | src/moex_bot/backtest_fills.py:137-205 | each event fills the greatest number of lots that the order, the volume share, the cash, the reserve and the position leave at that price, and otherwise leaves everything but the reason, which is the first condition that fails |
| MatcherRules.QuoteIsUnique | src/moex_bot/backtest_fills.py:151-156 | the price is the least tick at or above the lowest of high, limit and moved open for a buy, the greatest tick at or below the highest of low, limit and moved open for a sell, and there is only one |
| MatcherRules.WithoutWindowNothingHappens | src/moex_bot/backtest_fills.py:111-219 | an order whose security has no window expires with nothing filled, for want of a window |
| MatcherRules.ClosedPositionsDisappear | src/moex_bot/backtest_fills.py:180-186 | no session leaves a security listed with nothing held of it |
| MatcherRules.AcceptedIff | src/moex_bot/backtest_fills.py:113-134 | a session is accepted if and only if every order is a validated limit and the windows of each security are of the day, each starting no earlier than the one before it ends |
| MatcherTheorems.DealIsTheGreatestThatFits | src/moex_bot/backtest_fills.py:160-179 | a deal is the greatest lot count within the order, the shared volume budget and the account; no deal means not even one lot fits |
| MatcherTheorems.DealIsJustified | src/moex_bot/backtest_fills.py:139-165 | a deal happens only in a window active in full, strictly traded through, at an executable tick |
| MatcherTheorems.DealPriceIsFair | src/moex_bot/backtest_fills.py:151-159 | the deal price is on the tick grid, within the candle, and never better than the limit or the open with its impact allows |
| MatcherTheorems.Conservation | src/moex_bot/backtest_fills.py:180-205 | final cash and positions are the opening ones plus signed fills less commissions |
| MatcherTheorems.OutcomesMatchFills | src/moex_bot/backtest_fills.py:206-218 | each order's outcome has its day, security and ids and counts exactly the sum of its own fills; filled, partial and expired follow from it |
| MatcherCausality.SharedVolumeBudget | src/moex_bot/backtest_fills.py:160-165 | units filled per symbol window, buys and sells of all orders together, never exceed the participation share of its volume |
| MatcherTheorems.Solvency | src/moex_bot/backtest_fills.py:166-185 | from cash that is not negative no fill overdraws it, and a buy that leaves less than the reserve only covers a short that was held, for every commission up to one |
| MatcherLimits.NeverOverdrawsIff | src/moex_bot/backtest_fills.py:166-185 | all sessions stay without debt if and only if the commission is at most one or the terms rule out every sale |
| MatcherLimits.NoAccidentalShort | src/moex_bot/backtest_fills.py:175-179 | without margin-confirmed sells a position that is not short stays not short |
| MatcherLoop.MatchSession | src/moex_bot/backtest_fills.py:99-219 | the loop fails exactly on the inputs that are rejected and otherwise returns the specified session |
| MatcherLoop.CollectEvents | src/moex_bot/backtest_fills.py:127-134 | the event list holds every window of every order once, and a window out of order, overlapping or of another day is an error |
| MatcherLoop.ProcessEvent | src/moex_bot/backtest_fills.py:137-205 | one event changes cash, positions, budget, counts, reasons and fills exactly as specified |
| Backtest.AttributionIdentity | src/moex_bot/backtest.py:240-330 | on every completed run start equity is the initial cash, positions are the net of the trades, and security profits sum to end equity less initial cash plus short financing |
| Backtest.RunBacktest | src/moex_bot/backtest.py:150-356 | the run loop ends with a report whose start equity and security profits satisfy the attribution identity and whose drawdowns are those of the curve and of its out-of-sample part; it fails exactly when a day fails, a return divides by zero equity, or either curve has fewer than two points |
| Backtest.SecurityPnl | src/moex_bot/backtest.py:477-494 | trade flows and closing marks by security, as a dictionary with exactly the touched securities |
| Backtest.RunKeepsLedger | src/moex_bot/backtest.py:240-316 | on every prefix of every run cash is the initial cash plus trade flows less financing, positions are the net of the trades, and the last equity point marks them |
| BacktestRules.EveryDayIsRight | src/moex_bot/backtest.py:240-316 | on the books of every prefix of every run: the day charges the interest of its shorts, runs the session with the configured terms on its windows, takes over cash, positions, fills and closes, adds a point worth cash and positions once started, and leaves the decision's orders or none, failing exactly for a rejected session or negative cash at a decision |
| BacktestRules.WithoutShortsNothingIsOwed | src/moex_bot/backtest.py:240-257 | a day without shorts costs nothing |
| BacktestRules.FinancingAddsUp | src/moex_bot/backtest.py:240-257 | two spans of days together cost what they cost one after the other, security by security the units short at the last close times the yearly rate and its multiplier |
| BacktestRules.TermsIff | src/moex_bot/backtest.py:409-420 | the matcher's terms are the reserve part of the initial cash, half spread and slippage in basis points and the commission with their multiplier, the participation and the delay, and no others |
| BacktestRules.OutOfSampleIsTheRest | src/moex_bot/backtest.py:320-322 | the out-of-sample curve is the rest of the curve from its first point at or after the start date |
| BacktestRules.MeasurableIff | src/moex_bot/backtest.py:317-323 | a curve can be measured if and only if it has two points, two of them on or after the start date, and no point with a next one is worth nothing |
| BacktestRules.CurveIsInDateOrder | src/moex_bot/backtest.py:281-297 | the points of a run are in the order of its days, none later than the last |
| Drawdown.MaxDrawdown | src/moex_bot/backtest.py:446-451 | the loop computes the greatest loss from a running peak |
| Drawdown.DrawdownBoundsLosses | src/moex_bot/backtest.py:446-451 | no drop of the curve to an equity that is not negative loses more than the drawdown |
| Drawdown.DrawdownIsALoss | src/moex_bot/backtest.py:446-451 | a positive drawdown is the loss between two points of the curve |
| Drawdown.DebtEscapesTheDrawdown | src/moex_bot/backtest.py:446-451 | the curve 1, 2, -1 has a drawdown of 150 percent and loses 200 percent from its first point |
| Drawdown.DrawdownBoundsEveryLossIff | src/moex_bot/backtest.py:446-451 | the drawdown bounds every loss, into debt as well, if and only if the curve never falls into debt, or some debt that came while its positive equity had only one value outweighs every debt |
| JournalTheorems.EveryRunIsWellKept | src/moex_bot/execution_journal.py:71-193 | in every ready journal, over all transactions of all processes: one open row per account, unique request ids, contiguous generations, filled means all lots, completions exactly for terminal rows, and a plan's first action is newer than every completion before it |
| JournalTheorems.AtMostOneInFlight | src/moex_bot/execution_journal.py:100-106 | two rows of an account that are both not terminal are the same row |
| JournalTheorems.RunEvolves | src/moex_bot/execution_journal.py:147-193 | rows are never deleted, recorded fills never decrease, identities never change and a terminal row never changes |
| JournalTheorems.QuarantineNeverTrades | src/moex_bot/execution_journal.py:88-91 | a journal under migration review never grants a reservation, whatever is staged or recorded in it |
| JournalTheorems.LastOfIsTheLast | src/moex_bot/execution_journal.py:92-97 | the row found by generation is the last attempt, and its generation is the number of attempts so far |
| JournalTheorems.LatestIsTheLatest | src/moex_bot/execution_journal.py:113-117 | the row found by completion time is at least as late as every completion of the account |
| JournalTheorems.ReserveAppends | src/moex_bot/execution_journal.py:71-145 | a granted reservation appends one pending row with the next generation and snapshots after what they must follow |
| JournalRules.ReserveIsGrantedIff | src/moex_bot/execution_journal.py:71-121 | a reservation is granted if and only if the journal is ready, nothing of the account is open, the order was not attempted, it is authorized, its snapshot follows what it must and its request id is new; it is declined silently exactly for a repeated unchanged order |
| JournalRules.ReserveInsertsOneRow | src/moex_bot/execution_journal.py:122-145 | a grant inserts one row with every column as given, numbered after the attempts of its order, and changes nothing else; anything else inserts none |
| JournalRules.StagingIsExact | src/moex_bot/execution_journal.py:205-254 | staging succeeds if and only if the journal is quarantined and holds this manifest already, or is empty and the entries are consistent with distinct ids; then every entry is an UNKNOWN row of the first generation |
| JournalTheorems.RecordChangesOneRow | src/moex_bot/execution_journal.py:147-193 | an accepted observation changes at most the row it names, and only if that row was not terminal |
| JournalRules.RecordIsAcceptedIff | src/moex_bot/execution_journal.py:147-180 | in a well-kept journal an answer is accepted if and only if it names a row and agrees with itself, with the reserved order, with the clock, with the fills so far and with a final state |
| JournalRules.RecordTellsTheAnswer | src/moex_bot/execution_journal.py:176-193 | after an accepted answer, final or not, the named row holds its status and its record and a completion instant exactly for a final status, unless the row was final already; every other column and row is as it was |
| JournalStore.ExecutionJournal.constructor | src/moex_bot/execution_journal.py:33-56 | a new journal is empty, ready or under review |
| JournalStore.ExecutionJournal.Reopen | src/moex_bot/execution_journal.py:57-60 | a trading-ready journal is refused as a migration candidate |
| JournalStore.ExecutionJournal.UnresolvedCount | src/moex_bot/execution_journal.py:62-69 | counts exactly the rows that are not terminal |
| JournalStore.ExecutionJournal.Reserve | src/moex_bot/execution_journal.py:71-145 | performs the specified reservation or leaves the journal unchanged |
| JournalStore.ExecutionJournal.Record | src/moex_bot/execution_journal.py:147-193 | performs the observation that JournalRules.RecordTellsTheAnswer describes, or leaves the journal unchanged |
| JournalStore.ExecutionJournal.StageLegacy | src/moex_bot/execution_journal.py:205-254 | imports all entries as UNKNOWN rows or none of them |
| SandboxFlat.FlatNeverFlips | src/moex_bot/sandbox_execution.py:127-165 | in every run whose granted flats meet the guard, over all plans, partial fills, crashes and re-runs, whatever a mandatory flat has executed, the position stays between its earlier value and zero; the guard is what SandboxGuard.DisciplineIsExact shows to be the weakest, in a form for true final records and one for any |
| SandboxFlat.EveryDisciplinedRunIsSafe | src/moex_bot/execution_journal.py:92-121 | in every such run each reserved flat fits the real position at the moment it was reserved, although the journal checks its snapshot only in part |
| SandboxFlat.EveryRunIsSound | src/moex_bot/execution_journal.py:71-193 | in every interleaving, disciplined or not, a snapshot shows all of what orders complete before it executed and part of what the others did |
| SandboxGuard.GuardIsExact | src/moex_bot/execution_journal.py:113-121 | for every sound world and granted flat, whether or not final records are true: it closes only, in every sound world the driver cannot tell apart, if and only if it still fits the position shown less the lots of its own side that the snapshot can have missed |
| SandboxGuard.DisciplineIsExact | src/moex_bot/execution_journal.py:113-121 | for every lawful run: each granted flat meets the guard if and only if each closes only in every sound world that looks the same when it is granted |
| SandboxGuard.GuardIsAboutOtherPlans | src/moex_bot/execution_journal.py:113-121 | with one order per security in a plan all lots that a granted flat's snapshot can have missed are those of other plans, and the flat fits unless the latest completion is the plan's own |
| SandboxGuard.EarlierAttemptsAreCovered | src/moex_bot/execution_journal.py:120-121 | a granted residual exit has a snapshot after every earlier attempt of its logical order |
| SandboxStale.StaleRerunFlips | src/moex_bot/execution_journal.py:113-119 | a lawful run, with one order per security in each plan, in which a re-run on an older snapshot reserves a flat of five lots against a position of two |
| SandboxProtocol.AtMostOnce | src/moex_bot/sandbox_execution.py:144-165 | over all crashes, re-runs and reconciliations a logical order that is not a mandatory flat reaches the broker at most once, and no request is sent twice |
| SandboxProtocol.EveryRunIsBased | src/moex_bot/execution_journal.py:71-193 | in every interleaving the journal is well kept, only flats have later generations, and nothing fills that was not sent |
| SandboxDriver.DriverFollowsTheProtocol | src/moex_bot/sandbox_execution.py:127-165 | for every plan, whatever broker and other processes do around it and wherever its process dies, a run of the driver loop is a lawful run of the protocol, and a disciplined one when granted flats meet the guard |
| SandboxDriver.DriverNeverFlips | src/moex_bot/sandbox_execution.py:127-165 | hence no driver run with guarded flats, after any such history, lets a mandatory flat flip a position |
| SandboxDriver.DriverSendsOnce | src/moex_bot/sandbox_execution.py:144-158 | without any discipline no driver run, after any history, sends a logical order that is not a flat twice |
| SandboxDriver.StopsAtTheFirstUnfilled | src/moex_bot/sandbox_execution.py:150-165 | all results but the last are filled in full, and the loop stopped exactly when the last one is not |
| SandboxRules.EveryOrderIsRight | src/moex_bot/sandbox_execution.py:127-165 | for every order of every plan run after any lawful history: the gate stops the run, a repeated order is skipped, a granted one is reserved under its plan and sent unless the process dies, and if its answers agree with the journal the journal tells the last one and the run reports its result, position and stop; otherwise the run fails |
| SandboxRules.GateIff | src/moex_bot/sandbox_execution.py:130-143 | an order passes if and only if it confirms margin exactly for a short that grows, on a short-enabled instrument, and a mandatory flat brings the position closer to zero |
| SandboxRules.EveryRunIsGated | src/moex_bot/sandbox_execution.py:132-143 | in every lawful run every reserved order that confirms margin is a sale of a short-enabled instrument |
| SandboxDriver.GatesSeeTheSnapshot | src/moex_bot/sandbox_execution.py:114-143 | with one order per security the projected lots that gate an order are those of the snapshot |
| SandboxExecution.ExecutePlan | src/moex_bot/sandbox_execution.py:127-165 | the loop leaves the account, projections, results and stop reason of the specified run |
| SandboxExecution.ExecuteOrder | src/moex_bot/sandbox_execution.py:128-165 | one iteration gates, reserves, submits, settles and projects as specified, or dies with its reservation |
| SandboxExecution.ReconcileJournal | src/moex_bot/sandbox_execution.py:209-227 | records the broker's answers in order, keeps what was recorded before an error, and returns what is left |
| SandboxExecution.ReconciliationOnlyObserves | src/moex_bot/sandbox_execution.py:213-227 | reconciliation adds and removes no row, reopens none and keeps the journal well kept |
| SandboxExecution.ReconciliationIsKnown | src/moex_bot/sandbox_execution.py:213-227 | after a reconciliation without a failure the journal knows every answer: at least its fills, and its status if that is final |
| SandboxExecution.ReconciliationFailsIff | src/moex_bot/sandbox_execution.py:213-227 | a reconciliation goes on past an order if and only if its lookup succeeds and names a row that it agrees with |
| SandboxExecution.UnresolvedIsWhatBlocks | src/moex_bot/execution_journal.py:100-106 | what is unresolved is at most one order, and it is there exactly when reservations are blocked |
| SandboxExecution.FinalAnswerUnblocks | src/moex_bot/execution_journal.py:147-193 | a final answer about the order in flight leaves nothing pending on the account |
| SandboxExecution.ExpectedStopIsAboutTheLastOrder | src/moex_bot/sandbox_execution.py:31-46 | for results of the driver the expected expiry is an intraday plan whose last order is a limit order with a broker id, cancelled by its time to live with nothing filled |
| OnceProtocol.OneShot | src/moex_bot/long_auto_once.py:102-127 | over any number of run and recovery processes that die anywhere, with database restores between them, at most one BUY, one cancel and one stop are posted, for one candidate, the stop after a durable FILLED one-lot parent |
| OnceProtocol.EveryRunIsSafe | src/moex_bot/long_auto_once.py:163-217 | in every reachable state the anchor, the fence, the row, the restorable rows and the process position agree on what was posted |
| OnceProtocol.NoReentry | src/moex_bot/long_auto_once.py:102-108 | once a BUY was posted no run starts again, whatever database is put in place |
| OnceProtocol.FilledEntryIsProtected | src/moex_bot/long_auto_once.py:274-310 | an entry that fills is bought once and protected by one stop: the bounds are reached |
| OnceProtocol.RestoreDuringARunDefeatsTheFence | src/moex_bot/long_auto_once.py:163-181 | in the run that bought and recorded STOP_PENDING, putting the row it had before back in place lets a stop pass without the fence, and a recovery posts a second one |
| OnceProtocol.RestoreIsHarmlessIff | src/moex_bot/long_auto_once.py:102-127 | at any moment of any run, and for any content put in place, at most one BUY, one cancel and one stop are posted whatever follows, if and only if the content does not open the guard of a process that has reached its stop |
| OnceRules.EndOfRunIff | src/moex_bot/long_auto_once.py:265-314 | a run that claims the ledger and does not die ends protected if and only if the acknowledged entry is the candidate's order, its last answer is one lot filled, one stop at most is asked for and it is read back; it ends unfilled if and only if that answer is cancelled or rejected with no lots; otherwise in quarantine |
| OnceRules.LastAnswerMeans | src/moex_bot/long_auto_once.py:283-295 | the last answer is that of the first lookup that fails or is final or is the last poll, and what the broker says after a cancellation if that one was still open |
| OnceRules.UnrestoredIsAcceptedIff | src/moex_bot/long_auto_once.py:102-127 | over all runs and deaths a ledger that was never restored is accepted if and only if its claim has its anchor and its fence is not torn |
| OnceRules.RecoverableIff | src/moex_bot/long_auto_once.py:334-353 | a recovery starts if and only if the accepted row is this candidate's observed entry of one filled lot |
| OnceRules.EndOfRecoveryIff | src/moex_bot/long_auto_once.py:354-372 | a recovery that does not die ends protected if and only if the broker still tells the durable entry, one stop at most is asked for and it is read back |
| OnceLedger.Ledger.CheckAnchor | src/moex_bot/long_auto_once.py:102-127 | accepts exactly the rows that match the anchor and, if the fence exists, are at or past STOP_PENDING |
| OnceLedger.Ledger.Claim | src/moex_bot/long_auto_once.py:188-217 | row first, anchor second; on every death or refusal the lock is free |
| OnceLedger.Ledger.Run | src/moex_bot/long_auto_once.py:243-314 | refused, declined, dead or ended as the answers decide (OnceRules.EndOfRunIff): then one BUY, a cancel exactly when the entry was left open and one was posted, STOP_PENDING before the stop and one stop when one was asked for a filled lot, and the row that the outcome names |
| OnceLedger.Ledger.Conclude | src/moex_bot/long_auto_once.py:296-311 | an unfilled entry ends unfilled, an ambiguous one in quarantine without a stop, and a filled lot is recorded STOP_PENDING and ends protected with its stop if that is asked for once and read back |
| OnceLedger.Ledger.Poll | src/moex_bot/long_auto_once.py:283-295 | after polling and at most one cancel the last answer is durable, or there was none and the run is in quarantine, or the process died |
| OnceLedger.Ledger.Protect | src/moex_bot/long_auto_once.py:301-310 | however often the adapter asks, at most the first stop is posted, behind a fence that was absent before; with a fence in place nothing is posted; without a death the outcome is protected exactly when one stop at most was asked for and it is read back |
| OnceLedger.Ledger.Recover | src/moex_bot/long_auto_once.py:317-372 | refused exactly unless the row is the candidate's observed FILLED one-lot entry; never buys or cancels; otherwise ends as OnceRules.EndOfRecoveryIff says, with its stop |
| OnceLedger.Ledger.RestoreDatabase | src/moex_bot/long_auto_once.py:102-108 | a restore changes the database only |
| ProtectionProtocol.AtMostOnePost | src/moex_bot/live_protection.py:169-256 | over all interleavings of processes and deaths a plan's stop gets past the local guard at most once, and ACTIVE means posted exactly once with a known id |
| ProtectionProtocol.StopIdNeverChanges | src/moex_bot/live_protection.py:162-167 | the plan of a row is never replaced, a set stop id never changes, and a post is never repeated |
| ProtectionProtocol.NeverResubmitted | src/moex_bot/live_protection.py:258-264 | a row without a stop id whose reservation nobody holds stays as it is for ever, neither resubmitted nor adopted |
| ProtectionProtocol.EveryRunIsSafe | src/moex_bot/live_protection.py:118-275 | in every reachable state one process at most holds the reservation, and rows, processes and posts agree |
| ProtectionStore.ProtectionJournal.Prepare | src/moex_bot/live_protection.py:118-149 | stores a valid plan of an enrolled account once: an unknown plan is accepted exactly when the account has no other row, a known one exactly when plan and enrollment are the same, and nothing else changes |
| ProtectionStore.ProtectionJournal.Activate | src/moex_bot/live_protection.py:169-256 | changes nothing for an invalid or missing plan, another broker, environment or enrollment; posts only for a protectable parent and at most once; without interference a planned stop is posted exactly when it is protectable and dispatched, and row and answer are what the reply and the readback make of it; ACTIVE means the broker shows exactly the planned stop |
| ProtectionStore.ProtectionJournal.CheckParent | src/moex_bot/live_protection.py:180-219 | the parent, ownership, holdings and stop checks, with the loop over the entry journal |
| ProtectionStore.ProtectionJournal.RecordAnswer | src/moex_bot/live_protection.py:228-256 | the row becomes UNKNOWN with the returned id, or without one after an exception or incomplete answer |
| ProtectionStore.ProtectionJournal.WithdrawReservation | src/moex_bot/live_protection.py:228-242 | after a local refusal the row is PLANNED again without an id, whatever other processes did |
| ProtectionStore.ProtectionJournal.Reconcile | src/moex_bot/live_protection.py:258-274 | without an id, with another broker or another plan nothing is written; without interference a known stop ends ACTIVE exactly when the broker shows it, and UNKNOWN otherwise |
| ProtectionStore.ProtectionJournal.IsShown | src/moex_bot/live_protection.py:265-272 | one match, verified, and no foreign or unidentified stop of the instrument |
| ProtectionRules.ShownIff | src/moex_bot/live_protection.py:265-274 | a readback is accepted if and only if the one stop of this id is listed as the plan's, sold for one lot at its trigger, active and without an end, and no other is for the instrument or for none |
| ProtectionRules.VerifiedIff | src/moex_bot/live_protection.py:277-318 | a stop is verified if and only if it is the listing that the plan's stop has, but for its child type and the price of a market stop |
| ProtectionRules.ProtectableIff | src/moex_bot/live_protection.py:180-219 | a parent is protectable if and only if its row is a BUY of one lot at the plan's price filled in full, its units are all the bot owns and all free, and the broker lists no stop of the instrument |
| ProtectionRules.PlanValidIff | src/moex_bot/live_protection.py:46-76 | a plan is valid if and only if it is a rouble share of an account whose prices are positive ticks in the order limit, trigger, entry, profit |
| ProtectionRules.AdmittedIff | src/moex_bot/live_protection.py:169-178 | an activation is admitted if and only if the row is this valid plan's under the present enrollment and the broker is the account's production one |
| ClaimFences.OneOfEachCall | src/moex_bot/prod_long_once.py:120-140 | whatever the orchestrator does, at most one BUY, one stop and one cancel are sent, all for the first claim's binding |
| ClaimFences.FenceBlocksForEver | src/moex_bot/prod_long_once.py:187-241 | a call whose fence exists is never started again, sent or not |
| ClaimFences.ClaimDirectory.Create | src/moex_bot/prod_long_once.py:120-135 | only the first claim is written |
| ClaimFences.ClaimDirectory.Perform | src/moex_bot/prod_long_once.py:137-140 | the transport is used exactly when the claim matches and the fence is new, and then the fence is there first |
| LiveLedger.NeverShort | src/moex_bot/live_execution.py:171-191 | in every ledger built by reservations and observations the owned units of every instrument are not negative, so the short-exposure error is unreachable |
| LiveLedger.EveryLiveRunIsKept | src/moex_bot/live_execution.py:288-292 | every sale in the ledger was backed by what the rows before it own, and every logical order has one row |
| LiveLedger.OneAttemptPerOrder | src/moex_bot/live_execution.py:359-367 | a logical order is reserved, hence submitted, at most once for ever |
| LiveRules.AuthorizedIff | src/moex_bot/live_execution.py:194-322 | an order is authorized if and only if it passes every rule: account, age of snapshot and book, instrument, tick and size, spread and distance from the middle, nothing active, daily attempts and turnover, holdings that agree, and coverage of a sale or cash, loss, capital and concentration of a buy, as quotients and totals |
| LiveRules.CallbackIff | src/moex_bot/live_execution.py:348-358 | the reservation is granted the snapshot's instant if and only if the confirmation is current, the state is of this account, nothing is owned short and the order passes |
| LiveRules.ConfirmedIff | src/moex_bot/live_execution.py:52-71 | a permission is valid if and only if it is for exactly this account, order, policy and release, admitted, current, and five minutes long at most |
| LiveRules.StillGoodIff | src/moex_bot/live_execution.py:372-386 | a reserved order is submitted if and only if the hook passed, the confirmation is current, and snapshot and book are at most twenty and ten seconds old |
| LiveRules.CountMeans | src/moex_bot/live_execution.py:182-188 | the attempts of a day are the rows of the account whose snapshot lies between its two Moscow midnights |
| LiveRules.RequestIdsDiffer | src/moex_bot/live_execution.py:359-367 | two orders of an account share a request id if and only if they are the same logical order |
| LiveBudget.DailyBudgets | src/moex_bot/live_execution.py:182-190 | attempts and turnover of every Moscow day stay within their limits in every run whose captures do not straddle midnight |
| LiveBudget.BudgetHoldsIff | src/moex_bot/live_execution.py:248-264 | an accepted order keeps every day within budget if and only if the day of its snapshot has room |
| LiveBudget.BudgetsHoldThroughoutIff | src/moex_bot/live_execution.py:248-264 | for every run: each day is within budget at every moment if and only if every granted order found room on the day of its snapshot |
| LiveBudget.MidnightOverruns | src/moex_bot/live_execution.py:182-188 | a run with a limit of one attempt a day that stores two under one day |
| LiveRisk.FilledBuyStaysWithinLimits | src/moex_bot/live_execution.py:293-322 | an authorized buy that fills completely, at its limit or better, keeps the bot-owned gross within the capital limit and issuer, sector and cluster within their shares, over all captured positions and the bought instrument, listed before or not |
| LiveExecution.LedgerSummary | src/moex_bot/live_execution.py:171-191 | one pass finds the owned units, the attempts and the turnover, and fails exactly on short exposure |
| LiveExecution.ExecuteLive | src/moex_bot/live_execution.py:325-389 | the broker is called exactly under a new reservation with a permission and snapshot still good at that moment, for the confirmed order, policy and account; otherwise the reservation is recorded as rejected |
| LiveExecution.UnusedReservationIsClosed | src/moex_bot/live_execution.py:381-386 | a reservation that is not used does not block the account unless the clock went behind its snapshot |
| RiskGate.EvaluateIntent | src/moex_bot/risk.py:23-131 | gives exactly the reasons that RiskRules.FoundIff names, and none exactly when the order is allowed |
| RiskRules.FoundIff | src/moex_bot/risk.py:23-131 | a reason is given if and only if its rule stands against the order, in terms of the position before and after it, its cash and the exposures as quotients of the equity; the geopolitical one is given alone |
| RiskRules.AllowedIff | src/moex_bot/risk.py:23-131 | an order is allowed if and only if no rule stands against it, so a reducing order of a blocked security that breaks no other rule is |
| RiskRules.StepObeysTheRules | src/moex_bot/harness.py:270-355 | an order of a plan is refused without a trace if a rule stands, and otherwise moves cash, turnover, open orders, its own position and the source by exactly itself |
| RiskRules.EveryOrderIsRight | src/moex_bot/harness.py:266-358 | so every order of every plan in turn, on the account that the orders before it left: none is passed over |
| RiskRules.WholePlanObeys | src/moex_bot/harness.py:266-358 | every order a whole plan accepts is of the plan, within the order size limit, and confirms margin only for a sale where shorts, margin and the instrument allow it |
| HarnessTheorems.WholePlanCaps | src/moex_bot/harness.py:270-355 | at the end of a plan each tracked gross, short, sector and cluster exposure is at most its cap or its initial value |
| HarnessTheorems.WholePlanBudgets | src/moex_bot/risk.py:45-83 | cash stays at least the reserve or its initial value; turnover and open orders are within limits whenever anything was accepted |
| HarnessTheorems.CriticalPlansOnlyShrink | src/moex_bot/risk.py:96-97 | in CRITICAL mode a whole plan only moves positions towards zero |
| HarnessTheorems.NoPlanCrossesZero | src/moex_bot/risk.py:55-60 | a plan with one order per security takes no position through zero |
| HarnessTheorems.PositionCaps | src/moex_bot/risk.py:98-104 | at one price a position ends at most at the position limit, or where it was |
| HarnessTheorems.BlockedSecuritiesOnlyShrink | src/moex_bot/risk.py:17-44 | over a whole plan securities blocked by the geopolitical policy only move towards zero |
| HarnessTheorems.LongOnlyStaysLong | src/moex_bot/risk.py:61-70 | without shorts or without margin no plan sells more than is held |
| HarnessTheorems.StepDirection | src/moex_bot/risk.py:53-61 | no accepted order crosses zero, and in CRITICAL mode it strictly shrinks its position |
| Harness.BlockedLotsStay | src/moex_bot/domain.py:104-108 | after an accepted order blocked lots never exceed the absolute position, so the constructor's error is unreachable |
| Harness.RunPlan | src/moex_bot/harness.py:266-358 | the loop accepts and projects exactly the specified orders; cash and positions stay valid by their types |
| Harness.Accept | src/moex_bot/harness.py:298-355 | the updates after an accepted order are the specified ones |
| HarnessExposure.TrackersStayExact | src/moex_bot/harness.py:239-355 | with orders at market prices the gross, short, sector and cluster trackers equal their sums recomputed over the projected positions after every order |
| HarnessExposure.StepStaysExact | src/moex_bot/harness.py:325-355 | an accepted order at its market price keeps each tracker exact without its clamp at zero acting |
| HarnessExposure.TrackerStaysExactIff | src/moex_bot/harness.py:317-352 | after an accepted order the tracker of any group is exact if and only if the order does not touch the group, its limit is the market price, or the limit is above it and nothing of the group is left, which the clamp hides |
| HarnessExposure.OpeningTrackers | src/moex_bot/harness.py:240-265 | the opening loops compute exactly the recomputed exposures |
| Rebalance.BuildOrderIntents | src/moex_bot/execution.py:24-83 | fails when a position has no price; otherwise returns the orders of the positions without target by name and of the ranked targets at the portfolio's equity, or the first error |
| RebalanceRules.EveryOrderIsRight | src/moex_bot/execution.py:37-82 | the order of a security follows from its last target or exit to every field: the wanted lots, the side of the gap, the most lots the limit leaves at the nearest tick, notional, id, rationale and margin, or none exactly when the gap is closed or worth less than the minimum, or an error for a price that rounds to zero |
| RebalanceRules.WantedIff | src/moex_bot/execution.py:45-51 | the wanted lots of a weight of either sign are the most that the absolute target value pays for, on its side, and no others |
| RebalanceRules.PlanIsComplete | src/moex_bot/execution.py:36-83 | the orders of a plan are those of exactly the securities that get one, in the plan's order |
| RebalanceRules.PlanFailsIff | src/moex_bot/execution.py:36-83 | a plan fails if and only if one of its orders does |
| Rebalance.EquityOf | src/moex_bot/domain.py:136-145 | cash and marked positions, capped by a positive reported equity, exactly when every position has a price |
| RebalanceRules.EquityMeans | src/moex_bot/domain.py:136-145 | the equity is cash and positions at market prices, or the broker's positive equity if that is less |
| Rebalance.ExitsAreUnique | src/moex_bot/execution.py:35 | the list of exits is determined by its contents and its order by name |
| RebalanceConverges.RebalancingConverges | src/moex_bot/execution.py:32-83 | for targets that name each security once, at fixed prices on the tick with all orders filled and no fees, repeated rebalancing ends, with the same equity, where every security is on its target or all that may be traded of its gap at once is below the minimum |
| RebalanceConverges.NothingIsOrderedIff | src/moex_bot/execution.py:50-66 | nothing is ordered for a security if and only if its gap is closed or too small to trade |
| RebalanceConverges.RoundKeepsExits | src/moex_bot/execution.py:35-36 | the securities a round goes through are the same in the next round |
| RebalanceConverges.TargetsAreReached | src/moex_bot/execution.py:45-67 | where single lots may be traded the final positions are exactly the wanted lots |
| RebalanceCash.RoundDoesNotOverspend | src/moex_bot/execution.py:32-83 | for weights that are not negative and add up to at most one, without size limits, one round leaves cash that is not negative, and each security on its target or, where a short had to be closed first, flat |
| RebalanceCash.TwoRoundsReachTheTargets | src/moex_bot/execution.py:32-83 | two such rounds end exactly on all targets with the same equity, and cash is not negative after either |
| RebalanceConverges.SizedLotsGetCloser | src/moex_bot/execution.py:48-70 | an order shortens the distance to the wanted lots by its own size and does not cross zero |
| RebalanceConverges.RoundKeeps | src/moex_bot/execution.py:32-83 | one round conserves equity and lowers the sum of distances by the lots traded |
| RebalanceConverges.RoundConserves | src/moex_bot/execution.py:59-82 | filled orders conserve cash and positions together |
| RebalanceConverges.WantedIsTheMostAffordable | src/moex_bot/execution.py:46-49 | the wanted lots of a weight that is not negative are the most that the target value buys |
| RebalanceGate.BuiltOrdersFitTheGate | src/moex_bot/execution.py:54-82 | a built order never reverses a position, confirms margin exactly when it opens or increases a short, and fits the size limit and minimum it was built with |
| RebalanceGate.BuiltAtMarketIff | src/moex_bot/execution.py:54 | a built order carries the market price if and only if that is a whole number of ticks |
| RebalanceGate.BuiltPlansKeepTrackersExact | src/moex_bot/harness.py:227-355 | with prices on the tick the loop sends a whole built plan keeping every exposure tracker equal to the recomputed exposure |
| LifecycleTheorems.EntriesAreNetPositions | src/moex_bot/intraday.py:486-509 | a security has an entry exactly when its deduplicated signed quantities do not cancel, with their sum as units and their sign as side |
| LifecycleTheorems.CashFlowIdentity | src/moex_bot/intraday.py:490-508 | net cash flow is realized gain less units times basis |
| LifecycleTheorems.BasisIsWithinTheLifecycle | src/moex_bot/intraday.py:498-508 | the basis lies within the prices of the fills that built the position since it was last flat |
| LifecycleRules.EntryDatesFromItsOpening | src/moex_bot/intraday.py:483-508 | an entry's instant and side are those of the fill that took the security to its present side, where it has been since |
| LifecycleRules.ReplayFailsIff | src/moex_bot/intraday.py:474-482 | a report is refused if and only if a new BUY or SELL of a security has no positive quantity, no positive amount or no instant |
| LifecycleTheorems.RepeatingChangesNothing | src/moex_bot/intraday.py:473-481 | reporting an operation once more changes nothing, wherever the sort puts it |
| Lifecycle.SortedIsOrdered | src/moex_bot/intraday.py:473 | the stable sort is a permutation in the order of the ISO texts |
| LifecycleRules.SortIsStable | src/moex_bot/intraday.py:473 | rows with the same text stay in the order in which they were reported |
| Texts.LeqIsLexicographic | src/moex_bot/intraday.py:473 | a text comes before those it begins and those with a greater character where the two first differ |
| Lifecycle.ExecutedEntries | src/moex_bot/intraday.py:460-509 | the loop returns the entries of the replayed operations and fails exactly when the replay does |
| IntradayTheorems.DailyEntryLimit | src/moex_bot/intraday.py:184-216 | over planning runs one after the other, whatever they fail on, no day stores more signals than the largest entry limit |
| IntradayRules.EveryEntryHasItsSignal | src/moex_bot/intraday.py:403-446 | every order of a plan answers one signal, in the order of the signals: its side, instrument, id and margin, the nearest tick of its price and the most lots its budget buys, for a security that is not held and a key newly stored; nothing else is stored |
| IntradayRules.PlanOneIsRight | src/moex_bot/intraday.py:403-445 | a signal adds its order, its key, and the use of a slot of each kind and of its money if and only if slots are left, it is not held, a short is allowed, its key is new and its budget buys a lot; an unknown instrument or a price that rounds to zero is an error |
| IntradayRules.EverySignalIsRight | src/moex_bot/intraday.py:403-445 | so every signal of every plan in turn, on the plan that the signals before it left; the first failure ends the plan and keeps what was stored |
| IntradayRules.OpeningLeavesWhatFits | src/moex_bot/intraday.py:386-402 | the loop starts with the slots that the stored signals of the Moscow day and the positions leave, and with money for exactly what fits cash, daily turnover and exposure together |
| IntradayRules.ExposuresMean | src/moex_bot/intraday.py:389-395 | each position's exposure is its units without sign at its price |
| IntradayOverlap.OverlappingEntryLimit | src/moex_bot/intraday.py:386-442 | with planning runs interleaved on one store and at most so many at a time, no day stores more than that many times the largest entry limit |
| IntradayOverlapBound.OverlapReachesTheBound | src/moex_bot/intraday.py:386-442 | for any number of runs at a time and any limit some interleaving stores exactly their product on one day |
| IntradayOverlapBound.OverlapBoundIsExact | src/moex_bot/intraday.py:386-442 | every interleaving stays within a bound on every day if and only if runs times limit is within it |
| IntradayOverlapBound.EntryLimitSurvivesIff | src/moex_bot/intraday.py:386-442 | the daily entry limit holds in every interleaving if and only if runs do not overlap or the limit is zero |
| IntradayTheorems.EntriesFitTheAccount | src/moex_bot/intraday.py:386-446 | the entries of a plan together fit cash, daily turnover, capital exposure and the position limit, each within the order size cap |
| IntradayTheorems.EntryIsTheMostThatFits | src/moex_bot/intraday.py:636-645 | an entry order is the largest number of lots that its budget pays for |
| IntradayTheorems.PlanStaysWithin | src/moex_bot/intraday.py:401-446 | capital, slots, stored signals and orders move together, and other days are untouched |
| IntradayBudget.PlanEntries | src/moex_bot/intraday.py:386-446 | the loop stores and orders exactly what is specified, keeps what it stored before an error, and fails before any entry when a position has no instrument or price |
| IntradayBudget.GrossExposure | src/moex_bot/intraday.py:389-395 | the gross exposure of the positions, and an error exactly when one has no instrument or price |
| IntradayBudget.IntradayStateStore.MarkSignal | src/moex_bot/intraday.py:184-198 | says whether the signal is new and stores it |
| IntradayBudget.IntradayStateStore.Entries | src/moex_bot/intraday.py:211-216 | counts the stored signals of the day |
| Domain.TickDownIsGreatest | src/moex_bot/backtest_fills.py:153-156 | rounding down gives the greatest multiple of the tick not above the price |
| Domain.TickUpIsLeast | src/moex_bot/backtest_fills.py:153-156 | rounding up gives the least multiple of the tick not below the price |
| Domain.TickRoundIsNearest | src/moex_bot/domain.py:70-72 | rounding a price gives the nearest multiple of the tick, the upper one of two |
| Domain.OnTickIff | src/moex_bot/live_execution.py:231-232 | a price is a multiple of the tick if and only if rounding down leaves it as it is |

## Left out

- SandboxFlat.FlatNeverFlips: holds for runs in which granted flats meet the guard, which the code checks only in part, and fails without it (`SandboxStale.StaleRerunFlips`); that the guard is the weakest is over sound worlds that look the same to the driver, whether or not a run from an empty journal reaches them.
- SandboxFlat.EveryDisciplinedRunIsSafe: the same guard.
- SandboxDriver.DriverNeverFlips: the same guard.
- SandboxProtocol.AtMostOnce: an order is reported final only if the broker really is done with it; an adapter that reports CANCELLED for an order that fills later is outside the model.
- OnceProtocol.OneShot: restores happen only while nobody holds the workflow lock, `submit` posts at most one BUY behind its guard, the adapter posts at most one cancel in a run, and deletion of the anchor, the fence or the ledger by an operator is not modelled.
- ProtectionProtocol.AtMostOnePost: restoring an older protection database is not part of this machine; `ClaimFences.OneOfEachCall` is the bound that survives it.
- LiveBudget.DailyBudgets: one policy over the whole run.
- RebalanceConverges.RebalancingConverges: cash may become negative in between, which the portfolio constructor would refuse; `RebalanceCash.RoundDoesNotOverspend` says when it is not negative after a round, not after each single fill of it; the broker-reported equity stays the same.
- RiskGate.EvaluateIntent: the reasons are an enumeration without their texts and numbers.
- LiveLedger.NeverShort: refusals of `_authorize` share fewer error texts than the code has; which orders are refused is exact.
- Rebalance.BuildOrderIntents: a held position is valued with the lot size of the listed instrument, which is its own when the instrument did not change.
- JournalStore.ExecutionJournal.Reserve: among equal completion instants the earlier row is taken as the latest one, where SQLite leaves the choice open.
- SandboxExecution.ExecutePlan: the checks on files, plan age, account, environment and profile before the loop are left out; the loop starts from a plan, a snapshot and a journal.
- ProtectionStore.ProtectionJournal.Activate: the exact outcome is stated for an activation that nobody interferes with; under interference what is stated is that nothing unsafe happens; the fields of the broker's stop orders are texts already normalized in case; prices in broker nanos are exact reals; identifiers are not checked to be UUIDs.
- Backtest.RunBacktest: candle indexing, market observations, the benchmark series and the metrics other than the drawdowns, the financing and the first and last equity (returns, Sharpe ratio, turnover, commissions and counts) are left out; the orders of a day are an input; a security outside the universe is not modelled.
- Staged legacy journals: the code has no operation that makes one ready, so nothing is proved beyond the quarantine.
- `enroll_live_journal`: its eligibility checks are left out; live runs start from the empty ready journal it leaves behind.
- `reconcile_live_journal`: the same loop as the sandbox reconciliation, proved there.
- `transition_order`, `apply_geo_multiplier`, plan digests and permission fields: single bodies that would only add easy members.
- `paired`, `check_entry_state`, `run_once` before its claim, and the unseen supervised orchestration: field checks around `ClaimFences`, which allows any caller.
- The intraday exit rules, the opening-equity loss gate, candidate evaluation and signal scores: they choose orders but keep no budget.
- HTTP transports, file permissions, locks as system calls, fsync, UUID and SHA-256 internals, reports, command lines and configuration loaders.
- Rounding of `Decimal` to 28 digits.
