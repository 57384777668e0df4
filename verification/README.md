# Nonces, retries and recovery of a wallet manager

A Dafny model of the parts of the wallet manager that are hardest to get right, with proofs of what
they keep and of where they stop keeping it.

- **Nonce tracker.** For each (wallet, chain) the tracker remembers the last nonce used and the set
  of nonces claimed. `NonceCells` says what each operation does to one such pair and proves what
  follows: an exact invariant, refinement of a plain least-free-number allocator, healing by resync,
  round trips; `NonceReuse` says how long a used nonce stays used. `NonceTracker` is the object with its nested maps, updated in place. `NonceCallers`
  interleaves callers that fetched their view of the chain before they took the lock.
- **Retry loop.** `RetrySpec` is one round of the loop as a function of the retry state, the shared
  nonce pair, the run's history and every answer that the nodes, hooks, signer and other callers can
  give. `WalletManager` is the execution context and the manager with the source's methods, each
  proved equal to its function. `RetryLength`, `RetryNonces`, `RetryOwnership`, `RetryReleases`,
  `RetryRestores`, `RetryOutcomes`, `RetryPrices` and `RetryBumps` carry one invariant each along
  whole runs, and `RetryTheorems` states the results from the two entries into the loop.
  `RetryRounds` says what every kind of round comes to, read off the answers given in it, without
  the handlers; `RetryRuns` what follows for mined, slow and reverting transactions over whole runs.
  `RetryCrowd` interleaves any number of runs on one tracker, `RetryFrames` says what the handlers
  leave alone, and `RetryWitnesses` holds the concrete runs. `RunHistory` defines the figures they
  use, `TxMonitor` is the monitoring goroutine.
- **Smaller state machines.** `Idempotency` (store, request path, interleaved requests) with
  `IdempotentAnswers` (what those requests are answered),
  `CircuitBreaker` (fields against event history), `Recovery` (reconciliation and accounting), and
  `FundDistribution` with `FundTransfers` (the settlement example, on heap cells).

A run of the loop is driven by a finite script of rounds. The loop need not end, so a claim for every
script is a claim for every prefix of every run, and `RetryTheorems.HeadIsCut` carries it to every
loop head.

## Where the code differs from what is said about it

- `persistence.go` line 61 calls the persisted nonce the next one to use, but acquisition persists the
  one just used (`manager_nonce.go` line 150) and recovery reads it as the next one:
  `Recovery.RecoveryReissuesIff`.
- The comment on the loop calls its deferred release a last resort (`manager_tx.go` lines 508-510).
  When State.Nonce was kept by an earlier round, handlers that release explicitly are followed by a
  second release of the same nonce: `RetryTheorems.WrongReleasesIff`. Alone it is harmless
  (`NonceCells.ReleaseTwice`); with another caller in between it is not
  (`RetryWitnesses.TwoRoundsReleaseTwice`, `NonceCallers.SecondReleaseBreaksUniqueness`).
- `signAndBroadcastTransaction` guards its releases so that no nonce of a tracked transaction goes,
  but looks for the hash of the unsigned transaction (`manager_tx.go` lines 849-854), and the exits at
  the simulation have no guard (lines 647, 660, 716, 724, 734). A synchronous broadcast that is
  cancelled in flight goes on, but its transaction is not tracked (lines 957-964), so the deferred
  guard releases a nonce kept from an earlier round. Either way a nonce whose transaction is on its
  way can be released and handed out again. `RetryTheorems.WrongReleasesIff` says exactly when;
  `RetryWitnesses.PublishedNonceIsReissued`, `RetryWitnesses.ResumedNonceIsReleased` and
  `RetryWitnesses.NonceInFlightIsReissued` are runs.
- The price limit bounds every price, but without a fixed gas limit it does not bound the number of
  bumps, because a failed estimation goes back to an old price: `RetryTheorems.EightBumpsIff`.
- A retry after a reverted simulation keeps the gas limit of the built transaction (`manager_tx.go`
  lines 738-744), in which the extra gas is included, and the next build adds the extra again:
  `RetryRuns.RevertsAddGas`.
- The gap scan is documented as safe against handing a nonce out twice. That holds while views do not
  go back; a caller with an older view can be given a nonce in use: `NonceCallers.OldViewTakesHeldIff`.
- `ResumePendingTransaction` says that a lost transaction is retried with a new nonce; the handler
  bumps the gas and keeps the nonce (`manager_tx.go` lines 1332-1350).
- `findTransfers` says that every balance comes to match its target. The amount can be the sender's
  own cell, which the subtraction sets to zero before the addition reads it:
  `FundDistribution.ReachesTargetIff` gives the exact condition.

## Model

| member | source | states |
|---|---|---|
| NonceCells.ApplyKeepsValid | internal/nonce/tracker.go:168-404 | claimed is empty while nothing is tracked, and otherwise no claimed nonce is above the last used one: acquire, release, set and resync each keep this, for every gap finder that honours its contract |
| NonceCells.RunsKeepValid | internal/nonce/tracker.go:168-404 | the same over every sequence of operations |
| NonceCells.ReachableIffValid | internal/nonce/tracker.go:44-404 | the invariant is exact: a state is reachable from a fresh tracker if and only if it satisfies it |
| NonceCells.FirstGap | manager_nonce.go:86-102 | the scan returns the first number of the range that is neither claimed nor stored; a failed lookup counts as stored |
| NonceCells.StoreFinderRespects | internal/nonce/tracker.go:143-149 | the store-backed finder honours the contract of gap finders: it stays in the range and skips claimed nonces |
| NonceCells.AcquireIsLeastFree | internal/nonce/tracker.go:168-299 | with mined <= pending and the store-backed finder, Acquire returns the least free nonce from the pending one up, and takes exactly that one out of the free nonces above it |
| NonceCells.AcquireFailsIff | internal/nonce/tracker.go:183-246 | Acquire fails if and only if mined > pending, a nonce is tracked and the scanned range holds no gap; then only claims below pending are forgotten |
| NonceCells.HandsOutMinedIff | internal/nonce/tracker.go:183-246 | since the gap scan precedes the check of mined against pending, an already mined nonce is handed out if and only if the scanned range holds a gap below mined |
| NonceCells.ReleaseFrees | internal/nonce/tracker.go:345-404 | Release frees exactly the released nonce, and only if it is the tip or not stored |
| NonceCells.ServeMatches | internal/nonce/tracker.go:74-404 | one step of the refinement: (last, claimed) with the store answers as a set of free nonces does, and still matches it, if views do not go back, mined <= pending, and a published nonce is given back only as the tip |
| NonceCells.SurrenderMatchesIff | internal/nonce/tracker.go:345-404 | giving a nonce back keeps that match if and only if it is below every later view, unpublished, the tip, or not used yet |
| NonceCells.TrackerRefinesFreeSet | internal/nonce/tracker.go:74-404 | over every run that keeps to this discipline, the tracker gives the same answers as an allocator that keeps nothing but the set of free nonces and takes the least one |
| NonceCells.FreshIsAllFree | internal/nonce/tracker.go:32-404 | a fresh tracker starts as the set of all nonces, whatever the store holds, so the refinement holds from the start |
| NonceCells.ResyncHeals | internal/nonce/tracker.go:306-329 | from any state at all, Resync(m, r) with m <= r followed by k acquisitions with that view returns r, r+1, ..., r+k-1, for every gap finder that honours its contract |
| NonceCells.AcquireGapOrTip | internal/nonce/tracker.go:183-276 | an acquisition fills an unstored gap, or there is no gap and it takes the next nonce |
| NonceCells.ChurnRestores | internal/nonce/tracker.go:168-404 | k acquisitions undone in reverse order leave the same free nonces above the view |
| NonceCells.ReleaseRoundTrip | internal/nonce/tracker.go:168-404 | after k acquisitions undone in reverse order, the next acquisition with the same or a later view returns what it would have returned before |
| NonceCells.TipRoundTrip | internal/nonce/tracker.go:214-404 | the same without a gap finder: after k acquisitions undone in reverse order, from any state, the next acquisition with the same or a later view is as before |
| NonceCells.ReleaseTwice | internal/nonce/tracker.go:345-404 | releasing a nonce twice in a row equals releasing it once |
| NonceReuse.UsedNonceStaysUsed | internal/nonce/tracker.go:74-404 | over every sequence of calls with any views, no acquisition returns a used nonce n while nobody releases n, no resync goes to n or below, and no gap finder offers n |
| NonceReuse.ReleasedNonceReturnsIff | internal/nonce/tracker.go:168-404 | a released nonce comes straight back if and only if it was the tip and the view is at it or below; with the store-backed finder, if and only if it is free and no free one of the range comes first |
| NonceTracker.Tracker.GetClaimedGaps | internal/nonce/tracker.go:44-52 | returns the claimed set of the pair and makes sure that it exists, without changing what is tracked |
| NonceTracker.Tracker.ClaimGap | internal/nonce/tracker.go:54-57 | adds one claim to the pair, and nothing to any other pair |
| NonceTracker.Tracker.UnclaimGap | internal/nonce/tracker.go:61-64 | removes one claim of the pair, and nothing from any other pair |
| NonceTracker.Tracker.KeepClaims | internal/nonce/tracker.go:191-196 | the delete loop keeps exactly the claims inside the range; the other use is at lines 317-322 |
| NonceTracker.Tracker.SetPendingNonce | internal/nonce/tracker.go:74-111 | raises the last used nonce and never lowers it; no other pair changes |
| NonceTracker.Tracker.GetPendingNonce | internal/nonce/tracker.go:115-127 | one more than the last used nonce, or nothing |
| NonceTracker.Tracker.FillGap | internal/nonce/tracker.go:183-212 | the gap check under the lock: it prunes claims below pending and claims the gap it finds |
| NonceTracker.Tracker.AcquireNonce | internal/nonce/tracker.go:168-299 | result and new state of the pair are those of the acquisition function above; no other pair changes |
| NonceTracker.Tracker.ResyncFromRemote | internal/nonce/tracker.go:306-329 | the pair moves to the chain's next nonce, backwards too, and loses the claims from there up; no other pair changes |
| NonceTracker.Tracker.ReleaseNonce | internal/nonce/tracker.go:345-404 | the claim goes, and the last used nonce steps back only if it is the released one; no other pair changes |
| NonceTracker.FindNonceGap | manager_nonce.go:86-102 | the scanning loop returns the first unclaimed and unstored nonce, or shows that there is none |
| NonceCallers.AcquireClaims | internal/nonce/tracker.go:168-299 | an acquired nonce is claimed and behind the tip; it is new, or was an unclaimed gap; other claims survive unless a scan drops them for being below pending |
| NonceCallers.StepKeepsGuarded | manager_nonce.go:36-78 | fetching, entering, giving back and registering keep every held nonce claimed or below every view that may scan again |
| NonceCallers.HeldNoncesAreUnique | manager_nonce.go:36-78 | over every interleaving of callers with stale views no two hold the same nonce, if no resync happens, holders release once, and views that enter with a gap finder do not go back |
| NonceCallers.OldViewTakesHeldIff | internal/nonce/tracker.go:183-212 | a stale view is given a nonce that is in use if and only if that nonce has lost its claim, is not stored, and is the first such one of the range |
| NonceCallers.OldViewBreaksUniqueness | manager_nonce.go:36-78 | a concrete run in which two callers hold nonce 0 because one of them entered with an old view |
| NonceCallers.ResyncKeepsGuardedIff | internal/nonce/tracker.go:306-329 | a resync keeps callers safe if and only if every held nonce is below the chain's next |
| NonceCallers.ResyncReissues | internal/nonce/tracker.go:306-329 | otherwise a held nonce is handed out again, after a known number of acquisitions |
| NonceCallers.SecondReleaseBreaksUniqueness | internal/nonce/tracker.go:345-404 | if someone acquires a nonce between its two releases, a third caller is given the same nonce |
| TxMonitor.MonitorTxContext | manager_tx.go:227-312 | the goroutine sends at most one status, the one that the order of its signals determines |
| TxMonitor.ArmedWatch | manager_tx.go:290-306 | once the timer is armed, the first timer or cancellation signal decides and everything from the monitor is ignored |
| TxMonitor.WatchByFirstAnswer | manager_tx.go:260-306 | over every order of signals, the first one that is not a timer decides: done is mined with its receipt, reverted is reverted with its receipt, lost is lost, a cancellation is cancelled, and anything else arms the timer |
| TxMonitor.OnlyTimersMeansSilence | manager_tx.go:260-306 | the slow timer cannot fire before the monitor has answered |
| TxMonitor.WatchIsSignalled | manager_tx.go:272-306 | a cancellation, a loss, a slow timer or a receipt is reported only if it was signalled, the receipt being the one signalled |
| TxMonitor.WatchStatuses | manager_tx.go:227-312 | slow is sent only after a non-terminal answer, after one only slow or cancelled is sent, and an unknown status never is: the default branch at lines 1426-1441 is dead |
| WalletManager.ExecutionContext.Fresh | execution_context.go:106-147 | the constructor sanitises the limits and starts with the given prices and no nonce |
| WalletManager.ExecutionContext.Resume | manager_tx.go:1533-1575 | a resumed context holds the old transaction, its nonce and its prices |
| WalletManager.NewTxExecutionContext | execution_context.go:87-147 | fails exactly without a sender or without a network; otherwise the context is a fresh one |
| WalletManager.ExecutionContext.BumpGasForSlowTx | execution_context.go:152-183 | applies both bumps and the nonce, or changes nothing when a limit forbids it |
| WalletManager.FindCompletedTx | manager_tx.go:764-770 | the first completed old transaction met, or none is completed |
| WalletManager.FindBestPending | manager_tx.go:773-784 | a pending old transaction of the highest price; one priced 0 is never picked |
| WalletManager.CountAtNonce | manager_tx.go:1144-1149 | the number of old transactions at the nonce |
| WalletManager.Manager.AcquireNonce | manager_nonce.go:36-78 | acquires through the tracker with the gap finder only if there is a transaction store; without a view nothing changes |
| WalletManager.Manager.ResyncNonceFromChain | manager_nonce.go:106-124 | resyncs through the tracker; without an answer the tracker stays as it is |
| WalletManager.Manager.Price | manager_tx.go:80-99 | the tip is never above the price, which is the price with its extra or the tip |
| WalletManager.Manager.BuildTx | manager_tx.go:19-103 | the built transaction or the error, and every acquisition and release on the way, are those of the round function |
| WalletManager.Manager.HandleGasEstimationFailure | manager_tx.go:752-836 | a completed old transaction ends the run, the dearest pending one is monitored, and otherwise the attempt counts |
| WalletManager.Manager.HandleEthCallRevertFailure | manager_tx.go:690-749 | releases the nonce on every exit, and keeps it in the state for a retry |
| WalletManager.Manager.HandleReplacementUnderpricedError | manager_tx.go:1130-1190 | a foreign transaction at the nonce drops the nonce, an own one bumps or stops at the limit |
| WalletManager.Manager.HandleNonceGapError | manager_tx.go:1194-1212 | resyncs, drops the nonce and retries |
| WalletManager.Manager.HandleNonceIsLowError | manager_tx.go:1215-1265 | ends with a completed old transaction, or counts, resyncs and drops the nonce; with no statuses it only counts |
| WalletManager.Manager.HandleBroadcastError | manager_tx.go:1046-1117 | dispatches the verdict to the handlers |
| WalletManager.Manager.HandleOtherBroadcastError | manager_tx.go:1066-1116 | a known transaction is retried for free; the others count, resync when retries are exhausted, and keep the nonce |
| WalletManager.Manager.SignAndBroadcastTransaction | manager_tx.go:843-1043 | exits before the broadcast release the nonce; every signed transaction whose broadcast was tried is tracked, unless the context is cancelled in flight |
| WalletManager.Manager.ExecuteTransactionAttempt | manager_tx.go:603-688 | build, simulate, sign and broadcast, with the release on each failing path |
| WalletManager.Manager.HandleTransactionStatus | manager_tx.go:1311-1442 | which statuses end the run, bump the gas, keep waiting or count |
| WalletManager.Manager.ReleaseOrResync | manager_tx.go:511-526 | the deferred guard: release State.Nonce if nothing is tracked, otherwise resync |
| WalletManager.Manager.AwaitStatus | manager_tx.go:575-598 | waits for one status and handles it; a cancellation ends the run |
| WalletManager.Manager.RunRound | manager_tx.go:528-599 | one iteration of the loop, with other callers of the tracker acting before its acquisition, after it, and before the deferred guard |
| WalletManager.Manager.ExecuteTransactionLoop | manager_tx.go:497-600 | the whole loop against a script of answers; it touches no other pair of the tracker |
| WalletManager.Manager.EnsureTx | manager_tx.go:421-491 | a new transaction runs the loop from a fresh context, so every claim about submitted jobs is about it; a nil error or ErrTxReverted comes with a transaction it signed and the receipt that says so |
| WalletManager.Manager.ResumePendingTransaction | manager_tx.go:1493-1580 | a pending transaction runs the loop from a resumed context, with default limits of five times its own prices; a nil error or ErrTxReverted comes with that transaction or one it signed and the receipt that says so |
| RetryRounds.UnbuiltIff | manager_tx.go:42-78 | nothing is built if and only if the gas cannot be estimated, else there is no nonce to be had, else there is no price; each with its own error |
| RetryRounds.BuiltExactly | manager_tx.go:42-102 | the built transaction has the kept nonce or the acquired one, the set gas limit or the estimate with the extra, the set tip or the suggested one with its extra, and the set price or the suggested one with its extra unless the tip is higher |
| RetryRounds.BuiltCell | manager_tx.go:34-67 | building takes a nonce from the tracker only if none was kept, and gives it back if no price can be had |
| RetryRounds.CancelledRound | manager_tx.go:528-549 | a cancellation before the attempt ends the run and cleans up; during the sleep it is noticed only after a counted attempt and with nothing to resume |
| RetryRounds.ResumedRound | manager_tx.go:553-598 | with a transaction to resume the round watches that one and clears it |
| RetryRounds.AwaitWatches | manager_tx.go:1311-1442 | what watching a transaction comes to: a receipt ends the run; a mined nonce above its own ends it as consumed; lost, or slow with the mined nonce equal to its own, bumps price, tip and nonce or stops at a limit; otherwise slow keeps it to be watched again |
| RetryRounds.UnestimatedRound | manager_tx.go:752-836 | a gas estimation that fails ends the run with the first completed old transaction; failing that it watches the dearest pending one; failing that the hook may end the run or set the gas, and the attempt counts |
| RetryRounds.UnbuiltRound | manager_tx.go:621-631 | without a nonce or a price the run ends with that error |
| RetryRounds.UnsimulatedRound | manager_tx.go:643-749 | a failing simulation gives the nonce back and ends the run, except that a revert with attempts left keeps the nonce and the gas of the transaction and retries |
| RetryRounds.UnsentRound | manager_tx.go:844-889 | what is given up before it is sent ends the run with the error of its cause and gives the nonce back unless the unsigned hash is tracked; a missing broadcaster is at lines 909-916 |
| RetryRounds.CutOffRound | manager_tx.go:957-964 | a synchronous broadcast cancelled in flight ends the run, tracks nothing and releases nothing itself |
| RetryRounds.SentIsJudged | manager_tx.go:923-969 | a broadcast is either refused with one verdict or accepted |
| RetryRounds.AcceptedRound | manager_tx.go:966-1043 | an accepted transaction is tracked and registered; a failing hook ends the run, a receipt that came at once ends it as mined, and otherwise the transaction is watched |
| RetryRounds.RefusedRound | manager_tx.go:1046-1265 | for each verdict, with which nonce, prices, count of attempts and tracker the run goes on or ends; an underpriced replacement is an own one exactly if another tracked transaction has its nonce; a nonce too low ends the run with the first completed tracked transaction if there is one |
| RetryRuns.ReportsMinedIff | manager_tx.go:528-599 | a round reports a mined transaction if and only if it finds a completed old one after a failed estimation or a nonce too low, is handed a receipt by a synchronous broadcast, or is told of one while it watches |
| RetryRuns.RunReportsMinedIff | manager_tx.go:497-600 | the same for every run, read off its last round |
| RetryRuns.CompletedEndsRun | manager_tx.go:1230-1240 | from any loop head, a round that finds a completed old transaction is the last: the run returns the first one found with its own receipt; the error is nil exactly if the hook succeeds and the receipt has not failed; the other search is at lines 763-770 |
| RetryRuns.StatusDecides | manager_tx.go:1316-1425 | for a lost or slow transaction the mined nonce, its own nonce and the limits decide between giving up with nothing changed, waiting with nothing changed but what is to be resumed, and a bump by exactly the two factors |
| RetryRuns.WatchingDoesNothing | manager_tx.go:553-598 | a round with a transaction to resume acquires, builds, signs and sends nothing |
| RetryRuns.WaitingChangesNothing | manager_tx.go:1382-1401 | however many rounds a transaction that blocks nobody is slow, the run keeps watching that one: nonce, prices and attempts stay, and nothing is acquired, built, signed or sent |
| RetryRuns.SlowWaits | manager_tx.go:1382-1401 | a watched transaction that is slow and blocks nobody is the one to be resumed |
| RetryRuns.RevertsAddGas | manager_tx.go:738-744 | k retries after a reverted simulation leave a gas limit that has grown by k times the extra gas, with k attempts counted and the same nonce |
| RetryTheorems.JobsAreConfigured | execution_context.go:106-147 | what a job runs with: unset limits become five times the first price and tip, unset factors 1.2 and 1.1, a negative retry count 0; a resumed job has nine retries unless set, no extras, and always simulates; manager_tx.go lines 1519-1556 |
| RetryTheorems.DefaultCeilings | execution_context.go:152-183 | with nothing set, after every bump of every run the price is 1.2 times and the tip 1.1 times that of the bumped transaction, and neither exceeds five times the first one |
| RetryTheorems.ResumedJobWatchesFirst | manager_tx.go:1538-1575 | a resumed job first watches its transaction, with the stored nonce, prices and gas, and acquires, builds, signs and sends nothing in that round |
| RetryTheorems.StartsWell | manager_tx.go:421-491 | both entries establish the invariants of all the claims below; the other entry is at lines 1493-1580 |
| RetryTheorems.HeadIsCut | manager_tx.go:528-599 | what holds after every script holds at every loop head |
| RetryTheorems.RunIsPaidFor | manager_tx.go:528-599 | in every run there are at most 1 + MaxAttempts + bumps + free rounds iterations, and AttemptCount is within 0 and MaxAttempts at every loop head |
| RetryTheorems.AtMostEightBumps | manager_tx.go:1526-1532 | with a fixed gas limit above 0, no negative extra price, factor 1.2, the default price limit and a start price above 0, no run bumps more than 8 times; for new transactions the limit is set in execution_context.go lines 123-134 |
| RetryTheorems.AnyNumberOfBumps | manager_tx.go:752-798 | without a gas limit the same job has, for every k, a run of k bumps, if its first bump is within the limits |
| RetryTheorems.NoBumps | execution_context.go:152-183 | if its first bump is not within the limits, no run of the job ever bumps |
| RetryTheorems.EightBumpsIff | manager_tx.go:497-600 | so 8 bounds the bumps of every run if and only if the job fixes a gas limit or its first bump exceeds the limits |
| RetryTheorems.DefaultRunLength | manager_tx.go:528-599 | a run with those settings and a fixed gas limit takes at most 9 + MaxAttempts iterations and one for each free round |
| RetryTheorems.FewNoncesAreSigned | manager_tx.go:497-600 | in every run the nonces signed with, and the resumed one, are at most 1 + the nonce-gap, nonce-low and foreign-underpriced verdicts |
| RetryTheorems.OneNonceWithoutResets | manager_tx.go:497-600 | without such verdicts all transactions that the run signed or resumed share one nonce, so at most one can be included (section 6 of the Ethereum Yellow Paper) |
| RetryTheorems.NoncesAreGivenBack | manager_tx.go:501-526 | at every loop head before a broadcast the run holds exactly State.Nonce; an exit with an error has released everything or attempted a resync, except for a fresh nonce cancelled during a synchronous broadcast |
| RetryTheorems.WrongReleasesIff | manager_tx.go:504-526 | every wrong release of every job and script: a nonce neither held nor in use is released once, exactly if the last round met the guard of the doubly releasing branches, and a nonce with which a transaction is tracked or was sent once, exactly if it met the guard of the branches that release without asking or that of a broadcast cancelled in flight; otherwise never |
| RetryReleases.RoundReleases | manager_tx.go:603-688 | the same for one round; a round that meets a guard is the last one |
| RetryReleases.RunReleases | manager_tx.go:497-600 | the same from any loop head |
| RetryWitnesses.TwoRoundsReleaseTwice | manager_tx.go:511-526 | two rounds that release nonce 0 twice: another caller took it in between, and a third one is given it again |
| RetryWitnesses.NonceInFlightIsReissued | manager_tx.go:957-964 | two rounds after which the tracker hands out a nonce whose synchronous broadcast was cancelled while it was under way; the deferred guard at lines 511-526 has released it |
| RetryWitnesses.RefusedNonceIsShared | manager_tx.go:1194-1212 | eight turns of two runs after which both have sent with nonce 1, although only the resync after a nonce gap has not passed a nonce in use, and it has passed all but the refused one |
| RetryWitnesses.PublishedNonceIsReissued | manager_tx.go:633-668 | two rounds after which the tracker hands out a nonce whose transaction was broadcast, accepted and registered, even if the store is known to hold it |
| RetryWitnesses.ResumedNonceIsReleased | manager_tx.go:633-668 | a resumed run that releases the nonce of the transaction it resumed, in any tracker state |
| RetryTheorems.FailedRunLeavesNoTrace | manager_tx.go:501-526 | a run that fails with nothing tracked gives the tracker back: while nobody else uses it, the next caller gets the nonce it would have got without the run |
| RetryTheorems.OutcomesAreTrue | manager_tx.go:497-600 | a nil error comes with a tracked transaction that this run signed or resumed and its unfailed receipt; ErrTxReverted comes with such a transaction and its failed receipt |
| RetryTheorems.PricesAreRight | manager_tx.go:69-84 | every transaction of every run has tip <= price, as the Specification section of EIP-1559 requires; after a bump its price and tip have grown by their factors and exceed the limits by the extras at most |
| RetryLength.IterateWork | manager_tx.go:528-599 | a round that does not end the run costs exactly one attempt, one bump or one free event |
| RetryLength.RunLength | manager_tx.go:528-599 | so the number of rounds of any run equals its work, up to the last round |
| RetryNonces.AcceptedNonceStaysUsed | manager_tx.go:122-134 | after a broadcast is accepted and registered, over every sequence of tracker calls, its nonce is not acquired again until someone releases it, resyncs to it or below, or a gap finder offers it |
| RetryNonces.FailureKeepsNonces | manager_tx.go:1046-1265 | a refused broadcast tracks nothing new and keeps the nonce, unless a reset pays for another |
| RetryNonces.IterateDrift | manager_tx.go:528-599 | one iteration keeps the nonce budget: a reset pays for the next nonce before it is signed |
| RetryNonces.NonceDrift | manager_tx.go:497-600 | the nonce budget over whole runs, from any loop head |
| RetryNonces.ResetTakesPending | manager_tx.go:1194-1265 | after a nonce gap, or a nonce too low with nothing completed, an answered resync makes the next round use the chain's pending nonce, whatever the tracker believed |
| RetryOwnership.BuildOwns | manager_tx.go:29-40 | building holds exactly the nonce it returns, and a failed build holds what was held before |
| RetryOwnership.AttemptOwns | manager_tx.go:603-688 | what an attempt that started with nothing tracked still holds, on each kind of exit |
| RetryOwnership.IterateOwns | manager_tx.go:501-526 | one iteration keeps ownership, and each kind of exit gives back what it should |
| RetryOwnership.NonceOwnership | manager_tx.go:497-600 | ownership over whole runs, from any loop head |
| RetryRestores.IterateRestores | manager_tx.go:501-526 | one undisturbed iteration has taken State.Nonce and nothing else from the tracker, and an exit has undone that |
| RetryRestores.RunRestores | manager_tx.go:497-600 | the same over whole runs |
| RetryRestores.UndoneIsInvisible | internal/nonce/tracker.go:168-404 | a nonce taken and released, once or twice, is invisible to every later acquisition |
| RetryOutcomes.AttemptHonest | manager_tx.go:603-688 | an attempt tracks only what it signed, under its own hash, and reports only what is tracked |
| RetryOutcomes.IterateHonest | manager_tx.go:528-599 | one iteration keeps every tracked transaction genuine, and its result is true |
| RetryOutcomes.OutcomeSoundness | manager_tx.go:497-600 | outcomes over whole runs, from any loop head |
| RetryPrices.IteratePriced | manager_tx.go:528-599 | one iteration keeps the retry state equal to the last bump, and prices what it builds rightly |
| RetryPrices.PriceCeilingAndGrowth | execution_context.go:152-183 | pricing over whole runs, from any loop head |
| RetryPrices.BumpClimbs | execution_context.go:161-182 | a bump multiplies the price reached so far by at least the factor and stays within the limit |
| RetryPrices.IterateClimbs | manager_tx.go:528-599 | one iteration keeps start * factor^bumps below the current price |
| RetryPrices.BumpCountBound | execution_context.go:152-183 | k bumps from a start price p > 0 imply p * f^k <= MaxGasPrice, for every run with a fixed gas limit, f > 1 and extras >= 0 |
| RetryBumps.StuckForEver | manager_tx.go:752-798 | a run whose estimation keeps failing falls back on the transaction it tracks and bumps from its price again, any number of times |
| RetryBumps.RunNeverBumps | execution_context.go:152-183 | a run that may not bump what it would build or what it tracks never bumps |
| RetryCrowd.RoundIsThreeVisits | manager_tx.go:528-599 | a round visits the tracker at most three times: to acquire, to release, register or resync what came of it, and through the deferred guard; with others acting in between, the visits make up the round |
| RetryCrowd.FirstVisitSafe | manager_nonce.go:36-78 | an acquisition takes a nonce that nobody uses, and keeps fenced what others use |
| RetryCrowd.SecondVisitSafe | manager_tx.go:603-688 | what comes of the acquisition uses nothing that others use, and lets the tracker hand out nothing in use |
| RetryCrowd.ThirdVisitSafe | manager_tx.go:511-526 | so does the deferred guard |
| RetryCrowd.CrowdStaysApart | manager_tx.go:497-600 | that holds over every interleaving, call by call, of any number of runs on one tracker |
| RetryCrowd.RunsNeverShareANonce | manager_tx.go:497-600 | two different runs never send transactions with the same nonce, cancelled in flight or not, unless one releases wrongly, a resync falls behind a nonce in use, or a view goes back while gaps are scanned |
| CircuitBreaker.HistoryTellsState | internal/circuitbreaker/circuitbreaker.go:99-191 | the counters and the state are those that the event history determines: trailing failures, successes since the breaker last closed, open since a long enough run of failures; a closed breaker has fewer failures in a row than the threshold |
| CircuitBreaker.OpenUnfolds | internal/circuitbreaker/circuitbreaker.go:147-191 | the breaker is open if and only if it has just tripped, or was open and has not just healed |
| CircuitBreaker.RefusesIff | internal/circuitbreaker/circuitbreaker.go:99-126 | a request is refused if and only if the breaker is open and the last failure lies within Timeout |
| CircuitBreaker.RefusalNeedsFailures | internal/circuitbreaker/circuitbreaker.go:109-166 | a refusal means a run of at least FailureThreshold failures that nothing has healed since |
| CircuitBreaker.SuccessClosesIff | internal/circuitbreaker/circuitbreaker.go:129-144 | a success closes an open breaker if and only if Timeout has passed since the last failure and at least SuccessThreshold successes have followed it |
| CircuitBreaker.CircuitBreaker.constructor | internal/circuitbreaker/circuitbreaker.go:73-88 | non-positive settings become 5, 2 and 30 seconds |
| CircuitBreaker.CircuitBreaker.Allow | internal/circuitbreaker/circuitbreaker.go:109-126 | refuses exactly when the history says so |
| CircuitBreaker.CircuitBreaker.RecordSuccess | internal/circuitbreaker/circuitbreaker.go:129-144 | the fields stay those of the history, extended by the success |
| CircuitBreaker.CircuitBreaker.RecordFailure | internal/circuitbreaker/circuitbreaker.go:147-166 | the fields stay those of the history, extended by the failure |
| CircuitBreaker.CircuitBreaker.Reset | internal/circuitbreaker/circuitbreaker.go:169-176 | the fields stay those of the history, extended by the reset |
| Idempotency.CreateRemembers | idempotency/idempotency.go:136-158 | a successful Create keeps executions spaced and the latest one remembered |
| Idempotency.FinishRemembersIff | idempotency/idempotency.go:161-172 | an Update keeps the latest execution remembered if and only if it does not overwrite a live record of a later one |
| Idempotency.OverwritingBreaksSpacing | request.go:264-318 | and if it does, two more steps of another request execute the key again too soon |
| Idempotency.PunctualNeverOverwrites | idempotency/idempotency.go:161-172 | an Update that comes before its record expires overwrites nothing |
| Idempotency.RunRemembers | request.go:264-318 | over every interleaving with punctual updates the store remembers the latest live execution of every key |
| Idempotency.AtMostOnce | request.go:264-318 | with ttl 0 and no Delete, over every interleaving of requests a key is executed at most once |
| Idempotency.ExecutionsAreSpaced | request.go:264-318 | with a ttl and punctual updates, two executions of one key start more than ttl apart |
| Idempotency.LateUpdateBreaksSpacing | request.go:264-318 | a concrete run with a late Update: executions at times 0, 11 and 13 with a ttl of 10 |
| Idempotency.InMemoryStore.Get | idempotency/idempotency.go:118-133 | returns the record unless it is missing or expired |
| Idempotency.InMemoryStore.Create | idempotency/idempotency.go:136-158 | returns the live record as a duplicate, or replaces an expired one by a fresh pending record |
| Idempotency.InMemoryStore.Update | idempotency/idempotency.go:161-172 | stores the record back with its own creation time, or reports that the key is gone |
| Idempotency.InMemoryStore.Cleanup | idempotency/idempotency.go:199-209 | the sweep removes exactly the expired records |
| Idempotency.KeepOutcome | request.go:296-311 | the record holds transaction, receipt and error; it is failed exactly with an error, else confirmed exactly with a receipt, else submitted |
| Idempotency.ExecuteWithIdempotency | request.go:264-318 | executes exactly if Get finds nothing and Create is not a duplicate; a record that is found is answered from, as a duplicate exactly while pending or submitted and with its error exactly if failed; after an execution the record holds its outcome and no other record has changed |
| IdempotentAnswers.TurnsInform | request.go:264-318 | over every interleaving with punctual updates each execution is running or done, and the live record of a key has the outcome of the execution that created it exactly once that is done |
| IdempotentAnswers.RequestsSeeTheExecution | request.go:264-318 | so until the record of an execution expires, every other request for its key is answered as a duplicate while it runs, and what it came to once it is done, and none is executed |
| Recovery.ReconciledNext | recovery.go:51-119 | for each key the next nonce becomes the maximum of the old one and everything persisted or seen for it; claims are not touched |
| Recovery.OneStatePerKey | recovery.go:87-106 | for a key with one state the highest target is the largest of the persisted, the mined and the pending nonce |
| Recovery.RecoveryReissuesIff | recovery.go:87-106 | after a crash the nonce that an acquisition persisted is handed out again if and only if the pending nonce has not moved past it and, with a transaction store, no gap comes first; persisted at manager_nonce.go lines 144-151 |
| Recovery.DropKeepsUnmined | recovery.go:108-113 | only the key's own reservations below the mined nonce are dropped |
| Recovery.StatesAddUp | recovery.go:57-118 | every nonce state is reconciled or is an error, and the errors are those met |
| Recovery.TallyCounts | recovery.go:131-197 | pending records are counted as recovered, done and reverted ones as mined, unknown ones and those of no use as dropped, and each failed lookup is an error |
| Recovery.StoredAsSeen | recovery.go:131-197 | what was found out about a listed transaction is what is stored about it: mined, reverted or dropped; a pending one, a failed lookup and an unlisted one change nothing |
| Recovery.TallyAddsUp | recovery.go:131-197 | every pending record is recovered, mined, dropped or an error |
| Recovery.RecoveryHandler.RaiseToTarget | recovery.go:87-106 | the three-way maximum goes to the tracker as the last used nonce, if it is positive |
| Recovery.RecoveryHandler.ClearConfirmed | recovery.go:108-113 | the confirmed reservations of the key are gone |
| Recovery.RecoveryHandler.HandleState | recovery.go:58-118 | one state is an error, or raises the tracker, clears its reservations and is counted; no other pair changes |
| Recovery.RecoveryHandler.ReconcileNonceState | recovery.go:51-119 | counters, errors, reservations and every pair of the tracker after the states handled before a cancellation |
| Recovery.RecoveryHandler.ProcessPendingTransactions | recovery.go:122-198 | counters, errors and stored statuses after the records handled before a cancellation |
| Recovery.RecoveryHandler.Recover | recovery.go:30-48 | uncancelled, the result accounts for every nonce state and every pending record |
| FundDistribution.TransferCount | examples/fund_distribution/transfer_strategy.go:42-73 | there are fewer transfers than wallets to settle |
| FundDistribution.TransfersAreProper | examples/fund_distribution/transfer_strategy.go:42-73 | every amount is positive and goes from a surplus wallet to a deficit wallet |
| FundDistribution.NoOverspending | examples/fund_distribution/transfer_strategy.go:42-73 | no sender sends more than its surplus |
| FundDistribution.EvenIffNoSplit | examples/fund_distribution/transfer_strategy.go:42-73 | everybody ends even if and only if the totals are equal and every receiver but the last is paid by one sender |
| FundDistribution.NoSplitIffAligned | examples/fund_distribution/transfer_strategy.go:42-73 | that is so exactly when each partial sum of the surpluses before the last deficit is a partial sum of the deficits |
| FundDistribution.TransfersAreSound | examples/fund_distribution/transfer_strategy.go:17-75 | the three claims above in terms of wallets and balances; no wallet both sends and receives |
| FundDistribution.ReachesTargetIff | examples/fund_distribution/transfer_strategy.go:14-75 | the transfers reach the target if and only if the totals are equal and the partial sums are aligned |
| FundDistribution.OneDeficitReachesTarget | examples/fund_distribution/transfer_strategy.go:14-75 | with one deficit wallet and equal totals they reach it |
| FundDistribution.TwoDeficitsCanMiss | examples/fund_distribution/transfer_strategy.go:14-75 | two senders and two receivers whose target is missed: the first receiver gets 3 instead of 2 |
| FundTransfers.MinBig | examples/fund_distribution/transfer_strategy.go:78-83 | returns one of its arguments, not a copy |
| FundTransfers.ComputeDifferences | examples/fund_distribution/transfer_strategy.go:24-39 | one fresh cell for each wallet, and the wallets above and below their targets in order |
| FundTransfers.PayOnce | examples/fund_distribution/transfer_strategy.go:50-63 | the recorded amount is the smaller of surplus and need, but when it is the surplus the receiver's cell does not change, because the amount is the sender's cell |
| FundTransfers.PaidQueues | examples/fund_distribution/transfer_strategy.go:46-71 | one turn of the loop on the cells is one step of the settlement on values |
| FundTransfers.MatchSurplusesAndDeficits | examples/fund_distribution/transfer_strategy.go:42-74 | the two-pointer loop on cells produces exactly the settlement on values |
| FundTransfers.FindTransfers | examples/fund_distribution/transfer_strategy.go:17-75 | the whole function returns exactly the transfers that the claims above are about |

## Left out

- Network readers, broadcasters, factories, network resolution, signing and account unlocking: each round takes their answers as inputs.
- Matching of error texts, ABI decoding and the decoded parts of errors: a broadcast verdict is one of nine values, and joined errors keep only the sentinel a caller tests for.
- Conversion between wei and gwei, floating-point rounding and BuildExactTx: prices are exact reals, a transaction is its hash, nonce, fee cap, tip and gas, and legacy transactions are not modelled.
- The width of uint64 and int64: nonces and gas are natural numbers, so wrap-around is not captured.
- Clocks, sleeping, logging, tickers and goroutines below the granularity of a lock: time is an input, and a method body stands for the section under the lock.
- Defaults, setters, deprecated aliases, Stats, Size, State and Stop, and the texts of decision reasons: they would only add easy members.
- TxStore and NonceStore implementations: they are lookups, sets and maps here.
- Hash agreement between a signed transaction and its parts: signing may return any hash, so two signatures may share one, which only widens the runs covered.
- The loop that recovery resumes concurrently for pending transactions: it is `WalletManager.Manager.ResumePendingTransaction`.
- WalletManager.Manager.ExecuteTransactionLoop: runs are finite scripts; that the loop ends is not claimed, because free rounds can go on for ever.
- RetryCrowd.RunsNeverShareANonce: a resync has to pass the run's own refused transactions too, although a node that refuses one may have dropped it: after a resync below a refused nonce two runs can send with it (`RetryWitnesses.RefusedNonceIsShared`), and the refused run can come back to its transaction when a node reports it pending (manager_tx.go lines 773-798).
- A broadcaster that fails before it hands the transaction on: the transaction counts as sent, as one does that may be on its way.
- NonceCells.ServeMatches: it assumes that views do not go back and that a published nonce is given back only as the tip, which the retry loop does not keep to; `NonceCells.SurrenderMatchesIff` and `NonceCallers.OldViewTakesHeldIff` say what happens otherwise.
- NonceCells.TrackerRefinesFreeSet: it assumes the same, and in its runs the store's lookups succeed; a failed lookup counts as stored in `NonceCells.AcquireIsLeastFree` and the other one-call claims.
- WalletManager.ExecutionContext.Fresh: the fallbacks for durations and for a missing value (execution_context.go lines 111-122) are not modelled, because nothing here depends on them.
- WalletManager.NewTxExecutionContext: the same fallbacks are not modelled.
- WalletManager.Manager.AcquireNonce: the persisted acquisition (manager_nonce.go lines 74-75) is not recorded; what it means for a restart is `Recovery.RecoveryReissuesIff`.
- WalletManager.Manager.ReleaseNonce: the persisted release (manager_nonce.go line 133) is not recorded.
- WalletManager.Manager.RegisterBroadcastedTx: storing and persisting the transaction (manager_tx.go lines 129-132) is not recorded; what the store answers later is an input.
- WalletManager.Manager.HandleMinedTx: the persisted status (manager_tx.go lines 1271-1284) is not recorded.
- CircuitBreaker.CircuitBreaker.SetState: the callback on a change of state is not modelled.
- Idempotency.ExecuteWithIdempotency: the request is alone on the store while it executes; interleaved requests are `Idempotency.AtMostOnce`, `Idempotency.ExecutionsAreSpaced` and `IdempotentAnswers.RequestsSeeTheExecution`.
- Recovery.RecoveryHandler.ProcessPendingTransactions: callbacks and the concurrent resumption (recovery.go lines 172-189) are not modelled.
- RetryTheorems.OutcomesAreTrue: a report of a mined transaction carries a receipt; the source would fail on a missing one.
- RetryTheorems.FailedRunLeavesNoTrace: it speaks of undisturbed runs with views in which mined does not exceed pending; disturbed ones are what `NonceCallers` is about.
- Idempotency.AtMostOnce: Delete is left out of the interleavings, since it forgets executions on purpose.
- Order in which the runtime ranges over a map: it is an input of each round, and deletions in a loop take any order.
