/** How many nonces a run of the retry loop signs with. */
module RetryNonces {
  import opened Options
  import opened NonceCells
  import opened NonceReuse
  import opened TxMonitor
  import opened RunHistory
  import opened RetrySpec
  import opened RetryFrames

  /** The nonces that this run has signed with, and the resumed one. */
  function Known(origin: set<nat>, run: Run): set<nat> {
    origin + SignedNonces(run.log)
  }

  ghost predicate Tracked(origin: set<nat>, run: Run) {
    && (forall h <- run.state.oldTxs :: run.state.oldTxs[h].nonce in Known(origin, run))
    && (run.state.resumeWith.Some? ==> run.state.resumeWith.value.nonce in Known(origin, run))
  }

  /** At a loop head: a reset pays for the next fresh nonce before it is signed. */
  ghost predicate Drift(origin: set<nat>, run: Run) {
    && Tracked(origin, run)
    && |Known(origin, run)| <= 1 + NonceResets(run.log)
    && (run.state.nonce.Some? ==> |Known(origin, run) + {run.state.nonce.value}| <= 1 + NonceResets(run.log))
    && (run.state.nonce.None? && run.state.resumeWith.None? ==> |Known(origin, run)| <= NonceResets(run.log))
  }

  /** While a transaction is monitored the run may be between nonces. */
  ghost predicate Watching(origin: set<nat>, run: Run, tx: Tx) {
    && Tracked(origin, run)
    && run.state.resumeWith.None?
    && tx.nonce in Known(origin, run)
    && |Known(origin, run)| <= 1 + NonceResets(run.log)
    && (run.state.nonce.Some? ==> |Known(origin, run) + {run.state.nonce.value}| <= 1 + NonceResets(run.log))
  }

  ghost predicate FewNonces(origin: set<nat>, run: Run) {
    |Known(origin, run)| <= 1 + NonceResets(run.log)
  }

  lemma GrowByOne(s: set<nat>, n: nat)
    ensures |s + {n}| <= |s| + 1
    ensures n in s ==> s + {n} == s
  {
    if n !in s {
      assert |s + {n}| == |s| + 1;
    } else {
      assert s + {n} == s;
    }
  }

  /** From one run to a later one: nothing new is signed, and the nonce is kept, or is the one
      just tried, or is paid for by a reset. */
  ghost predicate KeepsNonces(run: Run, tx: Tx, after: Run) {
    && after.state.oldTxs == run.state.oldTxs
    && SignedNonces(after.log) == SignedNonces(run.log)
    && NonceResets(after.log) >= NonceResets(run.log)
    && (after.state.nonce == Some(tx.nonce) || after.state.nonce == run.state.nonce || after.state.nonce.None?)
  }

  lemma KeepsNoncesDrift(origin: set<nat>, run: Run, tx: Tx, after: Run)
    requires Watching(origin, run, tx) && KeepsNonces(run, tx, after)
    ensures FewNonces(origin, after)
    ensures
      && (after.state.resumeWith.None? || after.state.resumeWith == Some(tx))
      && (after.state.nonce == Some(tx.nonce) || after.state.resumeWith.Some?
          || NonceResets(after.log) > NonceResets(run.log))
      ==> Drift(origin, after)
  {
    GrowByOne(Known(origin, run), tx.nonce);
  }

  lemma FailureKeepsNonces(cfg: Config, run: Run, tx: Tx, verdict: Verdict, w: Round)
    ensures var (after, result) := BroadcastFailure(cfg, run, tx, verdict, w);
            && KeepsNonces(run, tx, after)
            && !result.Monitor?
            && after.state.resumeWith == run.state.resumeWith
            && (result.Retry? ==> after.state.nonce == Some(tx.nonce) || NonceResets(after.log) > NonceResets(run.log))
  {
    hide BroadcastFailure;
    FailureFrame(cfg, run, tx, verdict, w);
    FailureNonce(cfg, run, tx, verdict, w);
  }

  lemma StatusKeepsNonces(cfg: Config, run: Run, tx: Tx, status: TxStatus, w: Round)
    requires !status.Unknown? && !status.Cancelled?
    ensures var (after, result) := TransactionStatus(cfg, run, tx, status, w);
            && KeepsNonces(run, tx, after)
            && !result.Monitor?
            && (after.state.resumeWith == run.state.resumeWith || after.state.resumeWith == Some(tx))
            && (result.Retry? ==> after.state.nonce == Some(tx.nonce) || after.state.resumeWith == Some(tx))
  {
  }

  /** Signing moves the run from a loop head, with a nonce within the budget, to monitoring. */
  lemma SignedWatching(origin: set<nat>, run: Run, tx: Tx, signed: Tx, tracked: Run)
    requires Tracked(origin, run) && run.state.resumeWith.None?
    requires Affords(origin, run, tx.nonce)
    requires tracked.state == run.state.(oldTxs := tracked.state.oldTxs)
    requires tracked.state.oldTxs == run.state.oldTxs[signed.hash := signed] && signed.nonce == tx.nonce
    requires SignedNonces(tracked.log) == SignedNonces(run.log) + {tx.nonce}
    requires NonceResets(tracked.log) == NonceResets(run.log)
    ensures Watching(origin, tracked, tx)
  {
    assert Known(origin, tracked) == Known(origin, run) + {tx.nonce};
    assert Known(origin, tracked) + {tx.nonce} == Known(origin, tracked);
  }

  lemma QuietFew(origin: set<nat>, run: Run, after: Run)
    requires SignedNonces(after.log) == SignedNonces(run.log) && NonceResets(after.log) == NonceResets(run.log)
    ensures FewNonces(origin, after) <==> FewNonces(origin, run)
  {
  }

  ghost predicate Affords(origin: set<nat>, run: Run, n: nat) {
    && |Known(origin, run) + {n}| <= 1 + NonceResets(run.log)
    && (run.state.nonce.Some? ==> run.state.nonce.value == n)
  }

  lemma BuildIsQuiet(cfg: Config, run: Run, w: Round)
    ensures var (ready, build) := BuildTx(cfg, run, w);
            && ready.state == run.state
            && SignedNonces(ready.log) == SignedNonces(run.log)
            && NonceResets(ready.log) == NonceResets(run.log)
            && (build.BuiltTx? && run.state.nonce.Some? ==> run.state.nonce.value == build.tx.nonce)
  {
    hide Acquire, Release;
  }

  /** Building does not sign: the nonce that comes out is within the budget. */
  lemma BuildDrift(origin: set<nat>, cfg: Config, run: Run, w: Round)
    requires Drift(origin, run) && run.state.resumeWith.None?
    ensures var (ready, build) := BuildTx(cfg, run, w);
            && Drift(origin, ready) && Tracked(origin, ready) && FewNonces(origin, ready)
            && ready.state.resumeWith.None?
            && (build.BuiltTx? ==> Affords(origin, ready, build.tx.nonce))
  {
    hide BuildTx, SignedNonces, NonceResets;
    BuildIsQuiet(cfg, run, w);
    var (ready, build) := BuildTx(cfg, run, w);
    assert Known(origin, ready) == Known(origin, run);
    if build.BuiltTx? {
      GrowByOne(Known(origin, run), build.tx.nonce);
    }
  }

  lemma AfterBroadcastDrift(
    origin: set<nat>, cfg: Config, run: Run, noted: Run, tx: Tx, signed: Tx, b: Broadcast, w: Round)
    requires Tracked(origin, run) && run.state.resumeWith.None?
    requires Affords(origin, run, tx.nonce)
    requires signed.nonce == tx.nonce && noted == Handed(run, signed)
    ensures var (after, result) := AfterBroadcast(cfg, noted, tx, signed, b, w);
            && FewNonces(origin, after)
            && (result.Retry? ==> Drift(origin, after))
            && (result.Monitor? ==> Watching(origin, after, result.watched))
  {
    var registered := if b.Accepted? then Register(noted, signed.nonce, w.registers) else noted;
    var tracked := registered.(state := registered.state.(oldTxs := registered.state.oldTxs[signed.hash := signed]));
    SignedWatching(origin, run, tx, signed, tracked);
    if b.Refused? {
      FailureKeepsNonces(cfg, tracked, tx, b.verdict, w);
      KeepsNoncesDrift(origin, tracked, tx, BroadcastFailure(cfg, tracked, tx, b.verdict, w).0);
    }
  }

  lemma SignDrift(origin: set<nat>, cfg: Config, run: Run, tx: Tx, w: Round)
    requires Tracked(origin, run) && run.state.resumeWith.None? && FewNonces(origin, run)
    requires Affords(origin, run, tx.nonce)
    ensures var (after, result) := SignAndBroadcast(cfg, run, tx, w);
            && FewNonces(origin, after)
            && (result.Retry? ==> Drift(origin, after))
            && (result.Monitor? ==> Watching(origin, after, result.watched))
  {
    hide AfterBroadcast, BroadcastOf, Drift, Watching, Tracked, Known, FewNonces, Affords;
    var after := SignAndBroadcast(cfg, run, tx, w).0;
    if !w.beforeHookFails && w.signing.SignedBySender? {
      var signed := tx.(hash := w.signing.hash);
      var noted := Handed(run, signed);
      if cfg.syncBroadcast && (w.sync.SyncUnavailable? || w.sync.SyncCancelled?) {
        SigningFew(origin, run, signed);
        QuietFew(origin, noted, after);
      } else {
        AfterBroadcastDrift(origin, cfg, run, noted, tx, signed, BroadcastOf(cfg, w), w);
      }
    } else {
      QuietFew(origin, run, after);
    }
  }

  lemma SigningFew(origin: set<nat>, run: Run, signed: Tx)
    requires Affords(origin, run, signed.nonce)
    ensures FewNonces(origin, Handed(run, signed))
  {
    assert Known(origin, Handed(run, signed)) == Known(origin, run) + {signed.nonce};
  }

  lemma SameLogDrift(origin: set<nat>, run: Run, after: Run)
    requires Drift(origin, run) && after.log == run.log && run.state.resumeWith.None?
    requires after.state == run.state.(gasLimit := after.state.gasLimit, attempts := after.state.attempts)
    ensures Drift(origin, after) && FewNonces(origin, after)
    ensures forall h <- run.state.oldTxs :: Watching(origin, after, run.state.oldTxs[h])
  {
  }

  lemma EstimationDrift(origin: set<nat>, cfg: Config, run: Run, w: Round)
    requires Drift(origin, run) && run.state.resumeWith.None?
    ensures var (after, result) := EstimationFailure(cfg, run, w);
            && FewNonces(origin, after)
            && (result.Retry? ==> Drift(origin, after))
            && (result.Monitor? ==> Watching(origin, after, result.watched))
  {
    hide Drift, Watching, FewNonces;
    SameLogDrift(origin, run, EstimationFailure(cfg, run, w).0);
  }

  lemma SimulationDrift(origin: set<nat>, cfg: Config, run: Run, tx: Tx, hook: HookAnswer)
    requires Tracked(origin, run) && run.state.resumeWith.None? && FewNonces(origin, run)
    requires Affords(origin, run, tx.nonce)
    ensures var (after, result) := SimulationRevert(cfg, run, tx, hook);
            && FewNonces(origin, after)
            && (result.Retry? ==> Drift(origin, after))
            && !result.Monitor?
  {
  }

  lemma AttemptDrift(origin: set<nat>, cfg: Config, run: Run, w: Round)
    requires Drift(origin, run) && run.state.resumeWith.None?
    ensures var (after, result) := Attempt(cfg, run, w);
            && FewNonces(origin, after)
            && (result.Retry? ==> Drift(origin, after))
            && (result.Monitor? ==> Watching(origin, after, result.watched))
  {
    hide SignAndBroadcast, EstimationFailure, SimulationRevert, BuildTx;
    hide Drift, Watching, Tracked, Known, FewNonces, Affords;
    BuildDrift(origin, cfg, run, w);
    var (ready, build) := BuildTx(cfg, run, w);
    match build
    case NotBuilt(error) =>
      if error.EstimateGasFailed? {
        EstimationDrift(origin, cfg, ready, w);
      }
    case BuiltTx(tx) =>
      SignDrift(origin, cfg, ready, tx, w);
      QuietFew(origin, ready, ReleaseNonce(ready, tx.nonce));
      if w.simulation.SimulationReverts? {
        SimulationDrift(origin, cfg, ready, tx, w.simulation.hook);
      }
  }

  lemma StatusDrift(origin: set<nat>, cfg: Config, run: Run, tx: Tx, status: TxStatus, w: Round)
    requires Watching(origin, run, tx) && !status.Unknown? && !status.Cancelled?
    ensures var (after, result) := TransactionStatus(cfg, run, tx, status, w);
            FewNonces(origin, after) && (result.Retry? ==> Drift(origin, after)) && !result.Monitor?
  {
    StatusKeepsNonces(cfg, run, tx, status, w);
    KeepsNoncesDrift(origin, run, tx, TransactionStatus(cfg, run, tx, status, w).0);
  }

  lemma CleanupDrift(origin: set<nat>, cfg: Config, run: Run, w: Round)
    ensures FewNonces(origin, Cleanup(cfg, run, w)) <==> FewNonces(origin, run)
  {
    assert Known(origin, Cleanup(cfg, run, w)) == Known(origin, run);
  }

  lemma IterateDrift(origin: set<nat>, cfg: Config, run: Run, w: Round)
    requires Drift(origin, run)
    ensures FewNonces(origin, Iterate(cfg, run, w).run)
    ensures Iterate(cfg, run, w).Next? ==> Drift(origin, Iterate(cfg, run, w).run)
  {
    hide Attempt, TransactionStatus, Cleanup;
    var here := Interfere(cfg, run, w, w.others);
    CleanupDrift(origin, cfg, here, w);
    if here.state.resumeWith.None? {
      AttemptDrift(origin, cfg, here, w);
    }
    var (begun, result) := Begin(cfg, here, w);
    CleanupDrift(origin, cfg, begun, w);
    if result.Monitor? && Watch(w.signals).Some? {
      WatchStatuses(w.signals);
      var status := Watch(w.signals).value;
      if !status.Cancelled? {
        StatusDrift(origin, cfg, begun, result.watched, status, w);
        CleanupDrift(origin, cfg, TransactionStatus(cfg, begun, result.watched, status, w).0, w);
      }
    }
  }

  /** At most one nonce, and one more for each nonce-gap, nonce-low or foreign verdict. */
  lemma {:induction false} NonceDrift(origin: set<nat>, cfg: Config, run: Run, script: seq<Round>)
    requires Drift(origin, run)
    ensures FewNonces(origin, Loop(cfg, run, script).run)
    decreases |script|
  {
    if script == [] {
    } else {
      IterateDrift(origin, cfg, run, script[0]);
      var step := Iterate(cfg, run, script[0]);
      if step.Next? {
        NonceDrift(origin, cfg, step.run, script[1..]);
      }
    }
  }

  lemma SingletonAgrees(s: set<nat>, a: nat, b: nat)
    requires |s| <= 1 && a in s && b in s
    ensures a == b
  {
    assert |s - {a}| == 0;
    assert b !in s - {a};
  }

  lemma {:induction false} SignedInNonces(log: History, tx: Tx)
    requires SignedIn(log, tx)
    ensures tx.nonce in SignedNonces(log)
  {
    if log.last != Signed(tx) {
      SignedInNonces(log.before, tx);
    }
  }

  // ---------------------------------------------------------------- from one round to the next

  /** After a nonce gap, or a nonce too low with no completed transaction, an answered resync makes
      the next round use the chain's pending nonce, whatever the tracker believed before. */
  lemma ResetTakesPending(cfg: Config, run: Run, tx: Tx, verdict: Verdict, w: Round, next: Round, view: View)
    requires verdict.NonceGap? || (verdict.NonceIsLow? && w.readerAnswers)
    requires w.resync == Some(view) == next.view && view.mined <= view.pending
    ensures var (after, result) := BroadcastFailure(cfg, run, tx, verdict, w);
            var build := BuildTx(cfg, after, next).1;
            result.Retry? && build.BuiltTx? ==> build.tx.nonce == view.pending
  {
    hide Acquire, Resync;
    var cell := Resync(run.cell, view.mined, view.pending);
    StoreFinderRespects(next.lookup);
    ResyncHeals(run.cell, view.mined, view.pending, GapFinderOf(cfg, next), 1);
    var o := Acquire(cell, view.mined, view.pending, GapFinderOf(cfg, next));
    assert AcquireMany(cell, view.mined, view.pending, GapFinderOf(cfg, next), 1)[0] == o.nonce;
    var (after, result) := BroadcastFailure(cfg, run, tx, verdict, w);
    assert result.Retry? ==> after.cell == cell && after.state.nonce.None?;
  }

  /** A registered nonce is used: whatever else happens to the tracker, no acquisition returns it
      before someone releases it, or resyncs to it or below, or brings a gap finder that offers it.
      The loop itself can be the one that releases it. */
  lemma AcceptedNonceStaysUsed(
    cfg: Config, run: Run, tx: Tx, signed: Tx, receipt: Option<Receipt>, w: Round, calls: seq<Call>)
    requires w.registers && forall call <- calls :: Spares(call, signed.nonce)
    ensures var cell := AfterBroadcast(cfg, run, tx, signed, Accepted(receipt), w).0.cell;
            Some(signed.nonce) !in Grants(cell, calls)
  {
    UsedNonceStaysUsed(SetPending(run.cell, signed.nonce), calls, signed.nonce);
  }
}
