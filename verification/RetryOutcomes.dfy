/** What the result of a run of the retry loop says about its transactions. */
module RetryOutcomes {
  import opened Options
  import opened NonceCells
  import opened TxMonitor
  import opened RunHistory
  import opened RetrySpec
  import opened RetryFrames

  /** Every tracked transaction sits under its own hash and was signed by this run or resumed. */
  ghost predicate Honest(origin: set<Tx>, run: Run) {
    && (forall h <- run.state.oldTxs ::
          run.state.oldTxs[h].hash == h && (run.state.oldTxs[h] in origin || SignedIn(run.log, run.state.oldTxs[h])))
    && (run.state.resumeWith.Some? ==> Tracks(run, run.state.resumeWith.value))
  }

  predicate Tracks(run: Run, tx: Tx) {
    tx.hash in run.state.oldTxs && run.state.oldTxs[tx.hash] == tx
  }

  /** What a caller may conclude from a result. */
  predicate Truthful(run: Run, tx: Option<Tx>, receipt: Option<Receipt>, error: Option<Error>) {
    && (error.None? ==> tx.Some? && receipt.Some? && !receipt.value.failed && Tracks(run, tx.value))
    && (error == Some(TxReverted) ==> tx.Some? && receipt.Some? && receipt.value.failed && Tracks(run, tx.value))
  }

  predicate TruthfulResult(run: Run, result: Result) {
    match result
    case Return(tx, receipt, error) => Truthful(run, tx, receipt, error)
    case Retry => true
    case Monitor(tx) => Tracks(run, tx)
  }

  /** What keeps a run honest: it tracks the same transactions and forgets no signature. */
  lemma LaterHonest(origin: set<Tx>, run: Run, after: Run)
    requires Honest(origin, run)
    ensures
      && after.state.oldTxs == run.state.oldTxs
      && (after.state.resumeWith.Some? ==> Tracks(run, after.state.resumeWith.value))
      && (forall tx :: SignedIn(run.log, tx) ==> SignedIn(after.log, tx))
      ==> Honest(origin, after)
  {
  }

  lemma BuildHonest(cfg: Config, run: Run, w: Round)
    ensures var (ready, build) := BuildTx(cfg, run, w);
            && ready.state == run.state
            && (forall tx :: SignedIn(run.log, tx) ==> SignedIn(ready.log, tx))
            && (build.NotBuilt? ==> !build.error.TxReverted?)
  {
  }

  lemma FailureHonest(origin: set<Tx>, cfg: Config, run: Run, tx: Tx, verdict: Verdict, w: Round)
    requires Honest(origin, run)
    ensures var (after, result) := BroadcastFailure(cfg, run, tx, verdict, w);
            && after.state.oldTxs == run.state.oldTxs
            && after.state.resumeWith == run.state.resumeWith
            && (forall t :: SignedIn(run.log, t) ==> SignedIn(after.log, t))
            && TruthfulResult(after, result)
  {
    hide BroadcastFailure, SignedIn;
    FailureFrame(cfg, run, tx, verdict, w);
    FailureTruthful(origin, cfg, run, tx, verdict, w);
  }

  /** A completed old transaction is the only one that a refused broadcast reports as mined. */
  lemma FailureTruthful(origin: set<Tx>, cfg: Config, run: Run, tx: Tx, verdict: Verdict, w: Round)
    requires Honest(origin, run)
    ensures var (after, result) := BroadcastFailure(cfg, run, tx, verdict, w); TruthfulResult(after, result)
  {
    hide SignedIn, Append, WithinLimits, TxsAtNonce;
  }

  lemma AfterBroadcastHonest(origin: set<Tx>, cfg: Config, run: Run, tx: Tx, signed: Tx, b: Broadcast, w: Round)
    requires Honest(origin, run) && SignedIn(run.log, signed) && run.state.resumeWith.None?
    ensures var (after, result) := AfterBroadcast(cfg, run, tx, signed, b, w);
            Honest(origin, after) && TruthfulResult(after, result)
  {
    hide BroadcastFailure, SignedIn;
    var registered := if b.Accepted? then Register(run, signed.nonce, w.registers) else run;
    var tracked := registered.(state := registered.state.(oldTxs := registered.state.oldTxs[signed.hash := signed]));
    assert Honest(origin, tracked) && Tracks(tracked, signed);
    if b.Refused? {
      FailureHonest(origin, cfg, tracked, tx, b.verdict, w);
      LaterHonest(origin, tracked, BroadcastFailure(cfg, tracked, tx, b.verdict, w).0);
    }
  }

  lemma AttemptHonest(origin: set<Tx>, cfg: Config, run: Run, w: Round)
    requires Honest(origin, run) && run.state.resumeWith.None?
    ensures var (after, result) := Attempt(cfg, run, w);
            Honest(origin, after) && TruthfulResult(after, result)
  {
    hide AfterBroadcast, BroadcastOf, BuildTx, SignedIn, Honest;
    BuildHonest(cfg, run, w);
    var (ready, build) := BuildTx(cfg, run, w);
    LaterHonest(origin, run, ready);
    match build
    case NotBuilt(error) =>
      if error.EstimateGasFailed? {
        EstimationHonest(origin, cfg, ready, w);
      }
    case BuiltTx(tx) =>
      var after := Attempt(cfg, run, w).0;
      if w.signing.SignedBySender? {
        var signed := tx.(hash := w.signing.hash);
        var noted := Handed(ready, signed);
        LaterHonest(origin, ready, noted);
        if !(cfg.syncBroadcast && (w.sync.SyncUnavailable? || w.sync.SyncCancelled?)) {
          AfterBroadcastHonest(origin, cfg, noted, tx, signed, BroadcastOf(cfg, w), w);
        }
      }
      LaterHonest(origin, ready, after);
  }

  lemma EstimationHonest(origin: set<Tx>, cfg: Config, run: Run, w: Round)
    requires Honest(origin, run) && run.state.resumeWith.None?
    ensures var (after, result) := EstimationFailure(cfg, run, w);
            Honest(origin, after) && TruthfulResult(after, result)
  {
  }

  lemma StatusHonest(origin: set<Tx>, cfg: Config, run: Run, tx: Tx, status: TxStatus, w: Round)
    requires Honest(origin, run) && Tracks(run, tx)
    ensures var (after, result) := TransactionStatus(cfg, run, tx, status, w);
            Honest(origin, after) && TruthfulResult(after, result) && !result.Monitor?
  {
  }

  lemma IterateHonest(origin: set<Tx>, cfg: Config, run: Run, w: Round)
    requires Honest(origin, run)
    ensures var step := Iterate(cfg, run, w);
            && (step.Next? ==> Honest(origin, step.run))
            && (step.Exit? ==> Honest(origin, step.run) && Truthful(step.run, step.tx, step.receipt, step.error))
  {
    hide Attempt, TransactionStatus, Cleanup, Honest, SignedIn;
    var here := Interfere(cfg, run, w, w.others);
    SameHonest(origin, run, here);
    CleanupHonest(origin, cfg, here, w);
    if here.state.resumeWith.None? {
      AttemptHonest(origin, cfg, here, w);
    } else {
      ResumeHonest(origin, here);
    }
    var (begun, result) := Begin(cfg, here, w);
    CleanupHonest(origin, cfg, begun, w);
    if result.Monitor? && Watch(w.signals).Some? && !Watch(w.signals).value.Cancelled? {
      StatusHonest(origin, cfg, begun, result.watched, Watch(w.signals).value, w);
      CleanupHonest(origin, cfg, TransactionStatus(cfg, begun, result.watched, Watch(w.signals).value, w).0, w);
    }
  }

  lemma SameHonest(origin: set<Tx>, run: Run, here: Run)
    requires Honest(origin, run) && here.state == run.state && here.log == run.log
    ensures Honest(origin, here)
  {
  }

  lemma ResumeHonest(origin: set<Tx>, run: Run)
    requires Honest(origin, run) && run.state.resumeWith.Some?
    ensures Honest(origin, run.(state := run.state.(resumeWith := None)))
    ensures Tracks(run, run.state.resumeWith.value)
  {
  }

  lemma CleanupHonest(origin: set<Tx>, cfg: Config, run: Run, w: Round)
    requires Honest(origin, run)
    ensures Honest(origin, Cleanup(cfg, run, w)) && Cleanup(cfg, run, w).state == run.state
  {
  }

  /** A nil error means a mined, unfailed transaction of this run; ErrTxReverted comes with both
      the transaction and its failed receipt. */
  lemma {:induction false} OutcomeSoundness(origin: set<Tx>, cfg: Config, run: Run, script: seq<Round>)
    requires Honest(origin, run)
    ensures var end := Loop(cfg, run, script);
            end.Exit? ==> Truthful(end.run, end.tx, end.receipt, end.error)
                          && (end.error.None? || end.error == Some(TxReverted) ==>
                                end.tx.value in origin || SignedIn(end.run.log, end.tx.value))
    decreases |script|
  {
    hide Iterate;
    if script == [] {
    } else {
      IterateHonest(origin, cfg, run, script[0]);
      var step := Iterate(cfg, run, script[0]);
      if step.Next? {
        OutcomeSoundness(origin, cfg, step.run, script[1..]);
      }
    }
  }
}
