/** What the handlers leave alone, whatever they decide. */
module RetryFrames {
  import opened Options
  import opened NonceCells
  import opened TxMonitor
  import opened RunHistory
  import opened RetrySpec

  /** Nothing was acquired, signed, sent or released in between. */
  predicate Quiet(before: History, after: History) {
    && Held(after) == Held(before)
    && SignedNonces(after) == SignedNonces(before)
    && SentNonces(after) == SentNonces(before)
    && OverReleases(after) == OverReleases(before)
    && LiveReleases(after) == LiveReleases(before)
  }

  ghost predicate SameSigned(before: History, after: History) {
    forall tx :: SignedIn(after, tx) <==> SignedIn(before, tx)
  }

  /** A handler that tracks nothing new: it moves the cell by one resync at most. */
  ghost predicate Handles(run: Run, after: Run, result: Result, answer: Option<View>) {
    && after.state.oldTxs == run.state.oldTxs
    && after.state.resumeWith == run.state.resumeWith
    && Quiet(run.log, after.log) && SameSigned(run.log, after.log)
    && (after.cell == run.cell || after.cell == ResyncNonce(run, answer).cell)
    && !result.Monitor?
  }

  lemma UnderpricedFrame(cfg: Config, run: Run, tx: Tx, answer: Option<View>)
    ensures var (after, result) := Underpriced(cfg, run, tx); Handles(run, after, result, answer)
  {
    hide WithinLimits, TxsAtNonce, Resync;
  }

  lemma NonceLowFrame(cfg: Config, run: Run, w: Round)
    ensures var (after, result) := NonceLow(cfg, run, w); Handles(run, after, result, w.resync)
  {
    hide Resync, FindCompleted;
  }

  lemma FailureFrame(cfg: Config, run: Run, tx: Tx, verdict: Verdict, w: Round)
    ensures var (after, result) := BroadcastFailure(cfg, run, tx, verdict, w); Handles(run, after, result, w.resync)
  {
    hide Underpriced, NonceLow, Resync, Handles;
    match verdict
    case ReplacementUnderpriced => UnderpricedFrame(cfg, run, tx, w.resync);
    case NonceIsLow => NonceLowFrame(cfg, run, w);
    case _ => OtherFrame(cfg, run, tx, verdict, w);
  }

  lemma OtherFrame(cfg: Config, run: Run, tx: Tx, verdict: Verdict, w: Round)
    requires !verdict.ReplacementUnderpriced? && !verdict.NonceIsLow?
    ensures var (after, result) := BroadcastFailure(cfg, run, tx, verdict, w); Handles(run, after, result, w.resync)
  {
    hide Underpriced, NonceLow, Resync, Exhausted;
  }

  /** What a retry does to the nonce: it is kept, or is the one just tried, or is dropped; and unless
      it is the one just tried, a reset has been noted. */
  ghost predicate MovesNonce(run: Run, tx: Tx, after: Run, result: Result) {
    && (after.state.nonce == Some(tx.nonce) || after.state.nonce == run.state.nonce || after.state.nonce.None?)
    && NonceResets(after.log) >= NonceResets(run.log)
    && (result.Retry? ==> after.state.nonce == Some(tx.nonce) || NonceResets(after.log) > NonceResets(run.log))
  }

  lemma UnderpricedNonce(cfg: Config, run: Run, tx: Tx)
    ensures var (after, result) := Underpriced(cfg, run, tx); MovesNonce(run, tx, after, result)
  {
    hide WithinLimits, TxsAtNonce;
  }

  lemma NonceLowNonce(cfg: Config, run: Run, tx: Tx, w: Round)
    ensures var (after, result) := NonceLow(cfg, run, w); MovesNonce(run, tx, after, result)
  {
    hide Resync, FindCompleted;
  }

  lemma FailureNonce(cfg: Config, run: Run, tx: Tx, verdict: Verdict, w: Round)
    ensures var (after, result) := BroadcastFailure(cfg, run, tx, verdict, w); MovesNonce(run, tx, after, result)
  {
    hide Underpriced, NonceLow, Resync;
    UnderpricedNonce(cfg, run, tx);
    NonceLowNonce(cfg, run, tx, w);
  }

  lemma StatusFrame(cfg: Config, run: Run, tx: Tx, status: TxStatus, w: Round)
    ensures var (after, result) := TransactionStatus(cfg, run, tx, status, w);
            && after.state.oldTxs == run.state.oldTxs
            && (after.state.resumeWith == run.state.resumeWith || after.state.resumeWith == Some(tx))
            && (after.state.nonce == run.state.nonce || after.state.nonce == Some(tx.nonce))
            && Quiet(run.log, after.log) && SameSigned(run.log, after.log)
            && after.cell == run.cell
            && !result.Monitor?
  {
    hide WithinLimits;
  }

  // ---------------------------------------------------------------- attempts

  predicate Broadcasts(cfg: Config, w: Round) {
    && PassesSimulation(cfg, w)
    && !w.beforeHookFails && w.signing.SignedBySender?
    && !(cfg.syncBroadcast && (w.sync.SyncUnavailable? || w.sync.SyncCancelled?))
  }

  function SignedTx(tx: Tx, w: Round): Tx
    requires w.signing.SignedBySender?
  {
    tx.(hash := w.signing.hash)
  }

  /** From the first log to the second nothing was bumped, built or refused. */
  predicate NoProgress(before: History, after: History) {
    && Bumps(after) == Bumps(before)
    && FreeRounds(after) == FreeRounds(before)
    && NonceResets(after) == NonceResets(before)
    && LastBump(after) == LastBump(before)
  }

  /** An attempt that ends before a verdict on a broadcast: nothing new is tracked, prices stay, and
      it is retried at the cost of one attempt or falls back on a tracked transaction. */
  ghost predicate Shelves(cfg: Config, ready: Run, build: Build, after: Run, result: Result) {
    && after.state.oldTxs == ready.state.oldTxs && after.state.resumeWith == ready.state.resumeWith
    && after.state.price == ready.state.price && after.state.tip == ready.state.tip
    && NoProgress(ready.log, after.log)
    && (forall gas :: AllRightlyPriced(gas, after.log) <==> AllRightlyPriced(gas, ready.log))
    && (build.BuiltTx? ==> after.state.gasLimit == ready.state.gasLimit || after.state.gasLimit == build.tx.gas)
    && (result.Retry? ==>
          after.state.attempts == ready.state.attempts + 1 && after.state.attempts <= cfg.maxAttempts)
    && (result.Monitor? ==>
          && after == ready && build.NotBuilt? && build.error.EstimateGasFailed?
          && exists h <- ready.state.oldTxs :: ready.state.oldTxs[h] == result.watched)
  }

  lemma EstimationShelves(cfg: Config, run: Run, w: Round)
    ensures var (after, result) := EstimationFailure(cfg, run, w);
            Shelves(cfg, run, NotBuilt(EstimateGasFailed), after, result)
  {
  }

  lemma SimulationShelves(cfg: Config, run: Run, tx: Tx, hook: HookAnswer)
    ensures var (after, result) := SimulationRevert(cfg, run, tx, hook); Shelves(cfg, run, BuiltTx(tx), after, result)
    ensures Shelves(cfg, run, BuiltTx(tx), ReleaseNonce(run, tx.nonce), GiveUp(SimulationUnavailable))
  {
    hide InUse;
  }

  lemma SigningShelves(cfg: Config, run: Run, tx: Tx, w: Round)
    requires PassesSimulation(cfg, w) && !Broadcasts(cfg, w)
    ensures var (after, result) := SignAndBroadcast(cfg, run, tx, w); Shelves(cfg, run, BuiltTx(tx), after, result)
  {
    hide Shelves, AbandonUnsigned, AfterBroadcast, BroadcastOf;
    AbandonShelves(cfg, run, run, tx, BeforeHookFailed);
    AbandonShelves(cfg, run, run, tx, SigningFailed);
    AbandonShelves(cfg, run, run, tx, WrongSigner);
    if w.signing.SignedBySender? {
      var signed := SignedTx(tx, w);
      AbandonShelves(cfg, run, Note(run, Signed(signed)), tx, NoBroadcaster);
      SendingShelves(cfg, run, tx, signed);
    }
  }

  lemma AbandonShelves(cfg: Config, run: Run, noted: Run, tx: Tx, error: Error)
    requires noted == run || exists signed :: noted == Note(run, Signed(signed))
    ensures var (after, result) := AbandonUnsigned(noted, tx, error); Shelves(cfg, run, BuiltTx(tx), after, result)
  {
    hide InUse;
  }

  lemma SendingShelves(cfg: Config, run: Run, tx: Tx, signed: Tx)
    ensures Shelves(cfg, run, BuiltTx(tx), Handed(run, signed), Return(Some(signed), None, Some(ContextCancelled)))
  {
  }

  lemma AttemptShape(cfg: Config, ready: Run, build: Build, w: Round)
    ensures var (after, result) := AfterBuild(cfg, ready, build, w);
            if build.BuiltTx? && Broadcasts(cfg, w) then
              var signed := SignedTx(build.tx, w);
              (after, result) == AfterBroadcast(cfg, Handed(ready, signed), build.tx, signed, BroadcastOf(cfg, w), w)
            else Shelves(cfg, ready, build, after, result)
  {
    hide AfterBroadcast, BroadcastOf, EstimationFailure, SimulationRevert, ReleaseNonce, Shelves;
    match build
    case NotBuilt(error) =>
      if error.EstimateGasFailed? {
        EstimationShelves(cfg, ready, w);
      } else {
        GivingUpShelves(cfg, ready, build);
      }
    case BuiltTx(tx) =>
      if !PassesSimulation(cfg, w) {
        if w.simulation.SimulationReverts? {
          SimulationShelves(cfg, ready, tx, w.simulation.hook);
        } else {
          SimulationShelves(cfg, ready, tx, HookError);
        }
      } else if !Broadcasts(cfg, w) {
        SigningShelves(cfg, ready, tx, w);
      }
  }

  lemma NotBuiltGivesUp(cfg: Config, ready: Run, build: Build, w: Round)
    requires build.NotBuilt? && !build.error.EstimateGasFailed?
    ensures AfterBuild(cfg, ready, build, w) == (ready, GiveUp(build.error))
  {
  }

  lemma GivingUpShelves(cfg: Config, ready: Run, build: Build)
    requires build.NotBuilt?
    ensures Shelves(cfg, ready, build, ready, GiveUp(build.error))
  {
  }
}
