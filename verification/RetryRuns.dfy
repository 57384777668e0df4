/** What follows for whole runs from what single rounds come to. */
module RetryRuns {
  import opened Options
  import opened NonceCells
  import opened TxMonitor
  import opened RunHistory
  import opened RetrySpec
  import opened RetryRounds

  lemma {:induction false} LoopExtends(cfg: Config, run: Run, script: seq<Round>, w: Round)
    requires Loop(cfg, run, script).Next?
    ensures Loop(cfg, run, script + [w]) == Iterate(cfg, Loop(cfg, run, script).run, w)
    decreases |script|
  {
    hide Iterate;
    if script == [] {
      assert (script + [w])[1..] == [];
    } else {
      var step := Iterate(cfg, run, script[0]);
      LoopExtends(cfg, step.run, script[1..], w);
      assert (script + [w])[1..] == script[1..] + [w];
    }
  }

  // ---------------------------------------------------------------- mined transactions

  predicate SaysMined(w: Round) {
    Watch(w.signals).Some? && (Watch(w.signals).value.Mined? || Watch(w.signals).value.Reverted?)
  }

  /** The round looks for a completed transaction, and the node knows one: the gas could not be
      estimated, or the broadcast was refused for a nonce that is too low. */
  ghost predicate FindsCompleted(cfg: Config, run: Run, w: Round) {
    || (Attempts(run, w) && run.state.gasLimit == 0 && w.estimate.None? && SomeCompleted(run.state.oldTxs, w))
    || (exists tx, c :: Builds(cfg, run, w, tx, c) && Sends(cfg, w) && Refuses(cfg, w, NonceIsLow)
                        && SomeCompleted(Tracking(run.state, SignedOf(tx, w)).oldTxs, w))
  }

  /** The round watches a transaction: a resumed one, a pending old one, or one just accepted. */
  ghost predicate ComesToWatch(cfg: Config, run: Run, w: Round) {
    || (run.state.resumeWith.Some? && !w.cancelled)
    || (Attempts(run, w) && run.state.gasLimit == 0 && w.estimate.None?
        && !SomeCompleted(run.state.oldTxs, w) && SomePending(run.state.oldTxs, w))
    || (exists tx, c :: Builds(cfg, run, w, tx, c) && Sends(cfg, w) && Accepts(cfg, w, None) && !w.afterHookFails)
  }

  ghost predicate MinedAtOnce(cfg: Config, run: Run, w: Round) {
    exists tx, c ::
      Builds(cfg, run, w, tx, c) && Sends(cfg, w) && !w.afterHookFails
      && cfg.syncBroadcast && w.sync.SyncReply? && w.sync.receipt.Some?
  }

  predicate ReportsMined(step: Step) {
    step.Exit? && step.tx.Some? && step.receipt.Some? && step.error != Some(AfterHookFailed)
  }

  /** A round reports a mined transaction exactly when it meets one: in its search, in the answer to a
      synchronous broadcast, or while it watches. */
  lemma ReportsMinedIff(cfg: Config, run: Run, w: Round)
    ensures ReportsMined(Iterate(cfg, run, w)) <==>
            FindsCompleted(cfg, run, w) || MinedAtOnce(cfg, run, w) || (ComesToWatch(cfg, run, w) && SaysMined(w))
  {
    hide Iterate, Builds, Watches, Mines, Moved, Left, Watch, SomeCompleted, SomePending, BuildTx, ReportsCompleted,
      WatchesDearest, GoesOnRefused;
    if CutShort(run, w) {
      CancelledRound(cfg, run, w);
      NoBuild(cfg, run, w);
    } else if run.state.resumeWith.Some? {
      ResumedRound(cfg, run, w);
      NoBuild(cfg, run, w);
      WatchingReports(cfg, w, Iterate(cfg, run, w), run.state.(resumeWith := None), Moved(cfg, w, run.cell, w.others),
                      run.state.resumeWith.value);
    } else {
      var (ready, build) := BuildTx(cfg, run.(cell := Moved(cfg, w, run.cell, w.others)), w);
      match build {
        case BuiltTx(tx) =>
          ItBuilds(cfg, run, w, tx);
          BuiltReports(cfg, run, w, tx, ready.cell);
        case NotBuilt(error) => UnbuiltReports(cfg, run, w, error);
      }
    }
  }

  lemma WatchingReports(cfg: Config, w: Round, step: Step, s: RetryState, c: Cell, tx: Tx)
    requires Watches(cfg, w, step, s, c, tx)
    ensures ReportsMined(step) <==> SaysMined(w)
  {
    hide Left, Watch;
  }

  lemma CompletedReports(cfg: Config, w: Round, step: Step, s: RetryState, c: Cell)
    requires ReportsCompleted(cfg, w, step, s, c)
    ensures ReportsMined(step)
  {
    hide Left;
  }

  /** A round that does not build the transaction neither sends nor has one refused. */
  lemma NoBuild(cfg: Config, run: Run, w: Round)
    requires !Attempts(run, w) || BuildTx(cfg, run.(cell := Moved(cfg, w, run.cell, w.others)), w).1.NotBuilt?
    ensures forall tx, c :: !Builds(cfg, run, w, tx, c)
  {
    hide BuildTx, Moved;
  }

  lemma ItBuilds(cfg: Config, run: Run, w: Round, tx: Tx)
    requires Attempts(run, w)
    ensures var (ready, build) := BuildTx(cfg, run.(cell := Moved(cfg, w, run.cell, w.others)), w);
            build == BuiltTx(tx) ==> Builds(cfg, run, w, tx, ready.cell)
  {
    hide BuildTx, Moved;
  }

  lemma UnbuiltReports(cfg: Config, run: Run, w: Round, error: Error)
    requires Attempts(run, w)
    requires BuildTx(cfg, run.(cell := Moved(cfg, w, run.cell, w.others)), w).1 == NotBuilt(error)
    ensures ReportsMined(Iterate(cfg, run, w)) <==>
            FindsCompleted(cfg, run, w) || (ComesToWatch(cfg, run, w) && SaysMined(w))
    ensures !MinedAtOnce(cfg, run, w)
  {
    hide Iterate, Builds, Watches, Moved, Left, SaysMined, SomeCompleted, SomePending, BuildTx, ReportsCompleted;
    var step, here := Iterate(cfg, run, w), run.(cell := Moved(cfg, w, run.cell, w.others));
    NoBuild(cfg, run, w);
    UnbuiltIff(cfg, here, w);
    if error.EstimateGasFailed? {
      UnestimatedRound(cfg, run, w);
      if SomeCompleted(run.state.oldTxs, w) {
        CompletedReports(cfg, w, step, run.state, here.cell);
      } else if SomePending(run.state.oldTxs, w) {
        var h :| h in w.order && Dearest(run.state.oldTxs, w, h)
                 && Watches(cfg, w, step, run.state, here.cell, run.state.oldTxs[h]);
        WatchingReports(cfg, w, step, run.state, here.cell, run.state.oldTxs[h]);
      }
    } else {
      UnbuiltRound(cfg, run, w);
    }
  }

  lemma OneBuild(cfg: Config, run: Run, w: Round, tx: Tx, c: Cell)
    requires Builds(cfg, run, w, tx, c)
    ensures forall t, d :: Builds(cfg, run, w, t, d) <==> t == tx && d == c
    ensures run.state.gasLimit != 0 || w.estimate.Some?
  {
    hide BuildTx, Moved;
    UnbuiltIff(cfg, run.(cell := Moved(cfg, w, run.cell, w.others)), w);
  }

  lemma BuiltReports(cfg: Config, run: Run, w: Round, tx: Tx, c: Cell)
    requires Builds(cfg, run, w, tx, c)
    ensures ReportsMined(Iterate(cfg, run, w)) <==>
            FindsCompleted(cfg, run, w) || MinedAtOnce(cfg, run, w) || (ComesToWatch(cfg, run, w) && SaysMined(w))
  {
    hide Iterate, Builds, Watches, Left, SaysMined, SomeCompleted, SomePending, BuildTx, GoesOnRefused;
    OneBuild(cfg, run, w, tx, c);
    BuildsAttempt(cfg, run, w, tx, c);
    var step := Iterate(cfg, run, w);
    if !Simulated(cfg, w) {
      UnsimulatedRound(cfg, run, w, tx, c);
    } else if !Sends(cfg, w) {
      UnsentRound(cfg, run, w, tx, c);
    } else if cfg.syncBroadcast && w.sync.SyncCancelled? {
      CutOffRound(cfg, run, w, tx, c);
    } else {
      SentReports(cfg, run, w, tx, c);
    }
  }

  lemma BuildsAttempt(cfg: Config, run: Run, w: Round, tx: Tx, c: Cell)
    requires Builds(cfg, run, w, tx, c)
    ensures Attempts(run, w)
  {
    hide BuildTx;
  }

  lemma SentReports(cfg: Config, run: Run, w: Round, tx: Tx, c: Cell)
    requires Builds(cfg, run, w, tx, c) && Sends(cfg, w) && !(cfg.syncBroadcast && w.sync.SyncCancelled?)
    ensures ReportsMined(Iterate(cfg, run, w)) <==>
            || (Refuses(cfg, w, NonceIsLow) && SomeCompleted(Tracking(run.state, SignedOf(tx, w)).oldTxs, w))
            || (cfg.syncBroadcast && w.sync.SyncReply? && w.sync.receipt.Some? && !w.afterHookFails)
            || (Accepts(cfg, w, None) && !w.afterHookFails && SaysMined(w))
  {
    hide Iterate, Builds, Watches, Left, SaysMined, SomeCompleted, GoesOnRefused;
    var step, signed := Iterate(cfg, run, w), SignedOf(tx, w);
    var s := Tracking(run.state, signed);
    if verdict :| Refuses(cfg, w, verdict) {
      RefusedRound(cfg, run, w, tx, c, verdict);
      RefusalReports(cfg, w, step, s, c, tx, signed.hash, verdict);
    } else {
      SentIsJudged(cfg, w);
      var receipt :| Accepts(cfg, w, receipt);
      AcceptedRound(cfg, run, w, tx, c, receipt);
      if receipt.None? && !w.afterHookFails {
        WatchingReports(cfg, w, step, s, if w.registers then SetPending(c, tx.nonce) else c, signed);
      }
    }
  }

  lemma RefusalReports(cfg: Config, w: Round, step: Step, s: RetryState, c: Cell, tx: Tx, hash: Hash, verdict: Verdict)
    requires GoesOnRefused(cfg, w, step, s, c, tx, hash, verdict)
    ensures ReportsMined(step) <==> verdict.NonceIsLow? && SomeCompleted(s.oldTxs, w)
  {
    hide Left, SomeCompleted, ReportsCompleted, Synced;
    if verdict.NonceIsLow? && w.readerAnswers && SomeCompleted(s.oldTxs, w) {
      CompletedReports(cfg, w, step, s, c);
    }
    NoAnswer(s.oldTxs, w);
  }

  lemma NoAnswer(txs: map<Hash, Tx>, w: Round)
    ensures SomeCompleted(txs, w) ==> w.readerAnswers
  {
  }

  lemma {:induction false} LastRoundDecides(cfg: Config, run: Run, script: seq<Round>)
    ensures var end, n := Loop(cfg, run, script), Rounds(cfg, run, script);
            !end.Next? ==> 0 < n <= |script| && end == Iterate(cfg, LastHead(cfg, run, script), script[n - 1])
    decreases |script|
  {
    hide Iterate;
    if script == [] {
    } else {
      var step := Iterate(cfg, run, script[0]);
      if step.Next? {
        LastRoundDecides(cfg, step.run, script[1..]);
      }
    }
  }

  /** A run reports a mined transaction exactly when its last round meets one. */
  lemma RunReportsMinedIff(cfg: Config, run: Run, script: seq<Round>)
    ensures var end, n := Loop(cfg, run, script), Rounds(cfg, run, script);
            !end.Next? ==>
              && 0 < n <= |script|
              && var head, w := LastHead(cfg, run, script), script[n - 1];
              ReportsMined(end) <==>
                || FindsCompleted(cfg, head, w) || MinedAtOnce(cfg, head, w)
                || (ComesToWatch(cfg, head, w) && SaysMined(w))
  {
    hide Loop, LastHead, Rounds, Iterate, FindsCompleted, MinedAtOnce, ComesToWatch, ReportsMined;
    LastRoundDecides(cfg, run, script);
    var end := Loop(cfg, run, script);
    if !end.Next? {
      ReportsMinedIff(cfg, LastHead(cfg, run, script), script[Rounds(cfg, run, script) - 1]);
    }
  }

  /** And the round that finds a completed old transaction is the last one: the run ends with the first
      that the node reports, with its receipt, and sends nothing more. */
  lemma CompletedEndsRun(cfg: Config, run: Run, script: seq<Round>, w: Round)
    requires Loop(cfg, run, script).Next? && FindsCompleted(cfg, Loop(cfg, run, script).run, w)
    ensures var end := Loop(cfg, run, script + [w]);
            && ReportsMined(end)
            && exists i: nat ::
                 && i < |w.order| && FirstCompleted(end.run.state.oldTxs, w, i)
                 && end.tx == Some(end.run.state.oldTxs[w.order[i]])
                 && end.receipt == Some(w.chain(w.order[i]).receipt)
                 && end.error == (if w.minedHookFails then Some(MinedHookFailed)
                                  else if end.receipt.value.failed then Some(TxReverted) else None)
  {
    hide Loop, Iterate, Builds, SomeCompleted, ReportsCompleted, FirstCompleted;
    LoopExtends(cfg, run, script, w);
    var head := Loop(cfg, run, script).run;
    if Attempts(head, w) && head.state.gasLimit == 0 && w.estimate.None? && SomeCompleted(head.state.oldTxs, w) {
      UnestimatedRound(cfg, head, w);
      FirstIsReported(cfg, w, Iterate(cfg, head, w), head.state, Moved(cfg, w, head.cell, w.others));
    } else {
      var tx, c :| Builds(cfg, head, w, tx, c) && Sends(cfg, w) && Refuses(cfg, w, NonceIsLow)
                   && SomeCompleted(Tracking(head.state, SignedOf(tx, w)).oldTxs, w);
      RefusedRound(cfg, head, w, tx, c, NonceIsLow);
      NoAnswer(Tracking(head.state, SignedOf(tx, w)).oldTxs, w);
      FirstIsReported(cfg, w, Iterate(cfg, head, w), Tracking(head.state, SignedOf(tx, w)), c);
    }
  }

  lemma FirstIsReported(cfg: Config, w: Round, step: Step, s: RetryState, c: Cell)
    requires ReportsCompleted(cfg, w, step, s, c)
    ensures ReportsMined(step) && step.run.state == s
    ensures exists i: nat ::
              && i < |w.order| && FirstCompleted(s.oldTxs, w, i)
              && step.tx == Some(s.oldTxs[w.order[i]]) && step.receipt == Some(w.chain(w.order[i]).receipt)
              && step.error == (if w.minedHookFails then Some(MinedHookFailed)
                                else if step.receipt.value.failed then Some(TxReverted) else None)
  {
    hide Left, FirstCompleted;
  }

  // ---------------------------------------------------------------- lost and slow transactions

  /** How often a run has taken a nonce, built, signed or sent. */
  function Deeds(log: History): nat {
    match log
    case Start => 0
    case Then(before, e) => Deeds(before) + if e.Acquired? || e.Built? || e.Signed? || e.Sent? then 1 else 0
  }

  /** What a lost or slow transaction comes to is decided by its nonce, the mined one and the limits. */
  lemma StatusDecides(cfg: Config, run: Run, tx: Tx, status: TxStatus, w: Round)
    requires status.Lost? || status.Slow?
    ensures var (after, result) := TransactionStatus(cfg, run, tx, status, w);
            if w.minedNonce.Some? && tx.nonce < w.minedNonce.value
            then after == run && result == Return(Some(tx), None, Some(NonceConsumed))
            else if status.Slow? && w.minedNonce != Some(tx.nonce)
            then
              && after == Run(run.state.(resumeWith := Some(tx)), run.cell, Then(run.log, KeptWaiting))
              && result == Retry
            else if TooDear(cfg.gas, tx)
            then after == run && result == Return(Some(tx), None, Some(GasPriceLimitReached))
            else
              var price, tip := tx.price * cfg.gas.priceFactor, tx.tip * cfg.gas.tipFactor;
              && after.state == run.state.(price := price, tip := tip, nonce := Some(tx.nonce))
              && after.cell == run.cell && after.log == Then(run.log, Bumped(tx)) && result == Retry
  {
  }

  /** A round that starts with a transaction to watch takes no nonce and builds, signs and sends nothing. */
  lemma WatchingDoesNothing(cfg: Config, run: Run, w: Round)
    requires run.state.resumeWith.Some?
    ensures Deeds(Iterate(cfg, run, w).run.log) == Deeds(run.log)
  {
    hide WithinLimits, InUse, Release, Resync, Watch, Moved;
    var here := Run(run.state.(resumeWith := None), Interfere(cfg, run, w, w.others).cell, run.log);
    LeavingDoesNothing(cfg, w);
    JudgingDoesNothing(cfg, here, run.state.resumeWith.value, w);
  }

  lemma LeavingDoesNothing(cfg: Config, w: Round)
    ensures forall run: Run, tx, receipt, error ::
              Deeds(Leave(cfg, run, w, tx, receipt, error).run.log) == Deeds(run.log)
  {
    hide InUse, Release, Resync, ApplyAll;
  }

  lemma JudgingDoesNothing(cfg: Config, run: Run, tx: Tx, w: Round)
    ensures Watch(w.signals).Some? ==>
              Deeds(Judge(cfg, run, tx, Watch(w.signals).value, w).0.log) == Deeds(run.log)
  {
    hide WithinLimits, Watch;
  }

  predicate SlowAndHarmless(w: Round, tx: Tx) {
    !w.cancelled && Watch(w.signals) == Some(Slow) && (w.minedNonce.None? || w.minedNonce.value < tx.nonce)
  }

  /** However often a transaction that keeps nobody waiting is slow, the run goes on watching it: its
      nonce, prices and attempts stay, and nothing is taken, built, signed or sent. */
  lemma {:induction false} WaitingChangesNothing(cfg: Config, run: Run, tx: Tx, script: seq<Round>)
    requires run.state.resumeWith == Some(tx) && forall w <- script :: SlowAndHarmless(w, tx)
    ensures var end := Loop(cfg, run, script);
            end.Next? && end.run.state == run.state && Deeds(end.run.log) == Deeds(run.log)
    decreases |script|
  {
    hide Iterate;
    if script == [] {
    } else {
      assert SlowAndHarmless(script[0], tx);
      ResumedRound(cfg, run, script[0]);
      WatchingDoesNothing(cfg, run, script[0]);
      WaitingChangesNothing(cfg, Iterate(cfg, run, script[0]).run, tx, script[1..]);
    }
  }

  /** And a run whose transaction is slow and keeps nobody waiting comes to that. */
  lemma SlowWaits(cfg: Config, run: Run, w: Round, s: RetryState, c: Cell, tx: Tx)
    requires Watches(cfg, w, Iterate(cfg, run, w), s, c, tx) && SlowAndHarmless(w, tx)
    ensures var step := Iterate(cfg, run, w); step.Next? && step.run.state == s.(resumeWith := Some(tx))
  {
    hide Iterate, Left;
  }

  // ---------------------------------------------------------------- retried simulations

  /** The simulation reverts and the hook asks for a retry. */
  ghost predicate RevertsAgain(cfg: Config, run: Run, w: Round, tx: Tx, c: Cell) {
    && Builds(cfg, run, w, tx, c) && !cfg.skipSimulation && w.simulation == SimulationReverts(HookRetry)
    && run.state.attempts < cfg.maxAttempts
  }

  /** In every round of the script it does so. */
  ghost predicate KeepsReverting(cfg: Config, run: Run, script: seq<Round>)
    decreases |script|
  {
    script == [] || (
      && (exists tx, c :: RevertsAgain(cfg, run, script[0], tx, c))
      && KeepsReverting(cfg, Iterate(cfg, run, script[0]).run, script[1..]))
  }

  /** Each such retry keeps the gas of the transaction, extra included, and the next build adds the
      extra again; the nonce of the first one stays. */
  lemma {:induction false} RevertsAddGas(cfg: Config, run: Run, script: seq<Round>)
    requires KeepsReverting(cfg, run, script) && run.state.gasLimit > 0
    ensures var end := Loop(cfg, run, script);
            && end.Next? && end.run.state.gasLimit == run.state.gasLimit + |script| * cfg.gas.extraGas
            && end.run.state.attempts == run.state.attempts + |script|
            && (run.state.nonce.Some? ==> end.run.state.nonce == run.state.nonce)
    decreases |script|
  {
    hide Iterate, Builds;
    if script == [] {
    } else {
      var w := script[0];
      var tx, c :| RevertsAgain(cfg, run, w, tx, c);
      UnsimulatedRound(cfg, run, w, tx, c);
      GasOfBuild(cfg, run, w, tx, c);
      var step := Iterate(cfg, run, w);
      RevertsAddGas(cfg, step.run, script[1..]);
    }
  }

  lemma GasOfBuild(cfg: Config, run: Run, w: Round, tx: Tx, c: Cell)
    requires Builds(cfg, run, w, tx, c) && run.state.gasLimit > 0
    ensures tx.gas == run.state.gasLimit + cfg.gas.extraGas
    ensures run.state.nonce.Some? ==> run.state.nonce.value == tx.nonce
  {
    hide BuildTx, Moved;
    BuiltExactly(cfg, run.(cell := Moved(cfg, w, run.cell, w.others)), w);
  }
}
