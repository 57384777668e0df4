/** How long a run of the retry loop can be. */
module RetryLength {
  import opened Options
  import opened NonceCells
  import opened TxMonitor
  import opened RunHistory
  import opened RetrySpec
  import opened RetryFrames

  /** Every round that does not end the run costs exactly one attempt, one bump or one free event. */
  function Work(run: Run): int {
    run.state.attempts + Bumps(run.log) + FreeRounds(run.log)
  }

  predicate Counted(cfg: Config, run: Run) {
    0 <= run.state.attempts <= cfg.maxAttempts
  }

  lemma BuildWork(cfg: Config, run: Run, w: Round)
    ensures var ready := BuildTx(cfg, run, w).0; ready.state == run.state && Work(ready) == Work(run)
  {
  }

  lemma UnderpricedWork(cfg: Config, run: Run, tx: Tx)
    requires Counted(cfg, run)
    ensures var (after, result) := Underpriced(cfg, run, tx);
            && !result.Monitor?
            && (result.Retry? ==> Counted(cfg, after) && Work(after) == Work(run) + 1)
  {
    hide WithinLimits, TxsAtNonce;
  }

  lemma NonceLowWork(cfg: Config, run: Run, w: Round)
    requires Counted(cfg, run)
    ensures var (after, result) := NonceLow(cfg, run, w);
            && !result.Monitor?
            && (result.Retry? ==> Counted(cfg, after) && Work(after) == Work(run) + 1)
  {
    hide Resync, FindCompleted;
  }

  lemma FailureWork(cfg: Config, run: Run, tx: Tx, verdict: Verdict, w: Round)
    requires Counted(cfg, run)
    ensures var (after, result) := BroadcastFailure(cfg, run, tx, verdict, w);
            && !result.Monitor?
            && (result.Retry? ==> Counted(cfg, after) && Work(after) == Work(run) + 1)
  {
    hide Underpriced, NonceLow, Resync;
    UnderpricedWork(cfg, run, tx);
    NonceLowWork(cfg, run, w);
  }

  lemma AfterBroadcastWork(cfg: Config, run: Run, tx: Tx, signed: Tx, b: Broadcast, w: Round)
    requires Counted(cfg, run)
    ensures var (after, result) := AfterBroadcast(cfg, run, tx, signed, b, w);
            && (result.Retry? ==> Counted(cfg, after) && Work(after) == Work(run) + 1)
            && (result.Monitor? ==> Counted(cfg, after) && Work(after) == Work(run))
  {
    var registered := if b.Accepted? then Register(run, signed.nonce, w.registers) else run;
    var tracked := registered.(state := registered.state.(oldTxs := registered.state.oldTxs[signed.hash := signed]));
    assert Work(tracked) == Work(run);
    if b.Refused? {
      FailureWork(cfg, tracked, tx, b.verdict, w);
    }
  }

  lemma AttemptWork(cfg: Config, run: Run, w: Round)
    requires Counted(cfg, run)
    ensures var (after, result) := Attempt(cfg, run, w);
            && (result.Retry? ==> Counted(cfg, after) && Work(after) == Work(run) + 1)
            && (result.Monitor? ==> Counted(cfg, after) && Work(after) == Work(run))
  {
    hide BuildTx, AfterBuild, AfterBroadcast, BroadcastOf;
    BuildWork(cfg, run, w);
    var (ready, build) := BuildTx(cfg, run, w);
    AttemptShape(cfg, ready, build, w);
    if build.BuiltTx? && Broadcasts(cfg, w) {
      var signed := SignedTx(build.tx, w);
      AfterBroadcastWork(cfg, Handed(ready, signed), build.tx, signed, BroadcastOf(cfg, w), w);
    }
  }

  lemma StatusWork(cfg: Config, run: Run, tx: Tx, status: TxStatus, w: Round)
    requires Counted(cfg, run)
    ensures var (after, result) := TransactionStatus(cfg, run, tx, status, w);
            && !result.Monitor?
            && (!result.Return? ==> Counted(cfg, after) && Work(after) == Work(run) + 1)
  {
  }

  lemma IterateWork(cfg: Config, run: Run, w: Round)
    requires Counted(cfg, run)
    ensures Iterate(cfg, run, w).Next? ==>
              Counted(cfg, Iterate(cfg, run, w).run) && Work(Iterate(cfg, run, w).run) == Work(run) + 1
  {
    hide Attempt, TransactionStatus;
    var here := Interfere(cfg, run, w, w.others);
    AttemptWork(cfg, here, w);
    var (begun, result) := Begin(cfg, here, w);
    if result.Monitor? && Watch(w.signals).Some? {
      StatusWork(cfg, begun, result.watched, Watch(w.signals).value, w);
    }
  }

  lemma {:induction false} RunLength(cfg: Config, run: Run, script: seq<Round>)
    requires Counted(cfg, run)
    ensures Counted(cfg, LastHead(cfg, run, script))
    ensures Work(LastHead(cfg, run, script)) - Work(run) <= Rounds(cfg, run, script)
         <= 1 + Work(LastHead(cfg, run, script)) - Work(run)
    decreases |script|
  {
    if script == [] {
    } else {
      IterateWork(cfg, run, script[0]);
      var step := Iterate(cfg, run, script[0]);
      if step.Next? {
        RunLength(cfg, step.run, script[1..]);
      }
    }
  }
}
