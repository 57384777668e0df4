/** When the number of bumps of a run is bounded, and when it is not. */
module RetryBumps {
  import opened Options
  import opened NonceCells
  import opened TxMonitor
  import opened RunHistory
  import opened RetrySpec
  import opened RetryFrames
  import opened RetryWitnesses

  // ---------------------------------------------------------------- runs that never bump

  /** What the current prices build, up to hash, nonce and gas. */
  function Offer(gas: GasBounds, s: RetryState): Tx {
    PricedTx(gas, 0, 0, s.price, s.tip, 0)
  }

  /** Nothing was bumped, and neither what the run would build nor what it tracks may be. */
  ghost predicate Flat(cfg: Config, run: Run) {
    && Bumps(run.log) == 0
    && run.state.price != 0.0
    && !WithinLimits(cfg.gas, Offer(cfg.gas, run.state))
    && (forall h <- run.state.oldTxs :: !WithinLimits(cfg.gas, run.state.oldTxs[h]))
    && (run.state.resumeWith.Some? ==> !WithinLimits(cfg.gas, run.state.resumeWith.value))
  }

  lemma SameFlat(cfg: Config, run: Run, after: Run)
    requires Flat(cfg, run) && Bumps(after.log) == Bumps(run.log)
    requires after.state.price == run.state.price && after.state.tip == run.state.tip
    requires after.state.oldTxs == run.state.oldTxs
    requires after.state.resumeWith.None? || after.state.resumeWith == run.state.resumeWith
    ensures Flat(cfg, after)
  {
  }

  lemma BuildFlat(cfg: Config, run: Run, w: Round)
    requires Flat(cfg, run)
    ensures var (ready, build) := BuildTx(cfg, run, w);
            && Flat(cfg, ready) && ready.state == run.state
            && (build.BuiltTx? ==> !WithinLimits(cfg.gas, build.tx))
  {
    hide WithinLimits, Acquire, Release;
    var (ready, build) := BuildTx(cfg, run, w);
    SameFlat(cfg, run, ready);
    if build.BuiltTx? {
      SamePricesSameLimits(cfg.gas, build.tx, Offer(cfg.gas, run.state));
    }
  }

  lemma SamePricesSameLimits(gas: GasBounds, a: Tx, b: Tx)
    requires a.price == b.price && a.tip == b.tip
    ensures WithinLimits(gas, a) <==> WithinLimits(gas, b)
  {
  }

  lemma FailureFlat(cfg: Config, run: Run, tx: Tx, verdict: Verdict, w: Round)
    requires Flat(cfg, run) && !WithinLimits(cfg.gas, tx)
    ensures var (after, result) := BroadcastFailure(cfg, run, tx, verdict, w); Flat(cfg, after) && !result.Monitor?
    ensures BroadcastFailure(cfg, run, tx, verdict, w).0.state.resumeWith == run.state.resumeWith
  {
    hide Flat, WithinLimits;
    SameFlat(cfg, run, BroadcastFailure(cfg, run, tx, verdict, w).0);
  }

  lemma AfterBroadcastFlat(cfg: Config, run: Run, tx: Tx, signed: Tx, b: Broadcast, w: Round)
    requires Flat(cfg, run) && !WithinLimits(cfg.gas, tx) && run.state.resumeWith.None?
    requires signed.price == tx.price && signed.tip == tx.tip
    ensures var (after, result) := AfterBroadcast(cfg, run, tx, signed, b, w);
            && Flat(cfg, after) && after.state.resumeWith.None?
            && (result.Monitor? ==> !WithinLimits(cfg.gas, result.watched))
  {
    hide BroadcastFailure, WithinLimits;
    SamePricesSameLimits(cfg.gas, signed, tx);
    var registered := if b.Accepted? then Register(run, signed.nonce, w.registers) else run;
    var tracked := registered.(state := registered.state.(oldTxs := registered.state.oldTxs[signed.hash := signed]));
    assert Flat(cfg, tracked);
    if b.Refused? {
      FailureFlat(cfg, tracked, tx, b.verdict, w);
    }
  }

  lemma AttemptFlat(cfg: Config, run: Run, w: Round)
    requires Flat(cfg, run) && run.state.resumeWith.None?
    ensures var (after, result) := Attempt(cfg, run, w);
            && Flat(cfg, after) && after.state.resumeWith.None?
            && (result.Monitor? ==> !WithinLimits(cfg.gas, result.watched))
  {
    hide BuildTx, AfterBuild, AfterBroadcast, BroadcastOf, WithinLimits, Flat;
    BuildFlat(cfg, run, w);
    var (ready, build) := BuildTx(cfg, run, w);
    AttemptShape(cfg, ready, build, w);
    if build.BuiltTx? && Broadcasts(cfg, w) {
      var signed := SignedTx(build.tx, w);
      SameFlat(cfg, ready, Handed(ready, signed));
      AfterBroadcastFlat(cfg, Handed(ready, signed), build.tx, signed, BroadcastOf(cfg, w), w);
    } else {
      SameFlat(cfg, ready, Attempt(cfg, run, w).0);
      TrackedIsFlat(cfg, ready);
    }
  }

  lemma TrackedIsFlat(cfg: Config, run: Run)
    requires Flat(cfg, run)
    ensures forall h <- run.state.oldTxs :: !WithinLimits(cfg.gas, run.state.oldTxs[h])
    ensures run.state.resumeWith.Some? ==> !WithinLimits(cfg.gas, run.state.resumeWith.value)
  {
  }

  lemma StatusFlat(cfg: Config, run: Run, tx: Tx, status: TxStatus, w: Round)
    requires Flat(cfg, run) && !WithinLimits(cfg.gas, tx)
    ensures Flat(cfg, TransactionStatus(cfg, run, tx, status, w).0)
  {
    hide WithinLimits;
  }

  lemma IterateFlat(cfg: Config, run: Run, w: Round)
    requires Flat(cfg, run)
    ensures Flat(cfg, Iterate(cfg, run, w).run)
  {
    hide Attempt, TransactionStatus, Cleanup, WithinLimits, Flat;
    var here := Interfere(cfg, run, w, w.others);
    SameFlat(cfg, run, here);
    CleanupFlat(cfg, here, w);
    TrackedIsFlat(cfg, here);
    if here.state.resumeWith.None? {
      AttemptFlat(cfg, here, w);
    } else {
      SameFlat(cfg, here, here.(state := here.state.(resumeWith := None)));
    }
    var (begun, result) := Begin(cfg, here, w);
    CleanupFlat(cfg, begun, w);
    if result.Monitor? && Watch(w.signals).Some? {
      StatusFlat(cfg, begun, result.watched, Watch(w.signals).value, w);
      CleanupFlat(cfg, TransactionStatus(cfg, begun, result.watched, Watch(w.signals).value, w).0, w);
    }
  }

  lemma CleanupFlat(cfg: Config, run: Run, w: Round)
    requires Flat(cfg, run)
    ensures Flat(cfg, Cleanup(cfg, run, w))
  {
    SameFlat(cfg, run, Cleanup(cfg, run, w));
  }

  lemma {:induction false} RunNeverBumps(cfg: Config, run: Run, script: seq<Round>)
    requires Flat(cfg, run)
    ensures Bumps(Loop(cfg, run, script).run.log) == 0
    decreases |script|
  {
    hide Iterate;
    if script == [] {
    } else {
      IterateFlat(cfg, run, script[0]);
      var step := Iterate(cfg, run, script[0]);
      if step.Next? {
        RunNeverBumps(cfg, step.run, script[1..]);
      }
    }
  }

  // ---------------------------------------------------------------- runs that bump for ever

  /** Without a gas limit the loop can fail to estimate, fall back on the transaction it tracks, and
      bump from that one's price again and again. */
  ghost predicate Stuck(cfg: Config, run: Run, tx: Tx) {
    && run.state.gasLimit == 0 && run.state.attempts == 0 && run.state.resumeWith.None?
    && run.state.oldTxs == map[tx.hash := tx]
    && tx.price > 0.0 && WithinLimits(cfg.gas, tx)
  }

  function StuckRound(tx: Tx): Round {
    SlowRound(View(0, 0), tx.nonce, None, [tx.hash])
  }

  lemma StuckBumps(cfg: Config, run: Run, tx: Tx)
    requires Stuck(cfg, run, tx)
    ensures var step := Iterate(cfg, run, StuckRound(tx));
            step.Next? && Stuck(cfg, step.run, tx) && Bumps(step.run.log) == Bumps(run.log) + 1
  {
    hide WithinLimits, Await;
    var w := StuckRound(tx);
    var txs := run.state.oldTxs;
    assert [tx.hash][1..] == [] && tx.hash in txs && txs[tx.hash] == tx;
    assert FindCompleted(txs, w.chain, w.order) == None;
    assert FindPending(txs, w.chain, w.order, None) == Some(tx.hash);
    assert Attempt(cfg, run, w) == (run, Monitor(tx));
    SlowBumps(cfg, run, tx, w);
  }

  lemma {:induction false} StuckForEver(cfg: Config, run: Run, tx: Tx, k: nat) returns (script: seq<Round>)
    requires Stuck(cfg, run, tx)
    ensures |script| == k && Loop(cfg, run, script).Next? && Bumps(Loop(cfg, run, script).run.log) == Bumps(run.log) + k
    decreases k
  {
    hide Iterate, Stuck;
    if k == 0 {
      script := [];
    } else {
      StuckBumps(cfg, run, tx);
      var rest := StuckForEver(cfg, Iterate(cfg, run, StuckRound(tx)).run, tx, k - 1);
      script := [StuckRound(tx)] + rest;
      assert script[0] == StuckRound(tx) && script[1..] == rest;
    }
  }

  /** The first round of a new transaction leaves a run that is stuck. */
  lemma SubmittedGetsStuck(cfg: Config, cell: Cell, price: real, tip: real) returns (w: Round, tx: Tx)
    requires price > 0.0 && PricedTx(cfg.gas, 0, 0, price, tip, 0).price > 0.0
    requires WithinLimits(cfg.gas, PricedTx(cfg.gas, 0, 0, price, tip, 0))
    ensures var step := Iterate(cfg, FreshRun(cell, price, tip, 0), w);
            step.Next? && Stuck(cfg, step.run, tx) && Bumps(step.run.log) == 1
  {
    hide WithinLimits, Await, Acquire;
    var run := FreshRun(cell, price, tip, 0);
    var finder := GapFinderOf(cfg, SlowRound(View(0, 0), 0, Some(21000), []));
    CalmAcquire(cell, finder);
    var nonce := Acquire(cell, 0, 0, finder).nonce.value;
    w := SlowRound(View(0, 0), nonce, Some(21000), []);
    assert GapFinderOf(cfg, w) == finder;
    tx := PricedTx(cfg.gas, 7, nonce, price, tip, 21000);
    SamePricesSameLimits(cfg.gas, tx, PricedTx(cfg.gas, 0, 0, price, tip, 0));
    var (begun, result) := Begin(cfg, run, w);
    assert result == Monitor(tx) && begun.state == run.state.(oldTxs := map[7 := tx]);
    SlowBumps(cfg, begun, tx, w);
  }

  lemma CalmAcquire(c: Cell, finder: Option<Finder>)
    ensures Acquire(c, 0, 0, finder).nonce.Some?
  {
  }

  /** So does the first round of a resumed one. */
  lemma ResumedGetsStuck(cfg: Config, cell: Cell, tx: Tx) returns (w: Round)
    requires tx.gas == 0 && tx.price > 0.0 && WithinLimits(cfg.gas, tx)
    ensures var step := Iterate(cfg, ResumedRun(cell, tx), w);
            step.Next? && Stuck(cfg, step.run, tx) && Bumps(step.run.log) == 1
  {
    hide WithinLimits, Await;
    w := StuckRound(tx);
    var run := ResumedRun(cell, tx);
    SlowBumps(cfg, run.(state := run.state.(resumeWith := None)), tx, w);
  }
}
