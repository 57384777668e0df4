/** How prices move over whole runs of the retry loop. */
module RetryPrices {
  import opened Options
  import opened NonceCells
  import opened TxMonitor
  import opened RunHistory
  import opened RetrySpec
  import opened RetryFrames

  // ---------------------------------------------------------------- growth and ceiling

  /** The retry state carries the last bump, and every build so far was rightly priced. */
  predicate Priced(cfg: Config, run: Run) {
    && AllRightlyPriced(cfg.gas, run.log)
    && (LastBump(run.log).Some? ==>
          && run.state.price == BumpedPrice(cfg.gas, LastBump(run.log).value)
          && run.state.tip == BumpedTip(cfg.gas, LastBump(run.log).value)
          && WithinLimits(cfg.gas, LastBump(run.log).value))
  }

  lemma ProductIsPositive(a: real, b: real)
    requires a > 0.0 && b > 0.0
    ensures a * b > 0.0
  {
  }

  lemma BuildPriced(cfg: Config, run: Run, w: Round)
    requires Priced(cfg, run)
    ensures Priced(cfg, BuildTx(cfg, run, w).0)
  {
    hide BumpedPrice, BumpedTip;
    var bumped := LastBump(run.log);
    if bumped.Some? && bumped.value.price > 0.0 && cfg.gas.priceFactor > 0.0 {
      BumpedIsPositive(cfg.gas, bumped.value);
    }
  }

  lemma BumpedIsPositive(gas: GasBounds, tx: Tx)
    requires tx.price > 0.0 && gas.priceFactor > 0.0
    ensures BumpedPrice(gas, tx) > 0.0
  {
    ProductIsPositive(tx.price, gas.priceFactor);
  }

  lemma FailurePriced(cfg: Config, run: Run, tx: Tx, verdict: Verdict, w: Round)
    requires Priced(cfg, run)
    ensures Priced(cfg, BroadcastFailure(cfg, run, tx, verdict, w).0)
  {
    hide BumpedPrice, BumpedTip, WithinLimits, RightlyPriced;
  }

  lemma AfterBroadcastPriced(cfg: Config, run: Run, tx: Tx, signed: Tx, b: Broadcast, w: Round)
    requires Priced(cfg, run)
    ensures Priced(cfg, AfterBroadcast(cfg, run, tx, signed, b, w).0)
  {
    hide BumpedPrice, BumpedTip, WithinLimits, RightlyPriced, BroadcastFailure;
    var registered := if b.Accepted? then Register(run, signed.nonce, w.registers) else run;
    var tracked := registered.(state := registered.state.(oldTxs := registered.state.oldTxs[signed.hash := signed]));
    if b.Refused? {
      FailurePriced(cfg, tracked, tx, b.verdict, w);
    }
  }

  lemma AttemptPriced(cfg: Config, run: Run, w: Round)
    requires Priced(cfg, run)
    ensures Priced(cfg, Attempt(cfg, run, w).0)
  {
    hide BumpedPrice, BumpedTip, WithinLimits, RightlyPriced, BuildTx, AfterBuild, AfterBroadcast, BroadcastOf;
    BuildPriced(cfg, run, w);
    var (ready, build) := BuildTx(cfg, run, w);
    AttemptShape(cfg, ready, build, w);
    if build.BuiltTx? && Broadcasts(cfg, w) {
      var signed := SignedTx(build.tx, w);
      AfterBroadcastPriced(cfg, Handed(ready, signed), build.tx, signed, BroadcastOf(cfg, w), w);
    }
  }

  lemma StatusPriced(cfg: Config, run: Run, tx: Tx, status: TxStatus, w: Round)
    requires Priced(cfg, run)
    ensures Priced(cfg, TransactionStatus(cfg, run, tx, status, w).0)
  {
    hide BumpedPrice, BumpedTip, WithinLimits, RightlyPriced;
  }

  lemma CleanupPriced(cfg: Config, run: Run, w: Round)
    requires Priced(cfg, run)
    ensures Priced(cfg, Cleanup(cfg, run, w))
  {
    hide BumpedPrice, BumpedTip, WithinLimits, RightlyPriced;
  }

  lemma IteratePriced(cfg: Config, run: Run, w: Round)
    requires Priced(cfg, run)
    ensures Priced(cfg, Iterate(cfg, run, w).run)
  {
    hide BumpedPrice, BumpedTip, WithinLimits, RightlyPriced, Attempt, TransactionStatus, Cleanup;
    var here := Interfere(cfg, run, w, w.others);
    CleanupPriced(cfg, here, w);
    AttemptPriced(cfg, here, w);
    var (begun, result) := Begin(cfg, here, w);
    assert Priced(cfg, begun);
    CleanupPriced(cfg, begun, w);
    if result.Monitor? && Watch(w.signals).Some? {
      StatusPriced(cfg, begun, result.watched, Watch(w.signals).value, w);
      CleanupPriced(cfg, TransactionStatus(cfg, begun, result.watched, Watch(w.signals).value, w).0, w);
    }
  }

  /** Everything a run ever builds is rightly priced. */
  lemma {:induction false} PriceCeilingAndGrowth(cfg: Config, run: Run, script: seq<Round>)
    requires Priced(cfg, run)
    ensures AllRightlyPriced(cfg.gas, Loop(cfg, run, script).run.log)
    ensures Priced(cfg, Loop(cfg, run, script).run)
    decreases |script|
  {
    hide Iterate;
    if script == [] {
    } else {
      IteratePriced(cfg, run, script[0]);
      var step := Iterate(cfg, run, script[0]);
      if step.Next? {
        PriceCeilingAndGrowth(cfg, step.run, script[1..]);
      }
    }
  }

  // ---------------------------------------------------------------- how often a run can bump

  function Power(f: real, k: nat): real {
    if k == 0 then 1.0 else Power(f, k - 1) * f
  }

  /** After k bumps the price has grown k times by the factor, and the last bump was checked. */
  predicate Climbed(cfg: Config, start: real, run: Run) {
    && run.state.gasLimit > 0
    && 0.0 < start
    && 0.0 < run.state.price
    && start * Power(cfg.gas.priceFactor, Bumps(run.log)) <= run.state.price
    && (Bumps(run.log) > 0 ==> run.state.price <= cfg.gas.maxPrice)
    && (run.state.resumeWith.Some? ==> run.state.price <= run.state.resumeWith.value.price)
  }

  predicate Growing(gas: GasBounds) {
    gas.priceFactor > 1.0 && gas.maxPrice > 0.0 && gas.extraPrice >= 0.0
  }

  /** One more factor keeps the product below the price that is multiplied. */
  lemma {:induction false} PowerClimbs(start: real, f: real, k: nat, price: real, bumped: real)
    requires 0.0 < start && 1.0 < f && start * Power(f, k) <= price <= bumped
    ensures start * Power(f, k + 1) <= bumped * f
  {
    var p := Power(f, k);
    ScaleUp(start * p, bumped, f);
    Regroup(start, p, f);
  }

  lemma Regroup(a: real, b: real, c: real)
    ensures (a * b) * c == a * (b * c)
  {
  }

  lemma BumpClimbs(cfg: Config, start: real, run: Run, tx: Tx)
    requires Growing(cfg.gas) && Climbed(cfg, start, run) && run.state.price <= tx.price && WithinLimits(cfg.gas, tx)
    ensures Climbed(cfg, start, BumpRun(cfg, run, tx).(state := BumpRun(cfg, run, tx).state.(resumeWith := None)))
    ensures run.state.resumeWith.None? ==> Climbed(cfg, start, BumpRun(cfg, run, tx))
  {
    hide Power, WithinLimits, BumpedPrice, BumpedTip;
    PowerClimbs(start, cfg.gas.priceFactor, Bumps(run.log), run.state.price, tx.price);
    BumpedIs(cfg.gas, tx);
    BumpedIsPositive(cfg.gas, tx);
  }

  lemma BumpedIs(gas: GasBounds, tx: Tx)
    ensures BumpedPrice(gas, tx) == tx.price * gas.priceFactor
    ensures WithinLimits(gas, tx) && gas.maxPrice > 0.0 ==> BumpedPrice(gas, tx) <= gas.maxPrice
  {
  }

  lemma {:induction false} ScaleUp(a: real, b: real, f: real)
    requires a <= b && f > 0.0
    ensures a * f <= b * f
  {
  }

  lemma BuildClimbs(cfg: Config, start: real, run: Run, w: Round)
    requires Growing(cfg.gas) && Climbed(cfg, start, run)
    ensures var (ready, build) := BuildTx(cfg, run, w);
            && Climbed(cfg, start, ready)
            && ready.state == run.state
            && (build.NotBuilt? ==> !build.error.EstimateGasFailed?)
            && (build.BuiltTx? ==> run.state.price <= build.tx.price && build.tx.gas > 0)
  {
    hide Power;
  }

  lemma SameClimb(cfg: Config, start: real, run: Run, after: Run)
    requires Climbed(cfg, start, run)
    requires after.state.price == run.state.price && after.state.gasLimit > 0 && Bumps(after.log) == Bumps(run.log)
    requires after.state.resumeWith == run.state.resumeWith || after.state.resumeWith.None?
    ensures Climbed(cfg, start, after)
  {
  }

  lemma FailureClimbs(cfg: Config, start: real, run: Run, tx: Tx, verdict: Verdict, w: Round)
    requires Growing(cfg.gas) && Climbed(cfg, start, run) && run.state.price <= tx.price && run.state.resumeWith.None?
    ensures Climbed(cfg, start, BroadcastFailure(cfg, run, tx, verdict, w).0)
  {
    hide Climbed, WithinLimits, Power;
    var after := BroadcastFailure(cfg, run, tx, verdict, w).0;
    Positive(cfg, start, run);
    if verdict.ReplacementUnderpriced? && |TxsAtNonce(run.state.oldTxs, tx.nonce)| > 1 && WithinLimits(cfg.gas, tx) {
      var kept := KeepNonce(Note(run, Rejected(ReplacementUnderpriced, false)), Some(tx.nonce));
      SameClimb(cfg, start, run, kept);
      BumpClimbs(cfg, start, kept, tx);
    } else {
      SameClimb(cfg, start, run, after);
    }
  }

  lemma Positive(cfg: Config, start: real, run: Run)
    requires Climbed(cfg, start, run)
    ensures run.state.gasLimit > 0
  {
  }

  lemma AttemptClimbs(cfg: Config, start: real, run: Run, w: Round)
    requires Growing(cfg.gas) && Climbed(cfg, start, run) && run.state.resumeWith.None?
    ensures var (after, result) := Attempt(cfg, run, w);
            && Climbed(cfg, start, after)
            && after.state.resumeWith.None?
            && (result.Monitor? ==> after.state.price <= result.watched.price)
  {
    hide Climbed, BuildTx, AfterBuild, AfterBroadcast, BroadcastOf, Power;
    BuildClimbs(cfg, start, run, w);
    Positive(cfg, start, run);
    var (ready, build) := BuildTx(cfg, run, w);
    AttemptShape(cfg, ready, build, w);
    if build.NotBuilt? {
      NotBuiltGivesUp(cfg, ready, build, w);
    } else if Broadcasts(cfg, w) {
      var signed := SignedTx(build.tx, w);
      SameClimb(cfg, start, ready, Handed(ready, signed));
      AfterBroadcastClimbs(cfg, start, Handed(ready, signed), build.tx, signed, BroadcastOf(cfg, w), w);
    } else {
      SameClimb(cfg, start, ready, Attempt(cfg, run, w).0);
    }
  }

  lemma AfterBroadcastClimbs(cfg: Config, start: real, run: Run, tx: Tx, signed: Tx, b: Broadcast, w: Round)
    requires Growing(cfg.gas) && Climbed(cfg, start, run) && run.state.resumeWith.None?
    requires run.state.price <= tx.price == signed.price
    ensures var (after, result) := AfterBroadcast(cfg, run, tx, signed, b, w);
            && Climbed(cfg, start, after)
            && after.state.resumeWith.None?
            && (result.Monitor? ==> after.state.price <= result.watched.price)
  {
    hide Climbed, BroadcastFailure, Power;
    Positive(cfg, start, run);
    var registered := if b.Accepted? then Register(run, signed.nonce, w.registers) else run;
    var tracked := registered.(state := registered.state.(oldTxs := registered.state.oldTxs[signed.hash := signed]));
    SameClimb(cfg, start, run, tracked);
    if b.Refused? {
      FailureClimbs(cfg, start, tracked, tx, b.verdict, w);
      FailureFrame(cfg, tracked, tx, b.verdict, w);
    }
  }

  lemma StatusClimbs(cfg: Config, start: real, run: Run, tx: Tx, status: TxStatus, w: Round)
    requires Growing(cfg.gas) && Climbed(cfg, start, run) && run.state.resumeWith.None? && run.state.price <= tx.price
    ensures Climbed(cfg, start, TransactionStatus(cfg, run, tx, status, w).0)
  {
    hide Power;
    if WithinLimits(cfg.gas, tx) {
      BumpClimbs(cfg, start, run, tx);
    }
  }

  lemma CleanupClimbs(cfg: Config, start: real, run: Run, w: Round)
    requires Climbed(cfg, start, run)
    ensures Climbed(cfg, start, Cleanup(cfg, run, w))
  {
    hide Power;
  }

  lemma IterateClimbs(cfg: Config, start: real, run: Run, w: Round)
    requires Growing(cfg.gas) && Climbed(cfg, start, run)
    ensures Climbed(cfg, start, Iterate(cfg, run, w).run)
  {
    hide Climbed, Attempt, TransactionStatus, Cleanup, Power;
    Positive(cfg, start, run);
    var here := Interfere(cfg, run, w, w.others);
    SameClimb(cfg, start, run, here);
    CleanupClimbs(cfg, start, here, w);
    if here.state.resumeWith.None? {
      AttemptClimbs(cfg, start, here, w);
    } else {
      ResumeClimbs(cfg, start, here);
    }
    var (begun, result) := Begin(cfg, here, w);
    CleanupClimbs(cfg, start, begun, w);
    if result.Monitor? && Watch(w.signals).Some? {
      StatusClimbs(cfg, start, begun, result.watched, Watch(w.signals).value, w);
      CleanupClimbs(cfg, start, TransactionStatus(cfg, begun, result.watched, Watch(w.signals).value, w).0, w);
    }
  }

  lemma ResumeClimbs(cfg: Config, start: real, run: Run)
    requires Climbed(cfg, start, run) && run.state.resumeWith.Some?
    ensures Climbed(cfg, start, run.(state := run.state.(resumeWith := None)))
    ensures run.state.price <= run.state.resumeWith.value.price
  {
  }

  lemma ClimbedBound(cfg: Config, start: real, run: Run)
    requires Climbed(cfg, start, run) && Bumps(run.log) > 0
    ensures start * Power(cfg.gas.priceFactor, Bumps(run.log)) <= cfg.gas.maxPrice
  {
    hide Power;
  }

  lemma {:induction false} RunClimbs(cfg: Config, start: real, run: Run, script: seq<Round>)
    requires Growing(cfg.gas) && Climbed(cfg, start, run)
    ensures Climbed(cfg, start, Loop(cfg, run, script).run)
    decreases |script|
  {
    hide Iterate, Climbed;
    if script == [] {
    } else {
      IterateClimbs(cfg, start, run, script[0]);
      var step := Iterate(cfg, run, script[0]);
      if step.Next? {
        RunClimbs(cfg, start, step.run, script[1..]);
      }
    }
  }

  /** k successful bumps from a price p above zero imply p * f^k <= MaxGasPrice. */
  lemma BumpCountBound(cfg: Config, start: real, run: Run, script: seq<Round>)
    requires Growing(cfg.gas) && Climbed(cfg, start, run)
    ensures var k := Bumps(Loop(cfg, run, script).run.log);
            k > 0 ==> start * Power(cfg.gas.priceFactor, k) <= cfg.gas.maxPrice
  {
    hide Loop, Climbed, Power;
    RunClimbs(cfg, start, run, script);
    var end := Loop(cfg, run, script).run;
    if Bumps(end.log) > 0 {
      ClimbedBound(cfg, start, end);
    }
  }

  lemma {:induction false} PowerGrows(f: real, j: nat, k: nat)
    requires f > 1.0 && j <= k
    ensures 0.0 < Power(f, j) <= Power(f, k)
    decreases k
  {
    if j < k {
      PowerGrows(f, j, k - 1);
      ScaleUp(1.0, f, Power(f, k - 1));
    } else if k > 0 {
      PowerGrows(f, k - 1, k - 1);
      ProductIsPositive(Power(f, k - 1), f);
    }
  }

  lemma NinthPower()
    ensures Power(DEFAULT_PRICE_FACTOR, 9) > MAX_CAP_MULTIPLIER
  {
    assert Power(1.2, 3) == 1.728;
    assert Power(1.2, 6) == 2.985984;
    assert Power(1.2, 9) == 5.159780352;
  }

  lemma Divide(p: real, a: real, b: real)
    requires p > 0.0 && p * a <= p * b
    ensures a <= b
  {
    assert p * (a - b) == p * a - p * b;
    if a > b {
      ProductIsPositive(p, a - b);
      assert false;
    }
  }

  lemma EightFitFive(price: real, k: nat)
    requires price > 0.0 && (k > 0 ==> price * Power(DEFAULT_PRICE_FACTOR, k) <= price * MAX_CAP_MULTIPLIER)
    ensures k <= 8
  {
    if k >= 9 {
      PowerGrows(DEFAULT_PRICE_FACTOR, 9, k);
      NinthPower();
      Divide(price, Power(DEFAULT_PRICE_FACTOR, k), MAX_CAP_MULTIPLIER);
      assert false;
    }
  }
}
