/** What a caller of the manager can rely on: the claims about runs, stated from the two ways into
    the loop, for every answer the outside world can give. */
module RetryTheorems {
  import opened Options
  import opened NonceCells
  import opened TxMonitor
  import opened RunHistory
  import opened RetrySpec
  import opened RetryBumps
  import opened RetryLength
  import opened RetryNonces
  import opened RetryOwnership
  import opened RetryReleases
  import opened RetryOutcomes
  import opened RetryPrices
  import opened RetryRestores
  import opened RetryRounds
  import opened RetryRuns

  /** The transaction a job resumes, which counts as signed. */
  function ResumedTx(job: Job): set<Tx> {
    if job.Resume? then {job.tx} else {}
  }

  function ResumedNonce(job: Job): set<nat> {
    if job.Resume? then {job.tx.nonce} else {}
  }

  lemma StartsWell(job: Job, cell: Cell)
    ensures Counted(ConfigOf(job), StartOf(job, cell))
    ensures Drift(ResumedNonce(job), StartOf(job, cell))
    ensures Owns(StartOf(job, cell)) && Anchored(StartOf(job, cell))
    ensures Honest(ResumedTx(job), StartOf(job, cell))
    ensures Priced(ConfigOf(job), StartOf(job, cell))
  {
    var start := StartOf(job, cell);
    assert Known(ResumedNonce(job), start) == ResumedNonce(job);
    match job
    case Submit(_, _, _, _) =>
      assert Drift(ResumedNonce(job), start);
    case Resume(_, _, tx) =>
      assert ResumedNonce(job) + {tx.nonce} == ResumedNonce(job);
      assert start.state.oldTxs[tx.hash] == tx;
      assert Drift(ResumedNonce(job), start);
  }

  /** A loop head is where the loop stands when the script is cut short, so what holds after every
      script holds at every loop head. */
  lemma {:induction false} HeadIsCut(cfg: Config, run: Run, script: seq<Round>) returns (n: nat)
    ensures n <= |script| && Loop(cfg, run, script[..n]) == Next(LastHead(cfg, run, script))
    decreases |script|
  {
    hide Iterate;
    n := 0;
    if script != [] && Iterate(cfg, run, script[0]).Next? {
      var rest := HeadIsCut(cfg, Iterate(cfg, run, script[0]).run, script[1..]);
      n := rest + 1;
      assert script[..n][0] == script[0] && script[..n][1..] == script[1..][..rest];
    }
  }

  // ---------------------------------------------------------------- run length

  /** Rounds are paid for by attempts, bumps and free events; the attempts never exceed the limit
      at a loop head. */
  lemma RunIsPaidFor(job: Job, cell: Cell, script: seq<Round>)
    ensures var cfg, run := ConfigOf(job), StartOf(job, cell);
            var head := LastHead(cfg, run, script);
            && 0 <= head.state.attempts <= cfg.maxAttempts
            && Rounds(cfg, run, script) <= 1 + cfg.maxAttempts + Bumps(head.log) + FreeRounds(head.log)
  {
    hide LastHead, Rounds;
    StartsWell(job, cell);
    RunLength(ConfigOf(job), StartOf(job, cell), script);
  }

  /** A start price above zero, no negative extra, the default factor and the default limit. */
  predicate DefaultPricing(job: Job) {
    match job
    case Submit(cfg, price, _, _) =>
      && price > 0.0 && cfg.gas.extraPrice >= 0.0
      && cfg.gas.maxPrice == 0.0 && (cfg.gas.priceFactor == 0.0 || cfg.gas.priceFactor == DEFAULT_PRICE_FACTOR)
    case Resume(defaults, opts, tx) =>
      && tx.price > 0.0
      && opts.maxPrice <= 0.0 && (defaults.priceFactor <= 0.0 || defaults.priceFactor == DEFAULT_PRICE_FACTOR)
  }

  /** Without one, gas is estimated in every round. */
  predicate HasGasLimit(job: Job) {
    if job.Submit? then job.gasLimit > 0 else job.tx.gas > 0
  }

  /** With default pricing and a gas limit no run bumps more than eight times. */
  lemma AtMostEightBumps(job: Job, cell: Cell, script: seq<Round>)
    requires DefaultPricing(job) && HasGasLimit(job)
    ensures Bumps(Loop(ConfigOf(job), StartOf(job, cell), script).run.log) <= 8
  {
    hide Loop;
    var cfg, run := ConfigOf(job), StartOf(job, cell);
    var price := run.state.price;
    assert cfg.gas.priceFactor == DEFAULT_PRICE_FACTOR && cfg.gas.maxPrice == price * MAX_CAP_MULTIPLIER;
    assert price * Power(DEFAULT_PRICE_FACTOR, 0) == price;
    assert Climbed(cfg, price, run);
    BumpCountBound(cfg, price, run, script);
    EightFitFive(price, Bumps(Loop(cfg, run, script).run.log));
  }

  /** So the run is bounded by the network's free events alone. */
  lemma DefaultRunLength(job: Job, cell: Cell, script: seq<Round>)
    requires DefaultPricing(job) && HasGasLimit(job)
    ensures var cfg, run := ConfigOf(job), StartOf(job, cell);
            Rounds(cfg, run, script) <= 9 + cfg.maxAttempts + FreeRounds(LastHead(cfg, run, script).log)
  {
    hide Loop, LastHead, Rounds;
    RunIsPaidFor(job, cell, script);
    var n := HeadIsCut(ConfigOf(job), StartOf(job, cell), script);
    AtMostEightBumps(job, cell, script[..n]);
  }

  /** The prices that the first bump would start from. */
  function FirstOffer(job: Job): Tx {
    match job
    case Submit(_, price, tip, _) => PricedTx(ConfigOf(job).gas, 0, 0, price, tip, 0)
    case Resume(_, _, tx) => tx
  }

  /** Without a gas limit a run can bump any number of times, if it can bump at all. */
  lemma AnyNumberOfBumps(job: Job, cell: Cell, k: nat) returns (script: seq<Round>)
    requires DefaultPricing(job) && !HasGasLimit(job) && WithinLimits(ConfigOf(job).gas, FirstOffer(job))
    ensures Bumps(Loop(ConfigOf(job), StartOf(job, cell), script).run.log) == k
  {
    hide Iterate, WithinLimits, Stuck;
    if k == 0 {
      script := [];
    } else {
      var cfg, run := ConfigOf(job), StartOf(job, cell);
      var w, tx;
      match job {
        case Submit(_, price, tip, _) => w, tx := SubmittedGetsStuck(cfg, cell, price, tip);
        case Resume(_, _, pending) =>
          tx := pending;
          w := ResumedGetsStuck(cfg, cell, tx);
      }
      var rest := StuckForEver(cfg, Iterate(cfg, run, w).run, tx, k - 1);
      script := [w] + rest;
      assert script[0] == w && script[1..] == rest;
    }
  }

  /** If the first bump is not within the limits, no later one is. */
  lemma NoBumps(job: Job, cell: Cell, script: seq<Round>)
    requires DefaultPricing(job) && !WithinLimits(ConfigOf(job).gas, FirstOffer(job))
    ensures Bumps(Loop(ConfigOf(job), StartOf(job, cell), script).run.log) == 0
  {
    hide Loop;
    var cfg, run := ConfigOf(job), StartOf(job, cell);
    if job.Resume? {
      DearerIsNotWithin(cfg.gas, job.tx, Offer(cfg.gas, run.state));
    }
    RunNeverBumps(cfg, run, script);
  }

  lemma DearerIsNotWithin(gas: GasBounds, a: Tx, b: Tx)
    requires !WithinLimits(gas, a) && a.price <= b.price && a.tip == b.tip && gas.priceFactor > 0.0
    ensures !WithinLimits(gas, b)
  {
    ScaleUp(a.price, b.price, gas.priceFactor);
  }

  /** With default pricing, eight bounds the bumps of every run exactly for the jobs that fix a gas
      limit and those whose first bump would exceed the limits. */
  lemma EightBumpsIff(job: Job, cell: Cell)
    requires DefaultPricing(job)
    ensures (forall script :: Bumps(Loop(ConfigOf(job), StartOf(job, cell), script).run.log) <= 8) <==>
            HasGasLimit(job) || !WithinLimits(ConfigOf(job).gas, FirstOffer(job))
  {
    hide Loop, WithinLimits, FirstOffer;
    if HasGasLimit(job) {
      forall script ensures Bumps(Loop(ConfigOf(job), StartOf(job, cell), script).run.log) <= 8 {
        AtMostEightBumps(job, cell, script);
      }
    } else if !WithinLimits(ConfigOf(job).gas, FirstOffer(job)) {
      forall script ensures Bumps(Loop(ConfigOf(job), StartOf(job, cell), script).run.log) <= 8 {
        NoBumps(job, cell, script);
      }
    } else {
      var script := AnyNumberOfBumps(job, cell, 9);
    }
  }

  // ---------------------------------------------------------------- nonces

  /** The nonces signed with, the resumed one included, are at most one more than the nonce-gap,
      nonce-low and foreign verdicts. */
  lemma FewNoncesAreSigned(job: Job, cell: Cell, script: seq<Round>)
    ensures var log := Loop(ConfigOf(job), StartOf(job, cell), script).run.log;
            |ResumedNonce(job) + SignedNonces(log)| <= 1 + NonceResets(log)
  {
    hide Loop;
    StartsWell(job, cell);
    NonceDrift(ResumedNonce(job), ConfigOf(job), StartOf(job, cell), script);
  }

  /** Without such verdicts all signed transactions, and the resumed one, share one nonce: the
      chain can include at most one of them. */
  lemma OneNonceWithoutResets(job: Job, cell: Cell, script: seq<Round>, a: Tx, b: Tx)
    ensures var log := Loop(ConfigOf(job), StartOf(job, cell), script).run.log;
            && NonceResets(log) == 0
            && (SignedIn(log, a) || a in ResumedTx(job)) && (SignedIn(log, b) || b in ResumedTx(job))
            ==> a.nonce == b.nonce
  {
    hide Loop;
    FewNoncesAreSigned(job, cell, script);
    var log := Loop(ConfigOf(job), StartOf(job, cell), script).run.log;
    if SignedIn(log, a) { SignedInNonces(log, a); }
    if SignedIn(log, b) { SignedInNonces(log, b); }
    if NonceResets(log) == 0 && (SignedIn(log, a) || a in ResumedTx(job)) && (SignedIn(log, b) || b in ResumedTx(job)) {
      SingletonAgrees(ResumedNonce(job) + SignedNonces(log), a.nonce, b.nonce);
    }
  }

  /** At every loop head before a broadcast the run holds State.Nonce and nothing else. An exit with
      an error has given everything back, or has attempted a resync; the one leak is a nonce
      acquired in the round whose synchronous broadcast is cancelled in flight. */
  lemma NoncesAreGivenBack(job: Job, cell: Cell, script: seq<Round>)
    ensures var cfg, run := ConfigOf(job), StartOf(job, cell);
            var head, end := LastHead(cfg, run, script), Loop(cfg, run, script);
            && (head.state.oldTxs == map[] ==> Held(head.log) == JustThis(head.state.nonce))
            && (end.Exit? && end.error.Some? ==>
                  if end.run.state.oldTxs != map[] then end.run.log.Then? && end.run.log.last == Resynced
                  else Held(end.run.log) == if Leaks(end) then {end.tx.value.nonce} else {})
  {
    hide Loop, LastHead;
    StartsWell(job, cell);
    NonceOwnership(ConfigOf(job), StartOf(job, cell), script);
  }

  /** Every wrong release of every run: one of a nonce neither held nor in use, exactly when the last
      round met the guard of the doubly releasing branches; one of a nonce with which a transaction
      is tracked or was sent, exactly when it met the guard of the branches that do not ask, or that
      of a broadcast cancelled in flight. */
  lemma WrongReleasesIff(job: Job, cell: Cell, script: seq<Round>)
    ensures var cfg, run := ConfigOf(job), StartOf(job, cell);
            var end, n, head := Loop(cfg, run, script), Rounds(cfg, run, script), LastHead(cfg, run, script);
            && n <= |script| && (!end.Next? ==> 0 < n)
            && OverReleases(end.run.log) == (if !end.Next? && ReleasesTwice(cfg, head, script[n - 1]) then 1 else 0)
            && LiveReleases(end.run.log) ==
                 (if !end.Next?
                     && (ReleasesLive(cfg, head, script[n - 1]) || ReleasesInFlight(cfg, head, script[n - 1]))
                  then 1 else 0)
  {
    hide Loop, LastHead, Rounds, Owns, Anchored;
    StartsWell(job, cell);
    RunReleases(ConfigOf(job), StartOf(job, cell), script);
  }

  /** A run that fails before it has tracked a transaction leaves no trace in the tracker: while
      nobody else uses it, the next caller is given the nonce it would have been given without the
      run, even when the run has released its nonce twice. */
  lemma FailedRunLeavesNoTrace(
    job: Job, cell: Cell, script: seq<Round>, scene: Scene, lookup: nat -> Lookup, m: nat, r: nat)
    requires Valid(cell) && forall w <- script :: Steady(scene, ConfigOf(job), w)
    requires scene.finder.None? || scene.finder == Some(StoreFinder(lookup))
    requires m <= r && scene.top <= r
    ensures var end := Loop(ConfigOf(job), StartOf(job, cell), script);
            end.Exit? && end.error.Some? && end.run.state.oldTxs == map[] && !Leaks(end) ==>
              Acquire(end.run.cell, m, r, scene.finder).nonce == Acquire(cell, m, r, scene.finder).nonce
  {
    hide Loop, Acquire, Steady, Owns, Undone;
    StartsWell(job, cell);
    var cfg, run := ConfigOf(job), StartOf(job, cell);
    RunRestores(scene, cell, cfg, run, script);
    var end := Loop(cfg, run, script);
    if end.Exit? && end.error.Some? && end.run.state.oldTxs == map[] && !Leaks(end) {
      UndoneIsInvisible(scene, lookup, cell, end.run.cell, m, r);
    }
  }

  // ---------------------------------------------------------------- outcomes and prices

  /** A nil error comes with a transaction that this run signed or resumed and its unfailed receipt;
      ErrTxReverted comes with such a transaction and its failed receipt. */
  lemma OutcomesAreTrue(job: Job, cell: Cell, script: seq<Round>)
    ensures var end := Loop(ConfigOf(job), StartOf(job, cell), script);
            end.Exit? && (end.error.None? || end.error == Some(TxReverted)) ==>
              && end.tx.Some? && end.receipt.Some?
              && (end.error.None? <==> !end.receipt.value.failed)
              && (SignedIn(end.run.log, end.tx.value) || end.tx.value in ResumedTx(job))
              && end.tx.value in end.run.state.oldTxs.Values
  {
    hide Loop;
    StartsWell(job, cell);
    OutcomeSoundness(ResumedTx(job), ConfigOf(job), StartOf(job, cell), script);
    var end := Loop(ConfigOf(job), StartOf(job, cell), script);
    if end.Exit? && (end.error.None? || end.error == Some(TxReverted)) {
      assert end.run.state.oldTxs[end.tx.value.hash] == end.tx.value;
    }
  }

  /** Every built transaction is rightly priced: tip below price, growth by the factors since the
      last bump, and the limits exceeded by the extras at most. */
  lemma PricesAreRight(job: Job, cell: Cell, script: seq<Round>)
    ensures AllRightlyPriced(ConfigOf(job).gas, Loop(ConfigOf(job), StartOf(job, cell), script).run.log)
  {
    hide Loop;
    StartsWell(job, cell);
    PriceCeilingAndGrowth(ConfigOf(job), StartOf(job, cell), script);
  }

  // ---------------------------------------------------------------- what jobs run with

  /** What was not set is filled in: limits of five times the first price and tip, bumps by a fifth and
      a tenth, nine retries for a resumed job. A resumed job adds no extras and always simulates. */
  lemma JobsAreConfigured(job: Job)
    ensures var cfg := ConfigOf(job);
            match job
            case Submit(given, price, tip, _) =>
              && cfg.maxAttempts == (if given.maxAttempts < 0 then 0 else given.maxAttempts)
              && cfg.gas.maxPrice == (if given.gas.maxPrice == 0.0 then 5.0 * price else given.gas.maxPrice)
              && cfg.gas.maxTip == (if given.gas.maxTip == 0.0 then 5.0 * tip else given.gas.maxTip)
              && cfg.gas.priceFactor == (if given.gas.priceFactor == 0.0 then 1.2 else given.gas.priceFactor)
              && cfg.gas.tipFactor == (if given.gas.tipFactor == 0.0 then 1.1 else given.gas.tipFactor)
              && cfg.gas.extraGas == given.gas.extraGas && cfg.gas.extraPrice == given.gas.extraPrice
              && cfg.gas.extraTip == given.gas.extraTip && cfg.skipSimulation == given.skipSimulation
              && cfg.syncBroadcast == given.syncBroadcast && cfg.txStore == given.txStore
            case Resume(defaults, opts, tx) =>
              && cfg.maxAttempts == (if opts.numRetries <= 0 then 9 else opts.numRetries)
              && cfg.gas.maxPrice == (if opts.maxPrice <= 0.0 then 5.0 * tx.price else opts.maxPrice)
              && cfg.gas.maxTip == (if opts.maxTip <= 0.0 then 5.0 * tx.tip else opts.maxTip)
              && cfg.gas.priceFactor == (if defaults.priceFactor <= 0.0 then 1.2 else defaults.priceFactor)
              && cfg.gas.tipFactor == (if defaults.tipFactor <= 0.0 then 1.1 else defaults.tipFactor)
              && cfg.gas.extraGas == 0 && cfg.gas.extraPrice == 0.0 == cfg.gas.extraTip && !cfg.skipSimulation
              && cfg.syncBroadcast == defaults.syncBroadcast && cfg.txStore == defaults.txStore
  {
  }

  /** So with nothing set, no bump ever takes the price or the tip beyond five times the first ones, and
      each takes them up by a fifth and a tenth. */
  lemma DefaultCeilings(job: Job, cell: Cell, script: seq<Round>)
    requires DefaultPricing(job) && DefaultTips(job)
    ensures var start, end := StartOf(job, cell).state, Loop(ConfigOf(job), StartOf(job, cell), script).run;
            var last := LastBump(end.log);
            last.Some? ==>
              && end.state.price == 1.2 * last.value.price && end.state.price <= 5.0 * start.price
              && end.state.tip == 1.1 * last.value.tip && end.state.tip <= 5.0 * start.tip
  {
    hide Loop;
    StartsWell(job, cell);
    PriceCeilingAndGrowth(ConfigOf(job), StartOf(job, cell), script);
  }

  predicate DefaultTips(job: Job) {
    match job
    case Submit(cfg, _, tip, _) =>
      tip > 0.0 && cfg.gas.maxTip == 0.0 && (cfg.gas.tipFactor == 0.0 || cfg.gas.tipFactor == DEFAULT_TIP_FACTOR)
    case Resume(defaults, opts, tx) =>
      && tx.tip > 0.0 && opts.maxTip <= 0.0
      && (defaults.tipFactor <= 0.0 || defaults.tipFactor == DEFAULT_TIP_FACTOR)
  }

  /** A resumed job first watches its transaction, with the values that were stored with it: it takes
      no nonce and builds, signs and sends nothing until a status has come. */
  lemma ResumedJobWatchesFirst(job: Job, cell: Cell, w: Round)
    requires job.Resume? && !w.cancelled
    ensures var (cfg, tx) := (ConfigOf(job), job.tx);
            var step := Iterate(cfg, StartOf(job, cell), w);
            var s := RetryState(0, tx.price, tx.tip, tx.gas, Some(tx.nonce), map[tx.hash := tx], None);
            Watches(cfg, w, step, s, Moved(cfg, w, cell, w.others), tx) && Deeds(step.run.log) == 0
  {
    hide Iterate;
    ResumedRound(ConfigOf(job), StartOf(job, cell), w);
    WatchingDoesNothing(ConfigOf(job), StartOf(job, cell), w);
  }
}
