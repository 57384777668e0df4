/** What one round of the retry loop comes to, read off the answers that the world gives in it. */
module RetryRounds {
  import opened Options
  import opened NonceCells
  import opened TxMonitor
  import opened RunHistory
  import opened RetrySpec

  // ---------------------------------------------------------------- how a round can end

  /** The cell after other callers have acted on it. */
  function Moved(cfg: Config, w: Round, c: Cell, ops: seq<Op>): Cell {
    ApplyAll(c, ops, if cfg.txStore then Some(StoreFinder(w.lookup)) else None)
  }

  function Synced(c: Cell, answer: Option<View>): Cell {
    if answer.Some? then Resync(c, answer.value.mined, answer.value.pending) else c
  }

  /** What an exit with an error leaves of the cell. */
  function Left(cfg: Config, w: Round, s: RetryState, c: Cell): Cell {
    var late := Moved(cfg, w, c, w.late);
    if s.oldTxs != map[] then Synced(late, w.exitResync)
    else if s.nonce.Some? then Release(late, s.nonce.value)
    else late
  }

  predicate Leaves(
    cfg: Config, w: Round, step: Step, s: RetryState, c: Cell, tx: Option<Tx>, receipt: Option<Receipt>, error: Error)
  {
    && step.Exit? && step.tx == tx && step.receipt == receipt && step.error == Some(error)
    && step.run.state == s && step.run.cell == Left(cfg, w, s, c)
  }

  predicate Stays(step: Step, s: RetryState, c: Cell) {
    step.Next? && step.run.state == s && step.run.cell == c
  }

  /** The run reports the transaction as mined; only a failing hook or a failed receipt is an error. */
  predicate Mines(cfg: Config, w: Round, step: Step, s: RetryState, c: Cell, tx: Tx, receipt: Receipt) {
    if w.minedHookFails then Leaves(cfg, w, step, s, c, Some(tx), Some(receipt), MinedHookFailed)
    else if receipt.failed then Leaves(cfg, w, step, s, c, Some(tx), Some(receipt), TxReverted)
    else
      && step.Exit? && step.tx == Some(tx) && step.receipt == Some(receipt) && step.error == None
      && step.run.state == s && step.run.cell == c
  }

  /** One attempt has been counted. */
  predicate Counts(cfg: Config, w: Round, step: Step, s: RetryState, c: Cell) {
    if s.attempts > cfg.maxAttempts then Leaves(cfg, w, step, s, c, None, None, OutOfRetries) else Stays(step, s, c)
  }

  /** A limit that is set forbids the next price or tip. */
  predicate TooDear(gas: GasBounds, tx: Tx) {
    || (gas.maxPrice > 0.0 && tx.price * gas.priceFactor > gas.maxPrice)
    || (gas.maxTip > 0.0 && tx.tip * gas.tipFactor > gas.maxTip)
  }

  predicate BumpsOrStops(cfg: Config, w: Round, step: Step, s: RetryState, c: Cell, tx: Tx) {
    if TooDear(cfg.gas, tx) then Leaves(cfg, w, step, s, c, Some(tx), None, GasPriceLimitReached)
    else
      var dearer := s.(price := tx.price * cfg.gas.priceFactor, tip := tx.tip * cfg.gas.tipFactor);
      Stays(step, dearer.(nonce := Some(tx.nonce)), c)
  }

  /** A mined nonce above the transaction's says that another transaction has used its nonce; one that
      equals it, that it keeps later ones waiting. */
  predicate Watches(cfg: Config, w: Round, step: Step, s: RetryState, c: Cell, tx: Tx) {
    var consumed := w.minedNonce.Some? && tx.nonce < w.minedNonce.value;
    match Watch(w.signals)
    case None => step.Blocked? && step.run.state == s && step.run.cell == c
    case Some(Cancelled) => Leaves(cfg, w, step, s, c, None, None, ContextCancelled)
    case Some(Mined(receipt)) => Mines(cfg, w, step, s, c, tx, receipt)
    case Some(Reverted(receipt)) => Mines(cfg, w, step, s, c, tx, receipt)
    case Some(Lost) =>
      if consumed then Leaves(cfg, w, step, s, c, Some(tx), None, NonceConsumed)
      else BumpsOrStops(cfg, w, step, s, c, tx)
    case Some(Slow) =>
      if consumed then Leaves(cfg, w, step, s, c, Some(tx), None, NonceConsumed)
      else if w.minedNonce == Some(tx.nonce) then BumpsOrStops(cfg, w, step, s, c, tx)
      else Stays(step, s.(resumeWith := Some(tx)), c)
    case Some(Unknown) => false
  }

  predicate Completes(txs: map<Hash, Tx>, w: Round, h: Hash) {
    h in txs && (w.chain(h).DoneOnChain? || w.chain(h).RevertedOnChain?)
  }

  /** A node that answers knows one of the tracked transactions to be done or reverted. */
  predicate SomeCompleted(txs: map<Hash, Tx>, w: Round) {
    w.readerAnswers && exists h <- w.order :: Completes(txs, w, h)
  }

  predicate FirstCompleted(txs: map<Hash, Tx>, w: Round, i: nat)
    requires i < |w.order|
  {
    Completes(txs, w, w.order[i]) && forall j :: 0 <= j < i ==> !Completes(txs, w, w.order[j])
  }

  predicate ReportsCompleted(cfg: Config, w: Round, step: Step, s: RetryState, c: Cell) {
    exists i: nat :: i < |w.order| && FirstCompleted(s.oldTxs, w, i)
                     && Mines(cfg, w, step, s, c, s.oldTxs[w.order[i]], w.chain(w.order[i]).receipt)
  }

  predicate IsPending(txs: map<Hash, Tx>, chain: Hash -> TxInfo, h: Hash) {
    h in txs && chain(h).InMempool? && txs[h].price > 0.0
  }

  predicate SomePending(txs: map<Hash, Tx>, w: Round) {
    w.readerAnswers && exists h <- w.order :: IsPending(txs, w.chain, h)
  }

  predicate Dearest(txs: map<Hash, Tx>, w: Round, h: Hash) {
    IsPending(txs, w.chain, h) && forall k <- w.order :: IsPending(txs, w.chain, k) ==> txs[k].price <= txs[h].price
  }

  predicate WatchesDearest(cfg: Config, w: Round, step: Step, s: RetryState, c: Cell) {
    exists h <- w.order :: Dearest(s.oldTxs, w, h) && Watches(cfg, w, step, s, c, s.oldTxs[h])
  }

  // ---------------------------------------------------------------- reading a round

  predicate CutShort(run: Run, w: Round) {
    w.cancelled || (run.state.attempts > 0 && run.state.resumeWith.None? && w.cancelledAsleep)
  }

  predicate Attempts(run: Run, w: Round) {
    !CutShort(run, w) && run.state.resumeWith.None?
  }

  /** The round comes to build the transaction, and leaves the cell as c by then. */
  ghost predicate Builds(cfg: Config, run: Run, w: Round, tx: Tx, c: Cell) {
    && Attempts(run, w)
    && var (ready, build) := BuildTx(cfg, run.(cell := Moved(cfg, w, run.cell, w.others)), w);
       build == BuiltTx(tx) && ready.cell == c
  }

  predicate Simulated(cfg: Config, w: Round) {
    cfg.skipSimulation || w.simulation == SimulationOk
  }

  /** The built transaction is signed by its sender and handed to a broadcaster. */
  predicate Sends(cfg: Config, w: Round) {
    && Simulated(cfg, w) && !w.beforeHookFails && w.signing.SignedBySender?
    && !(cfg.syncBroadcast && w.sync.SyncUnavailable?)
  }

  predicate Refuses(cfg: Config, w: Round, verdict: Verdict) {
    if cfg.syncBroadcast
    then w.sync == SyncReply(None, verdict) || (w.sync == SyncTimeout(false) && verdict.SyncTimedOut?)
    else (!w.async.broadcasted && verdict == w.async.verdict)
         || (w.async.broadcasted && !w.registers && verdict.OtherVerdict?)
  }

  /** A receipt may come at once with a synchronous broadcast. */
  predicate Accepts(cfg: Config, w: Round, receipt: Option<Receipt>) {
    if cfg.syncBroadcast
    then (w.sync.SyncReply? && w.sync.receipt.Some? && receipt == w.sync.receipt)
         || (w.sync == SyncTimeout(true) && receipt.None?)
    else w.async.broadcasted && w.registers && receipt.None?
  }

  predicate AnotherAt(txs: map<Hash, Tx>, hash: Hash, n: nat) {
    exists h <- txs :: h != hash && txs[h].nonce == n
  }

  /** A refused transaction is tracked, and the verdict decides with which nonce, prices and count of
      attempts the run goes on. */
  predicate GoesOnRefused(
    cfg: Config, w: Round, step: Step, s: RetryState, c: Cell, tx: Tx, hash: Hash, verdict: Verdict)
  {
    var counted, kept := s.(attempts := s.attempts + 1), s.(nonce := Some(tx.nonce));
    var synced, exhausted := Synced(c, w.resync), s.attempts + 1 > cfg.maxAttempts;
    match verdict
    case ReplacementUnderpriced =>
      if AnotherAt(s.oldTxs, hash, tx.nonce) then BumpsOrStops(cfg, w, step, kept, c, tx)
      else Stays(step, s.(nonce := None), c)
    case NonceGap => Stays(step, s.(nonce := None), synced)
    case NonceIsLow =>
      if !w.readerAnswers then Counts(cfg, w, step, counted, c)
      else if SomeCompleted(s.oldTxs, w) then ReportsCompleted(cfg, w, step, s, c)
      else if exhausted then Leaves(cfg, w, step, counted, synced, None, None, OutOfRetries)
      else Stays(step, counted.(nonce := None), synced)
    case TxIsKnown => Stays(step, kept, c)
    case SyncTimedOut =>
      if exhausted then Leaves(cfg, w, step, counted.(nonce := Some(tx.nonce)), synced, None, None, OutOfRetries)
      else Stays(step, counted.(nonce := Some(tx.nonce)), c)
    case _ =>
      if exhausted then Leaves(cfg, w, step, counted, synced, None, None, OutOfRetries)
      else Stays(step, counted.(nonce := Some(tx.nonce)), c)
  }

  // ---------------------------------------------------------------- building

  /** Why nothing is built: the gas cannot be estimated, there is no nonce to be had, or no price. */
  lemma UnbuiltIff(cfg: Config, run: Run, w: Round)
    ensures var (s, build) := (run.state, BuildTx(cfg, run, w).1);
            var finder := if cfg.txStore then Some(StoreFinder(w.lookup)) else None;
            var unestimated := s.gasLimit == 0 && w.estimate.None?;
            var unnumbered := s.nonce.None?
              && (w.view.None? || Acquire(run.cell, w.view.value.mined, w.view.value.pending, finder).nonce.None?);
            var unpriced := s.price == 0.0 && w.gasSetting.None?;
            && (build == NotBuilt(EstimateGasFailed) <==> unestimated)
            && (build == NotBuilt(AcquireNonceFailed) <==> !unestimated && unnumbered)
            && (build == NotBuilt(GasSettingFailed) <==> !unestimated && !unnumbered && unpriced)
            && (build.BuiltTx? <==> !unestimated && !unnumbered && !unpriced)
  {
    hide Acquire, Release, InUse;
  }

  /** What is built. A price that was never set comes from the node, with its tip; the larger of
      price and tip is offered, extras included. */
  lemma BuiltExactly(cfg: Config, run: Run, w: Round)
    requires BuildTx(cfg, run, w).1.BuiltTx?
    ensures var (s, tx) := (run.state, BuildTx(cfg, run, w).1.tx);
            var finder := if cfg.txStore then Some(StoreFinder(w.lookup)) else None;
            && tx.hash == w.builtHash
            && tx.gas == (if s.gasLimit == 0 then w.estimate.value else s.gasLimit) + cfg.gas.extraGas
            && (s.nonce.Some? ==> tx.nonce == s.nonce.value)
            && (s.nonce.None? ==>
                  Acquire(run.cell, w.view.value.mined, w.view.value.pending, finder).nonce == Some(tx.nonce))
            && (s.price == 0.0 ==> Offers(tx, cfg.gas, w.gasSetting.value.0, w.gasSetting.value.1))
            && (s.price != 0.0 ==> Offers(tx, cfg.gas, s.price, s.tip))
  {
    hide Acquire, Release, InUse;
  }

  predicate Offers(tx: Tx, gas: GasBounds, price: real, tip: real) {
    && tx.tip == tip + gas.extraTip
    && tx.price >= price + gas.extraPrice && tx.price >= tx.tip
    && (tx.price == price + gas.extraPrice || tx.price == tx.tip)
  }

  /** And the tracker's side of it: a nonce is taken only if none was kept, and given back if no price
      can be had for it. */
  lemma BuiltCell(cfg: Config, run: Run, w: Round)
    ensures var (ready, build) := BuildTx(cfg, run, w);
            var s, finder := run.state, if cfg.txStore then Some(StoreFinder(w.lookup)) else None;
            && ready.state == s &&
            if s.gasLimit == 0 && w.estimate.None? then ready.cell == run.cell
            else if s.nonce.Some? || w.view.None? then ready.cell == Moved(cfg, w, run.cell, w.between)
            else
              var taken := Acquire(run.cell, w.view.value.mined, w.view.value.pending, finder);
              var moved := Moved(cfg, w, taken.cell, w.between);
              if build == NotBuilt(GasSettingFailed)
              then taken.nonce.Some? && ready.cell == Release(moved, taken.nonce.value)
              else ready.cell == moved
  {
    hide Acquire, Release, InUse;
  }

  // ---------------------------------------------------------------- rounds

  lemma AttemptedRound(cfg: Config, run: Run, w: Round)
    requires Attempts(run, w)
    ensures var here := run.(cell := Moved(cfg, w, run.cell, w.others));
            var (ready, build) := BuildTx(cfg, here, w);
            var (after, result) := AfterBuild(cfg, ready, build, w);
            ready.state == run.state && Iterate(cfg, run, w) == Finish(cfg, after, result, w)
  {
    hide Finish, AfterBuild, BuildTx;
    BuiltCell(cfg, run.(cell := Moved(cfg, w, run.cell, w.others)), w);
  }

  /** An exit with an error cleans up. */
  lemma LeaveLeaves(
    cfg: Config, run: Run, w: Round, tx: Option<Tx>, receipt: Option<Receipt>, error: Option<Error>)
    ensures var step := Leave(cfg, run, w, tx, receipt, error);
            if error.Some? then Leaves(cfg, w, step, run.state, run.cell, tx, receipt, error.value)
            else step == Exit(run, tx, receipt, None)
  {
    hide InUse;
  }

  lemma MinedMines(cfg: Config, run: Run, w: Round, tx: Tx, receipt: Receipt)
    ensures Mines(cfg, w, Finish(cfg, run, MinedTx(tx, receipt, w.minedHookFails), w), run.state, run.cell, tx, receipt)
  {
    hide Leave, Left;
    LeaveLeaves(cfg, run, w, Some(tx), Some(receipt), MinedTx(tx, receipt, w.minedHookFails).error);
  }

  lemma BumpBumps(cfg: Config, run: Run, w: Round, tx: Tx)
    ensures var (after, result) := BumpOrStop(cfg, run, tx);
            BumpsOrStops(cfg, w, Finish(cfg, after, result, w), run.state, run.cell, tx)
  {
    hide Leave, Left;
    LeaveLeaves(cfg, run, w, Some(tx), None, Some(GasPriceLimitReached));
  }

  lemma AwaitWatches(cfg: Config, run: Run, w: Round, tx: Tx)
    ensures Watches(cfg, w, Await(cfg, run, tx, w), run.state, run.cell, tx)
  {
    hide Leave, Left, BumpOrStop, Watch, BumpsOrStops, MinedTx, Mines;
    WatchStatuses(w.signals);
    BumpBumps(cfg, run, w, tx);
    match Watch(w.signals) {
      case None =>
      case Some(status) =>
        var (handled, result) := Judge(cfg, run, tx, status, w);
        StatusIsFinished(cfg, run, w, tx, status);
        if result.Return? {
          LeaveLeaves(cfg, handled, w, result.tx, result.receipt, result.error);
        }
        if status.Mined? || status.Reverted? {
          MinedMines(cfg, run, w, tx, status.receipt);
        }
    }
  }

  lemma StatusIsFinished(cfg: Config, run: Run, w: Round, tx: Tx, status: TxStatus)
    requires Watch(w.signals) == Some(status)
    ensures var (handled, result) := Judge(cfg, run, tx, status, w);
            Await(cfg, run, tx, w) == Finish(cfg, handled, result, w)
  {
    hide Leave, Watch;
  }

  lemma CancelledRound(cfg: Config, run: Run, w: Round)
    requires CutShort(run, w)
    ensures Leaves(cfg, w, Iterate(cfg, run, w), run.state, Moved(cfg, w, run.cell, w.others),
                   None, None, ContextCancelled)
  {
    hide Leave, Left;
    var here := run.(cell := Moved(cfg, w, run.cell, w.others));
    LeaveLeaves(cfg, here, w, None, None, Some(ContextCancelled));
  }

  /** A resumed transaction is watched; nothing is built. */
  lemma ResumedRound(cfg: Config, run: Run, w: Round)
    requires run.state.resumeWith.Some? && !w.cancelled
    ensures Watches(cfg, w, Iterate(cfg, run, w), run.state.(resumeWith := None), Moved(cfg, w, run.cell, w.others),
                    run.state.resumeWith.value)
  {
    hide Await, Watches;
    var begun := Run(run.state.(resumeWith := None), Moved(cfg, w, run.cell, w.others), run.log);
    AwaitWatches(cfg, begun, w, run.state.resumeWith.value);
  }

  lemma {:induction false} FoundIsFirst(txs: map<Hash, Tx>, w: Round, from: nat)
    requires from <= |w.order|
    requires forall j :: 0 <= j < from ==> !Completes(txs, w, w.order[j])
    ensures var h := FindCompleted(txs, w.chain, w.order[from..]);
            if h.None? then forall k <- w.order :: !Completes(txs, w, k)
            else exists i: nat :: i < |w.order| && w.order[i] == h.value && FirstCompleted(txs, w, i)
    decreases |w.order| - from
  {
    if from < |w.order| {
      assert w.order[from..][1..] == w.order[from + 1..];
      if Completes(txs, w, w.order[from]) {
        assert FirstCompleted(txs, w, from);
      } else {
        FoundIsFirst(txs, w, from + 1);
      }
    }
  }

  lemma {:induction false} FoundIsDearest(
    txs: map<Hash, Tx>, chain: Hash -> TxInfo, order: seq<Hash>, best: Option<Hash>)
    requires best.Some? ==> best.value in txs && txs[best.value].price > 0.0
    ensures var h := FindPending(txs, chain, order, best);
            && (h.None? <==> best.None? && forall k <- order :: !IsPending(txs, chain, k))
            && (h.Some? ==> h == best || (h.value in order && IsPending(txs, chain, h.value)))
            && (best.Some? ==> h.Some? && txs[best.value].price <= txs[h.value].price)
            && (forall k <- order :: IsPending(txs, chain, k) ==> h.Some? && txs[k].price <= txs[h.value].price)
    decreases |order|
  {
    if order == [] {
    } else {
      var h := order[0];
      var highest := if best.Some? then txs[best.value].price else 0.0;
      var next := if h in txs && chain(h).InMempool? && txs[h].price > highest then Some(h) else best;
      FoundIsDearest(txs, chain, order[1..], next);
      assert forall k :: k in order <==> k == h || k in order[1..];
      assert next.None? <==> best.None? && !IsPending(txs, chain, h);
    }
  }

  /** What a completed transaction does to a round that looks for one. */
  lemma CompletedReports(cfg: Config, run: Run, w: Round)
    requires w.readerAnswers
    ensures var done := FindCompleted(run.state.oldTxs, w.chain, w.order);
            && (done.Some? <==> SomeCompleted(run.state.oldTxs, w))
            && (done.Some? ==>
                  var result := MinedTx(run.state.oldTxs[done.value], w.chain(done.value).receipt, w.minedHookFails);
                  ReportsCompleted(cfg, w, Finish(cfg, run, result, w), run.state, run.cell))
  {
    hide Finish, MinedTx, Mines;
    var txs := run.state.oldTxs;
    var done := FindCompleted(txs, w.chain, w.order);
    assert w.order[0..] == w.order;
    FoundIsFirst(txs, w, 0);
    if done.Some? {
      MinedMines(cfg, run, w, txs[done.value], w.chain(done.value).receipt);
    }
  }

  lemma PendingWatches(cfg: Config, run: Run, w: Round)
    requires w.readerAnswers
    ensures var best := FindPending(run.state.oldTxs, w.chain, w.order, None);
            && (best.Some? <==> SomePending(run.state.oldTxs, w))
            && (best.Some? ==>
                  WatchesDearest(cfg, w, Await(cfg, run, run.state.oldTxs[best.value], w), run.state, run.cell))
  {
    hide Await, Watches;
    var txs := run.state.oldTxs;
    var best := FindPending(txs, w.chain, w.order, None);
    FoundIsDearest(txs, w.chain, w.order, None);
    if best.Some? {
      AwaitWatches(cfg, run, w, txs[best.value]);
      assert Dearest(txs, w, best.value);
    }
  }

  /** Gas cannot be estimated: a completed old transaction ends the run, and a pending one is watched.
      Without either, the hook may end the run or set the gas, and the attempt counts. */
  lemma UnestimatedRound(cfg: Config, run: Run, w: Round)
    requires Attempts(run, w) && run.state.gasLimit == 0 && w.estimate.None?
    ensures var step, s, c := Iterate(cfg, run, w), run.state, Moved(cfg, w, run.cell, w.others);
            var gasLimit := if w.estimateHookGas.Some? then w.estimateHookGas.value else 0;
            if SomeCompleted(s.oldTxs, w) then ReportsCompleted(cfg, w, step, s, c)
            else if SomePending(s.oldTxs, w) then WatchesDearest(cfg, w, step, s, c)
            else if w.estimateHookFails then Leaves(cfg, w, step, s, c, None, None, EstimateGasFailed)
            else Counts(cfg, w, step, s.(attempts := s.attempts + 1, gasLimit := gasLimit), c)
  {
    hide BuildTx, Moved, Acquire, EstimationFailure, Finish, ReportsCompleted, WatchesDearest, SomeCompleted,
      SomePending;
    var here := run.(cell := Moved(cfg, w, run.cell, w.others));
    AttemptedRound(cfg, run, w);
    BuiltCell(cfg, here, w);
    UnbuiltIff(cfg, here, w);
    EstimationEnds(cfg, BuildTx(cfg, here, w).0, w);
  }

  lemma EstimationEnds(cfg: Config, run: Run, w: Round)
    requires run.state.gasLimit == 0
    ensures var (after, result) := EstimationFailure(cfg, run, w);
            var step, s, c := Finish(cfg, after, result, w), run.state, run.cell;
            var gasLimit := if w.estimateHookGas.Some? then w.estimateHookGas.value else 0;
            if SomeCompleted(s.oldTxs, w) then ReportsCompleted(cfg, w, step, s, c)
            else if SomePending(s.oldTxs, w) then WatchesDearest(cfg, w, step, s, c)
            else if w.estimateHookFails then Leaves(cfg, w, step, s, c, None, None, EstimateGasFailed)
            else Counts(cfg, w, step, s.(attempts := s.attempts + 1, gasLimit := gasLimit), c)
  {
    hide MinedTx, Leave, Left, FindCompleted, FindPending, Await, ReportsCompleted, WatchesDearest, SomeCompleted,
      SomePending;
    var (after, result) := EstimationFailure(cfg, run, w);
    LeaveLeaves(cfg, after, w, None, None, Some(EstimateGasFailed));
    LeaveLeaves(cfg, after, w, None, None, Some(OutOfRetries));
    if w.readerAnswers {
      CompletedReports(cfg, run, w);
      PendingWatches(cfg, run, w);
    }
    NothingTracked(run.state.oldTxs, w);
  }

  lemma NothingTracked(txs: map<Hash, Tx>, w: Round)
    ensures !w.readerAnswers || txs == map[] ==> !SomeCompleted(txs, w) && !SomePending(txs, w)
  {
  }

  /** Without a nonce or a price the run ends. */
  lemma UnbuiltRound(cfg: Config, run: Run, w: Round)
    requires Attempts(run, w)
    ensures var here := run.(cell := Moved(cfg, w, run.cell, w.others));
            var (ready, build) := BuildTx(cfg, here, w);
            build.NotBuilt? && !build.error.EstimateGasFailed? ==>
              Leaves(cfg, w, Iterate(cfg, run, w), run.state, ready.cell, None, None, build.error)
  {
    hide BuildTx, Leave, Left;
    AttemptedRound(cfg, run, w);
    var (ready, build) := BuildTx(cfg, run.(cell := Moved(cfg, w, run.cell, w.others)), w);
    if build.NotBuilt? {
      LeaveLeaves(cfg, ready, w, None, None, Some(build.error));
    }
  }

  lemma BuiltRound(cfg: Config, run: Run, w: Round, tx: Tx, c: Cell) returns (ready: Run)
    requires Builds(cfg, run, w, tx, c)
    ensures ready.state == run.state && ready.cell == c
    ensures var (after, result) := AfterBuild(cfg, ready, BuiltTx(tx), w);
            Iterate(cfg, run, w) == Finish(cfg, after, result, w)
  {
    hide BuildTx, Iterate, AfterBuild, Finish;
    AttemptedRound(cfg, run, w);
    ready := BuildTx(cfg, run.(cell := Moved(cfg, w, run.cell, w.others)), w).0;
  }

  /** A simulation that fails gives the nonce back, unless the run may retry: then the nonce and the
      gas of the transaction are kept. */
  lemma UnsimulatedRound(cfg: Config, run: Run, w: Round, tx: Tx, c: Cell)
    requires Builds(cfg, run, w, tx, c) && !Simulated(cfg, w)
    ensures var step, s, freed := Iterate(cfg, run, w), run.state, Release(c, tx.nonce);
            var counted := s.(attempts := s.attempts + 1);
            if !w.simulation.SimulationReverts? then Leaves(cfg, w, step, s, freed, None, None, SimulationUnavailable)
            else if !w.simulation.hook.HookRetry? then Leaves(cfg, w, step, s, freed, None, None, SimulationReverted)
            else if counted.attempts > cfg.maxAttempts
            then Leaves(cfg, w, step, counted, freed, None, None, OutOfRetries)
            else Stays(step, counted.(nonce := Some(tx.nonce), gasLimit := tx.gas), c)
  {
    hide Iterate, Builds, Leave, Left, Release, InUse;
    var ready := BuiltRound(cfg, run, w, tx, c);
    var (after, result) := AfterBuild(cfg, ready, BuiltTx(tx), w);
    if result.Return? {
      LeaveLeaves(cfg, after, w, None, None, result.error);
    }
  }

  /** What is given up before it is sent gives its nonce back, unless its own hash is tracked. */
  lemma UnsentRound(cfg: Config, run: Run, w: Round, tx: Tx, c: Cell)
    requires Builds(cfg, run, w, tx, c) && Simulated(cfg, w) && !Sends(cfg, w)
    ensures var freed := if tx.hash in run.state.oldTxs then c else Release(c, tx.nonce);
            var error := if w.beforeHookFails then BeforeHookFailed
                         else if w.signing.SignError? then SigningFailed
                         else if w.signing.SignedByOther? then WrongSigner
                         else NoBroadcaster;
            Leaves(cfg, w, Iterate(cfg, run, w), run.state, freed, None, None, error)
  {
    hide Iterate, Builds, Leave, Left, Release, InUse;
    var ready := BuiltRound(cfg, run, w, tx, c);
    var (after, result) := AfterBuild(cfg, ready, BuiltTx(tx), w);
    LeaveLeaves(cfg, after, w, None, None, result.error);
  }

  function SignedOf(tx: Tx, w: Round): Tx
    requires w.signing.SignedBySender?
  {
    tx.(hash := w.signing.hash)
  }

  function Tracking(s: RetryState, tx: Tx): RetryState {
    s.(oldTxs := s.oldTxs[tx.hash := tx])
  }

  /** A synchronous broadcast that is cancelled in flight is not tracked. */
  lemma CutOffRound(cfg: Config, run: Run, w: Round, tx: Tx, c: Cell)
    requires Builds(cfg, run, w, tx, c) && Sends(cfg, w) && cfg.syncBroadcast && w.sync.SyncCancelled?
    ensures Leaves(cfg, w, Iterate(cfg, run, w), run.state, c, Some(SignedOf(tx, w)), None, ContextCancelled)
  {
    hide Iterate, Builds, Leave, Left;
    var ready := BuiltRound(cfg, run, w, tx, c);
    LeaveLeaves(cfg, Handed(ready, SignedOf(tx, w)), w, Some(SignedOf(tx, w)), None, Some(ContextCancelled));
  }

  /** A broadcast is refused with one verdict or accepted. */
  lemma SentIsJudged(cfg: Config, w: Round)
    requires !(cfg.syncBroadcast && (w.sync.SyncUnavailable? || w.sync.SyncCancelled?))
    ensures (exists verdict :: Refuses(cfg, w, verdict)) <==> !exists receipt :: Accepts(cfg, w, receipt)
    ensures forall a, b :: Refuses(cfg, w, a) && Refuses(cfg, w, b) ==> a == b
  {
    if cfg.syncBroadcast {
      match w.sync {
        case SyncReply(receipt, verdict) =>
          assert receipt.None? ==> Refuses(cfg, w, verdict);
          assert receipt.Some? ==> Accepts(cfg, w, receipt);
        case SyncTimeout(accepted) =>
          assert if accepted then Accepts(cfg, w, None) else Refuses(cfg, w, SyncTimedOut);
      }
    } else {
      assert !w.async.broadcasted ==> Refuses(cfg, w, w.async.verdict);
      assert w.async.broadcasted ==> if w.registers then Accepts(cfg, w, None) else Refuses(cfg, w, OtherVerdict);
    }
  }

  lemma SentRound(cfg: Config, run: Run, w: Round, tx: Tx, c: Cell) returns (sent: Run)
    requires Builds(cfg, run, w, tx, c) && Sends(cfg, w) && !(cfg.syncBroadcast && w.sync.SyncCancelled?)
    ensures sent.state == run.state && sent.cell == c
    ensures var (after, result) := AfterBroadcast(cfg, sent, tx, SignedOf(tx, w), BroadcastOf(cfg, w), w);
            Iterate(cfg, run, w) == Finish(cfg, after, result, w)
  {
    hide Iterate, Builds, Finish, AfterBroadcast, BroadcastOf;
    var ready := BuiltRound(cfg, run, w, tx, c);
    sent := Handed(ready, SignedOf(tx, w));
  }

  /** An accepted transaction is tracked and registered; then the hook is asked, a receipt that has
      come at once ends the run, and otherwise the transaction is watched. */
  lemma AcceptedRound(cfg: Config, run: Run, w: Round, tx: Tx, c: Cell, receipt: Option<Receipt>)
    requires Builds(cfg, run, w, tx, c) && Sends(cfg, w) && Accepts(cfg, w, receipt)
    ensures var step, signed := Iterate(cfg, run, w), SignedOf(tx, w);
            var s, known := Tracking(run.state, signed), if w.registers then SetPending(c, tx.nonce) else c;
            if w.afterHookFails then Leaves(cfg, w, step, s, known, Some(signed), receipt, AfterHookFailed)
            else if receipt.Some? then Mines(cfg, w, step, s, known, signed, receipt.value)
            else Watches(cfg, w, step, s, known, signed)
  {
    hide Iterate, Builds, Leave, Left, Await, Watches, Mines, MinedTx, SetPending;
    var sent := SentRound(cfg, run, w, tx, c);
    assert BroadcastOf(cfg, w) == Accepted(receipt);
    var after := AfterBroadcast(cfg, sent, tx, SignedOf(tx, w), Accepted(receipt), w).0;
    AwaitWatches(cfg, after, w, SignedOf(tx, w));
    if receipt.Some? {
      MinedMines(cfg, after, w, SignedOf(tx, w), receipt.value);
    }
    LeaveLeaves(cfg, after, w, Some(SignedOf(tx, w)), receipt, Some(AfterHookFailed));
  }

  /** And what a refused one does. */
  lemma RefusedRound(cfg: Config, run: Run, w: Round, tx: Tx, c: Cell, verdict: Verdict)
    requires Builds(cfg, run, w, tx, c) && Sends(cfg, w) && Refuses(cfg, w, verdict)
    ensures var signed := SignedOf(tx, w);
            GoesOnRefused(cfg, w, Iterate(cfg, run, w), Tracking(run.state, signed), c, tx, signed.hash, verdict)
  {
    hide Iterate, Builds, Finish, BroadcastFailure, GoesOnRefused;
    var sent := SentRound(cfg, run, w, tx, c);
    assert BroadcastOf(cfg, w) == Refused(verdict);
    var signed := SignedOf(tx, w);
    RefusalGoesOn(cfg, sent.(state := Tracking(run.state, signed)), tx, signed.hash, verdict, w);
  }

  lemma RefusalGoesOn(cfg: Config, run: Run, tx: Tx, hash: Hash, verdict: Verdict, w: Round)
    requires hash in run.state.oldTxs && run.state.oldTxs[hash].nonce == tx.nonce
    ensures var (after, result) := BroadcastFailure(cfg, run, tx, verdict, w);
            GoesOnRefused(cfg, w, Finish(cfg, after, result, w), run.state, run.cell, tx, hash, verdict)
  {
    hide Leave, Left, Underpriced, NonceLow, Resync, BumpsOrStops, Counts, ReportsCompleted, SomeCompleted, AnotherAt;
    var (after, result) := BroadcastFailure(cfg, run, tx, verdict, w);
    LeaveLeaves(cfg, after, w, None, None, Some(OutOfRetries));
    UnderpricedGoesOn(cfg, run, tx, hash, w);
    NonceLowGoesOn(cfg, run, w);
  }

  lemma UnderpricedGoesOn(cfg: Config, run: Run, tx: Tx, hash: Hash, w: Round)
    requires hash in run.state.oldTxs && run.state.oldTxs[hash].nonce == tx.nonce
    ensures var (after, result) := Underpriced(cfg, run, tx);
            var step, s := Finish(cfg, after, result, w), run.state;
            if AnotherAt(s.oldTxs, hash, tx.nonce)
            then BumpsOrStops(cfg, w, step, s.(nonce := Some(tx.nonce)), run.cell, tx)
            else Stays(step, s.(nonce := None), run.cell)
  {
    hide Leave, Left, BumpOrStop, BumpsOrStops, TxsAtNonce, AnotherAt;
    ManyIffAnother(run.state.oldTxs, hash, tx.nonce);
    if AnotherAt(run.state.oldTxs, hash, tx.nonce) {
      BumpBumps(cfg, KeepNonce(Note(run, Rejected(ReplacementUnderpriced, false)), Some(tx.nonce)), w, tx);
      OwnBumps(cfg, run, tx);
    }
  }

  lemma OwnBumps(cfg: Config, run: Run, tx: Tx)
    requires |TxsAtNonce(run.state.oldTxs, tx.nonce)| > 1
    ensures Underpriced(cfg, run, tx) ==
            BumpOrStop(cfg, KeepNonce(Note(run, Rejected(ReplacementUnderpriced, false)), Some(tx.nonce)), tx)
  {
  }

  lemma ManyIffAnother(txs: map<Hash, Tx>, hash: Hash, n: nat)
    requires hash in txs && txs[hash].nonce == n
    ensures |TxsAtNonce(txs, n)| > 1 <==> AnotherAt(txs, hash, n)
  {
    var all := TxsAtNonce(txs, n);
    assert hash in all && |all - {hash}| == |all| - 1;
    if AnotherAt(txs, hash, n) {
      var h :| h in txs && h != hash && txs[h].nonce == n;
      assert h in all - {hash};
    } else {
      assert all - {hash} == {};
    }
  }

  lemma NonceLowGoesOn(cfg: Config, run: Run, w: Round)
    ensures var (after, result) := NonceLow(cfg, run, w);
            var step, s, c := Finish(cfg, after, result, w), run.state, run.cell;
            var counted, synced := s.(attempts := s.attempts + 1), Synced(c, w.resync);
            if !w.readerAnswers then Counts(cfg, w, step, counted, c)
            else if SomeCompleted(s.oldTxs, w) then ReportsCompleted(cfg, w, step, s, c)
            else if counted.attempts > cfg.maxAttempts
            then Leaves(cfg, w, step, counted, synced, None, None, OutOfRetries)
            else Stays(step, counted.(nonce := None), synced)
  {
    hide Leave, Left, Resync, FindCompleted, MinedTx, ReportsCompleted, SomeCompleted;
    var (after, result) := NonceLow(cfg, run, w);
    LeaveLeaves(cfg, after, w, None, None, Some(OutOfRetries));
    if w.readerAnswers {
      CompletedReports(cfg, Note(run, Rejected(NonceIsLow, false)), w);
    }
  }
}
