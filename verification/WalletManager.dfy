/** The retry loop as the manager runs it: the execution context and the tracker are updated in
    place, handler by handler. Every method is proved against its counterpart in RetrySpec. */
module WalletManager {
  import opened Options
  import opened NonceCells
  import opened NonceTracker
  import opened TxMonitor
  import opened RunHistory
  import opened RetrySpec
  import opened RetryTheorems

  datatype ContextError = FromAddressZero | NetworkNil

  datatype ResumeError = NoPendingTx | NoTransaction | NoNetwork

  datatype PendingTx = PendingTx(wallet: Address, chain: ChainId, tx: Option<Tx>)

  class ExecutionContext {
    const wallet: Address
    const chain: ChainId
    const cfg: Config

    var attemptCount: int
    var gasPrice: real
    var tipCap: real
    var gasLimit: nat
    var nonce: Option<nat>
    var oldTxs: map<Hash, Tx>
    var resumeWith: Option<Tx>

    ghost function State(): RetryState
      reads this
    {
      RetryState(attemptCount, gasPrice, tipCap, gasLimit, nonce, oldTxs, resumeWith)
    }

    constructor Fresh(wallet: Address, chain: ChainId, cfg: Config, initialPrice: real, initialTip: real)
      ensures this.wallet == wallet && this.chain == chain
      ensures this.cfg == FreshConfig(cfg, initialPrice, initialTip)
      ensures State() == FreshRun(NonceCells.FRESH, initialPrice, initialTip, 0).state
    {
      var gas := cfg.gas;
      if gas.maxPrice == 0.0 {
        gas := gas.(maxPrice := initialPrice * MAX_CAP_MULTIPLIER);
      }
      if gas.maxTip == 0.0 {
        gas := gas.(maxTip := initialTip * MAX_CAP_MULTIPLIER);
      }
      if gas.priceFactor == 0.0 {
        gas := gas.(priceFactor := DEFAULT_PRICE_FACTOR);
      }
      if gas.tipFactor == 0.0 {
        gas := gas.(tipFactor := DEFAULT_TIP_FACTOR);
      }
      this.wallet, this.chain := wallet, chain;
      this.cfg := cfg.(maxAttempts := if cfg.maxAttempts < 0 then 0 else cfg.maxAttempts, gas := gas);
      attemptCount, gasPrice, tipCap, gasLimit := 0, initialPrice, initialTip, 0;
      nonce, oldTxs, resumeWith := None, map[], None;
    }

    constructor Resume(wallet: Address, chain: ChainId, cfg: Config, tx: Tx)
      ensures this.wallet == wallet && this.chain == chain && this.cfg == cfg
      ensures State() == ResumedRun(NonceCells.FRESH, tx).state
    {
      this.wallet, this.chain, this.cfg := wallet, chain, cfg;
      attemptCount, gasPrice, tipCap, gasLimit := 0, tx.price, tx.tip, tx.gas;
      nonce, oldTxs, resumeWith := Some(tx.nonce), map[tx.hash := tx], Some(tx);
    }

    method BumpGasForSlowTx(tx: Option<Tx>) returns (applied: bool)
      modifies this
      ensures applied <==>
                && tx.Some?
                && !(cfg.gas.maxPrice > 0.0 && tx.value.price * cfg.gas.priceFactor > cfg.gas.maxPrice)
                && !(cfg.gas.maxTip > 0.0 && tx.value.tip * cfg.gas.tipFactor > cfg.gas.maxTip)
      ensures applied ==> gasPrice == tx.value.price * cfg.gas.priceFactor && tipCap == tx.value.tip * cfg.gas.tipFactor
                          && nonce == Some(tx.value.nonce)
      ensures State() == if tx.Some? then Bump(cfg.gas, old(State()), tx.value) else old(State())
    {
      if tx.None? {
        return false;
      }
      var newGasPrice := tx.value.price * cfg.gas.priceFactor;
      var newTipCap := tx.value.tip * cfg.gas.tipFactor;
      if cfg.gas.maxPrice > 0.0 && newGasPrice > cfg.gas.maxPrice {
        return false;
      }
      if cfg.gas.maxTip > 0.0 && newTipCap > cfg.gas.maxTip {
        return false;
      }
      gasPrice := newGasPrice;
      tipCap := newTipCap;
      nonce := Some(tx.value.nonce);
      return true;
    }

    method IncrementRetryAndCheck() returns (result: Option<Result>)
      modifies this
      ensures State() == old(State()).(attempts := old(State()).attempts + 1)
      ensures result == if State().attempts > cfg.maxAttempts then Some(GiveUp(OutOfRetries)) else None
    {
      attemptCount := attemptCount + 1;
      if attemptCount > cfg.maxAttempts {
        return Some(GiveUp(OutOfRetries));
      }
      return None;
    }
  }

  method NewTxExecutionContext(
    from: Option<Address>, network: Option<ChainId>, cfg: Config, initialPrice: real, initialTip: real)
    returns (ctx: ExecutionContext?, err: Option<ContextError>)
    ensures err == if from.None? then Some(FromAddressZero) else if network.None? then Some(NetworkNil) else None
    ensures err.None? <==> ctx != null
    ensures ctx != null ==> fresh(ctx) && ctx.wallet == from.value && ctx.chain == network.value
                            && ctx.cfg == FreshConfig(cfg, initialPrice, initialTip)
                            && ctx.State() == FreshRun(NonceCells.FRESH, initialPrice, initialTip, 0).state
  {
    if from.None? {
      return null, Some(FromAddressZero);
    }
    if network.None? {
      return null, Some(NetworkNil);
    }
    ctx := new ExecutionContext.Fresh(from.value, network.value, cfg, initialPrice, initialTip);
    err := None;
  }

  method FindCompletedTx(txs: map<Hash, Tx>, chain: Hash -> TxInfo, order: seq<Hash>) returns (h: Option<Hash>)
    ensures h == FindCompleted(txs, chain, order)
    ensures h.None? ==> forall k <- order :: k in txs ==> !Completed(chain(k))
  {
    var i := 0;
    while i < |order|
      invariant 0 <= i <= |order|
      invariant FindCompleted(txs, chain, order[i..]) == FindCompleted(txs, chain, order)
      invariant forall k <- order[..i] :: k in txs ==> !Completed(chain(k))
    {
      assert order[i..][1..] == order[i + 1..];
      assert order[..i + 1] == order[..i] + [order[i]];
      if order[i] in txs && Completed(chain(order[i])) {
        return Some(order[i]);
      }
      i := i + 1;
    }
    assert order[..i] == order;
    return None;
  }

  method FindBestPending(txs: map<Hash, Tx>, chain: Hash -> TxInfo, order: seq<Hash>) returns (best: Option<Hash>)
    ensures best == FindPending(txs, chain, order, None)
    ensures best.Some? ==> best.value in txs && chain(best.value).InMempool? && txs[best.value].price > 0.0
    ensures forall k <- order :: k in txs && chain(k).InMempool? && txs[k].price > 0.0 ==>
              best.Some? && txs[k].price <= txs[best.value].price
  {
    var highest := 0.0;
    best := None;
    var i := 0;
    while i < |order|
      invariant 0 <= i <= |order|
      invariant best.Some? ==> best.value in txs && chain(best.value).InMempool? && txs[best.value].price > 0.0
      invariant highest == if best.Some? then txs[best.value].price else 0.0
      invariant FindPending(txs, chain, order[i..], best) == FindPending(txs, chain, order, None)
      invariant forall k <- order[..i] :: k in txs && chain(k).InMempool? ==> txs[k].price <= highest
    {
      assert order[i..][1..] == order[i + 1..];
      assert order[..i + 1] == order[..i] + [order[i]];
      var h := order[i];
      if h in txs && chain(h).InMempool? && txs[h].price > highest {
        highest := txs[h].price;
        best := Some(h);
      }
      i := i + 1;
    }
    assert order[..i] == order;
  }

  method CountAtNonce(txs: map<Hash, Tx>, nonce: nat) returns (count: nat)
    ensures count == |TxsAtNonce(txs, nonce)|
  {
    count := 0;
    var todo := txs.Keys;
    ghost var seen := {};
    while todo != {}
      invariant todo <= txs.Keys
      invariant seen == set h | h in txs && h !in todo && txs[h].nonce == nonce
      invariant count == |seen|
      decreases todo
    {
      var h :| h in todo;
      todo := todo - {h};
      if txs[h].nonce == nonce {
        seen := seen + {h};
        count := count + 1;
      }
    }
    assert seen == TxsAtNonce(txs, nonce);
  }

  function OutcomeOf(step: Step): Outcome {
    match step
    case Next(_) => StillRunning
    case Blocked(_) => StillWaiting
    case Exit(_, tx, receipt, error) => Returned(tx, receipt, error)
  }

  class Manager {
    const tracker: Tracker
    ghost var log: History

    constructor (tracker: Tracker)
      ensures this.tracker == tracker && log == Start
    {
      this.tracker := tracker;
      log := Start;
    }

    ghost function RunOf(ctx: ExecutionContext): Run
      reads this, ctx, tracker
    {
      Run(ctx.State(), tracker.At(ctx.wallet, ctx.chain), log)
    }

    /** Other callers' operations, each through the tracker's own methods. */
    method OtherCallers(ctx: ExecutionContext, ops: seq<Op>, finder: Option<Finder>)
      modifies tracker
      ensures tracker.At(ctx.wallet, ctx.chain) == ApplyAll(old(tracker.At(ctx.wallet, ctx.chain)), ops, finder)
      ensures tracker.OnlyAt(ctx.wallet, ctx.chain)
    {
      var i := 0;
      while i < |ops|
        invariant 0 <= i <= |ops|
        invariant ApplyAll(tracker.At(ctx.wallet, ctx.chain), ops[i..], finder)
               == ApplyAll(old(tracker.At(ctx.wallet, ctx.chain)), ops, finder)
        invariant tracker.OnlyAt(ctx.wallet, ctx.chain)
      {
        assert ops[i..][1..] == ops[i + 1..];
        match ops[i] {
          case DoAcquire(m, r) => var _ := tracker.AcquireNonce(ctx.wallet, ctx.chain, m, r, finder);
          case DoRelease(n) => tracker.ReleaseNonce(ctx.wallet, ctx.chain, n);
          case DoSetPending(n) => tracker.SetPendingNonce(ctx.wallet, ctx.chain, n);
          case DoResync(m, r) => tracker.ResyncFromRemote(ctx.wallet, ctx.chain, m, r);
        }
        i := i + 1;
      }
    }

    method AcquireNonce(ctx: ExecutionContext, w: Round) returns (nonce: Option<nat>)
      modifies tracker, this`log
      ensures (RunOf(ctx), nonce) == RetrySpec.AcquireNonce(ctx.cfg, old(RunOf(ctx)), w)
      ensures tracker.OnlyAt(ctx.wallet, ctx.chain)
    {
      if w.view.None? {
        return None;
      }
      var gapFinder := None;
      if ctx.cfg.txStore {
        gapFinder := Some(StoreFinder(w.lookup));
      }
      nonce := tracker.AcquireNonce(ctx.wallet, ctx.chain, w.view.value.mined, w.view.value.pending, gapFinder);
      if nonce.Some? {
        log := Append(log, Acquired(nonce.value));
      }
    }

    method ReleaseNonce(ctx: ExecutionContext, n: nat)
      modifies tracker, this`log
      ensures RunOf(ctx) == RetrySpec.ReleaseNonce(old(RunOf(ctx)), n)
      ensures tracker.OnlyAt(ctx.wallet, ctx.chain)
    {
      tracker.ReleaseNonce(ctx.wallet, ctx.chain, n);
      log := Append(log, Released(n, InUse(RunOf(ctx), n)));
    }

    method ResyncNonceFromChain(ctx: ExecutionContext, answer: Option<View>)
      modifies tracker, this`log
      ensures RunOf(ctx) == ResyncNonce(old(RunOf(ctx)), answer)
      ensures tracker.OnlyAt(ctx.wallet, ctx.chain)
    {
      if answer.Some? {
        tracker.ResyncFromRemote(ctx.wallet, ctx.chain, answer.value.mined, answer.value.pending);
      }
      log := Append(log, Resynced);
    }

    method RegisterBroadcastedTx(ctx: ExecutionContext, tx: Tx, registers: bool)
      modifies tracker, this`log
      ensures RunOf(ctx) == Register(old(RunOf(ctx)), tx.nonce, registers)
      ensures tracker.OnlyAt(ctx.wallet, ctx.chain)
    {
      if registers {
        tracker.SetPendingNonce(ctx.wallet, ctx.chain, tx.nonce);
        log := Append(log, Registered(tx.nonce));
      }
    }

    method Price(gas: GasBounds, hash: Hash, nonce: nat, gasPrice: real, tipCap: real, gasLimit: nat) returns (tx: Tx)
      ensures tx == PricedTx(gas, hash, nonce, gasPrice, tipCap, gasLimit)
      ensures tx.tip <= tx.price && (tx.price == gasPrice + gas.extraPrice || tx.price == tx.tip)
    {
      var priceToUse := gasPrice + gas.extraPrice;
      var tipToUse := tipCap + gas.extraTip;
      if tipToUse > priceToUse {
        priceToUse := tipToUse;
      }
      return Tx(hash, nonce, priceToUse, tipToUse, gasLimit + gas.extraGas);
    }

    method BuildTx(ctx: ExecutionContext, w: Round) returns (build: Build)
      modifies tracker, this`log
      ensures (RunOf(ctx), build) == RetrySpec.BuildTx(ctx.cfg, old(RunOf(ctx)), w)
      ensures tracker.OnlyAt(ctx.wallet, ctx.chain)
    {
      hide RetrySpec.AcquireNonce, RetrySpec.ReleaseNonce, PricedTx, InUse;
      var gasLimit := ctx.gasLimit;
      if gasLimit == 0 {
        if w.estimate.None? {
          return NotBuilt(EstimateGasFailed);
        }
        gasLimit := w.estimate.value;
      }
      var nonce := ctx.nonce;
      if nonce.None? {
        nonce := AcquireNonce(ctx, w);
        if nonce.None? {
          OtherCallers(ctx, w.between, GapFinderOf(ctx.cfg, w));
          return NotBuilt(AcquireNonceFailed);
        }
      }
      OtherCallers(ctx, w.between, GapFinderOf(ctx.cfg, w));
      var gasPrice, tipCap := ctx.gasPrice, ctx.tipCap;
      if gasPrice == 0.0 {
        if w.gasSetting.None? {
          if ctx.nonce.None? {
            ReleaseNonce(ctx, nonce.value);
          }
          return NotBuilt(GasSettingFailed);
        }
        gasPrice, tipCap := w.gasSetting.value.0, w.gasSetting.value.1;
      }
      var tx := Price(ctx.cfg.gas, w.builtHash, nonce.value, gasPrice, tipCap, gasLimit);
      log := Append(log, Built(tx));
      return BuiltTx(tx);
    }

    method HandleMinedTx(tx: Tx, receipt: Receipt, hookFails: bool) returns (result: Result)
      ensures result == MinedTx(tx, receipt, hookFails)
    {
      if hookFails {
        return Result.Return(Some(tx), Some(receipt), Some(MinedHookFailed));
      }
      var revertErr := None;
      if receipt.failed {
        revertErr := Some(TxReverted);
      }
      return Result.Return(Some(tx), Some(receipt), revertErr);
    }

    method HandleGasEstimationFailure(ctx: ExecutionContext, w: Round) returns (result: Result)
      modifies ctx
      ensures (RunOf(ctx), result) == EstimationFailure(ctx.cfg, old(RunOf(ctx)), w)
    {
      if ctx.oldTxs != map[] && w.readerAnswers {
        var done := FindCompletedTx(ctx.oldTxs, w.chain, w.order);
        if done.Some? {
          result := HandleMinedTx(ctx.oldTxs[done.value], w.chain(done.value).receipt, w.minedHookFails);
          return;
        }
        var best := FindBestPending(ctx.oldTxs, w.chain, w.order);
        if best.Some? {
          return Monitor(ctx.oldTxs[best.value]);
        }
      }
      if w.estimateHookFails {
        return GiveUp(EstimateGasFailed);
      }
      if w.estimateHookGas.Some? {
        ctx.gasLimit := w.estimateHookGas.value;
      }
      var out := ctx.IncrementRetryAndCheck();
      return if out.Some? then out.value else Retry;
    }

    method HandleEthCallRevertFailure(ctx: ExecutionContext, tx: Tx, hook: HookAnswer) returns (result: Result)
      modifies ctx, tracker, this`log
      ensures (RunOf(ctx), result) == SimulationRevert(ctx.cfg, old(RunOf(ctx)), tx, hook)
      ensures tracker.OnlyAt(ctx.wallet, ctx.chain)
    {
      if !hook.HookRetry? {
        ReleaseNonce(ctx, tx.nonce);
        return GiveUp(SimulationReverted);
      }
      var out := ctx.IncrementRetryAndCheck();
      if out.Some? {
        ReleaseNonce(ctx, tx.nonce);
        return out.value;
      }
      ctx.nonce := Some(tx.nonce);
      ctx.gasLimit := tx.gas;
      return Retry;
    }

    method HandleReplacementUnderpricedError(ctx: ExecutionContext, tx: Tx) returns (result: Result)
      modifies ctx, this`log
      ensures (RunOf(ctx), result) == Underpriced(ctx.cfg, old(RunOf(ctx)), tx)
    {
      var txsAtNonce := CountAtNonce(ctx.oldTxs, tx.nonce);
      if txsAtNonce <= 1 {
        log := Append(log, Rejected(ReplacementUnderpriced, true));
        ctx.nonce := None;
        return Retry;
      }
      log := Append(log, Rejected(ReplacementUnderpriced, false));
      ctx.nonce := Some(tx.nonce);
      var bumped := ctx.BumpGasForSlowTx(Some(tx));
      if bumped {
        log := Append(log, Bumped(tx));
        return Retry;
      }
      return Result.Return(Some(tx), None, Some(GasPriceLimitReached));
    }

    method HandleNonceGapError(ctx: ExecutionContext, w: Round) returns (result: Result)
      modifies ctx, tracker, this`log
      ensures RunOf(ctx) == KeepNonce(ResyncNonce(Note(old(RunOf(ctx)), Rejected(NonceGap, false)), w.resync), None)
      ensures result == Retry
      ensures tracker.OnlyAt(ctx.wallet, ctx.chain)
    {
      log := Append(log, Rejected(NonceGap, false));
      ResyncNonceFromChain(ctx, w.resync);
      ctx.nonce := None;
      return Retry;
    }

    method HandleNonceIsLowError(ctx: ExecutionContext, w: Round) returns (result: Result)
      modifies ctx, tracker, this`log
      ensures (RunOf(ctx), result) == NonceLow(ctx.cfg, old(RunOf(ctx)), w)
      ensures tracker.OnlyAt(ctx.wallet, ctx.chain)
    {
      hide ResyncNonce, MinedTx;
      log := Append(log, Rejected(NonceIsLow, false));
      if !w.readerAnswers {
        var out := ctx.IncrementRetryAndCheck();
        return if out.Some? then out.value else Retry;
      }
      var done := FindCompletedTx(ctx.oldTxs, w.chain, w.order);
      if done.Some? {
        result := HandleMinedTx(ctx.oldTxs[done.value], w.chain(done.value).receipt, w.minedHookFails);
        return;
      }
      var out := ctx.IncrementRetryAndCheck();
      if out.Some? {
        ResyncNonceFromChain(ctx, w.resync);
        return out.value;
      }
      ResyncNonceFromChain(ctx, w.resync);
      ctx.nonce := None;
      return Retry;
    }

    /** Count the attempt; when retries are exhausted, resync before giving up. */
    method CountOrResync(ctx: ExecutionContext, w: Round) returns (out: Option<Result>)
      modifies ctx, tracker, this`log
      ensures var counted := CountAttempt(old(RunOf(ctx)));
              && out == (if Exhausted(ctx.cfg, counted) then Some(GiveUp(OutOfRetries)) else None)
              && RunOf(ctx) == if out.Some? then ResyncNonce(counted, w.resync) else counted
      ensures tracker.OnlyAt(ctx.wallet, ctx.chain)
    {
      hide ResyncNonce;
      out := ctx.IncrementRetryAndCheck();
      if out.Some? {
        ResyncNonceFromChain(ctx, w.resync);
      }
    }

    method HandleBroadcastError(ctx: ExecutionContext, tx: Tx, verdict: Verdict, w: Round) returns (result: Result)
      modifies ctx, tracker, this`log
      ensures (RunOf(ctx), result) == BroadcastFailure(ctx.cfg, old(RunOf(ctx)), tx, verdict, w)
      ensures tracker.OnlyAt(ctx.wallet, ctx.chain)
    {
      hide Underpriced, NonceLow, ResyncNonce;
      if verdict == ReplacementUnderpriced {
        result := HandleReplacementUnderpricedError(ctx, tx);
      } else if verdict == NonceGap {
        result := HandleNonceGapError(ctx, w);
      } else if verdict == NonceIsLow {
        result := HandleNonceIsLowError(ctx, w);
      } else {
        result := HandleOtherBroadcastError(ctx, tx, verdict, w);
      }
    }

    method HandleOtherBroadcastError(ctx: ExecutionContext, tx: Tx, verdict: Verdict, w: Round) returns (result: Result)
      requires !verdict.ReplacementUnderpriced? && !verdict.NonceGap? && !verdict.NonceIsLow?
      modifies ctx, tracker, this`log
      ensures (RunOf(ctx), result) == BroadcastFailure(ctx.cfg, old(RunOf(ctx)), tx, verdict, w)
      ensures tracker.OnlyAt(ctx.wallet, ctx.chain)
    {
      hide ResyncNonce, Append;
      log := Append(log, Rejected(verdict, false));
      if verdict == SyncTimedOut || verdict == TxIsKnown {
        ctx.nonce := Some(tx.nonce);
      }
      if verdict == TxIsKnown {
        return Retry;
      }
      var out := CountOrResync(ctx, w);
      if out.Some? {
        return out.value;
      }
      ctx.nonce := Some(tx.nonce);
      return Retry;
    }

    method ReleaseIfUntracked(ctx: ExecutionContext, tx: Tx, error: Error) returns (result: Result)
      modifies tracker, this`log
      ensures (RunOf(ctx), result) == AbandonUnsigned(old(RunOf(ctx)), tx, error)
      ensures tracker.OnlyAt(ctx.wallet, ctx.chain)
    {
      if tx.hash !in ctx.oldTxs {
        ReleaseNonce(ctx, tx.nonce);
      }
      return GiveUp(error);
    }

    method SignAndBroadcastTransaction(ctx: ExecutionContext, tx: Tx, w: Round) returns (result: Result)
      modifies ctx, tracker, this`log
      ensures (RunOf(ctx), result) == SignAndBroadcast(ctx.cfg, old(RunOf(ctx)), tx, w)
      ensures tracker.OnlyAt(ctx.wallet, ctx.chain)
    {
      hide AfterBroadcast;
      if w.beforeHookFails {
        result := ReleaseIfUntracked(ctx, tx, BeforeHookFailed);
        return;
      }
      if w.signing.SignError? {
        result := ReleaseIfUntracked(ctx, tx, SigningFailed);
        return;
      }
      if w.signing.SignedByOther? {
        result := ReleaseIfUntracked(ctx, tx, WrongSigner);
        return;
      }
      var signed := tx.(hash := w.signing.hash);
      log := Append(log, Signed(signed));
      if ctx.cfg.syncBroadcast && w.sync.SyncUnavailable? {
        result := ReleaseIfUntracked(ctx, tx, NoBroadcaster);
        return;
      }
      log := Append(log, Sent(signed));
      var successful, receipt: Option<Receipt>, verdict := false, None, NoVerdict;
      if ctx.cfg.syncBroadcast {
        match w.sync {
          case SyncReply(reply, replyVerdict) =>
            receipt, verdict := reply, replyVerdict;
            successful := receipt.Some?;
          case SyncTimeout(accepted) =>
            successful := accepted;
            verdict := SyncTimedOut;
          case SyncCancelled =>
            return Result.Return(Some(signed), None, Some(ContextCancelled));
        }
      } else {
        successful := w.async.broadcasted && w.registers;
        verdict := if w.async.broadcasted then OtherVerdict else w.async.verdict;
      }
      result := TrackAndJudge(ctx, tx, signed, successful, receipt, verdict, w);
    }

    method TrackAndJudge(
      ctx: ExecutionContext, tx: Tx, signed: Tx, successful: bool, receipt: Option<Receipt>, verdict: Verdict, w: Round)
      returns (result: Result)
      requires signed.nonce == tx.nonce
      modifies ctx, tracker, this`log
      ensures (RunOf(ctx), result) == AfterBroadcast(ctx.cfg, old(RunOf(ctx)), tx, signed,
                                                     if successful then Accepted(receipt) else Refused(verdict), w)
      ensures tracker.OnlyAt(ctx.wallet, ctx.chain)
    {
      hide BroadcastFailure;
      if successful {
        RegisterBroadcastedTx(ctx, signed, w.registers);
      }
      ctx.oldTxs := ctx.oldTxs[signed.hash := signed];
      if !successful {
        result := HandleBroadcastError(ctx, tx, verdict, w);
        return;
      }
      if w.afterHookFails {
        return Result.Return(Some(signed), receipt, Some(AfterHookFailed));
      }
      if receipt.Some? {
        result := HandleMinedTx(signed, receipt.value, w.minedHookFails);
        return;
      }
      return Monitor(signed);
    }

    method ExecuteTransactionAttempt(ctx: ExecutionContext, w: Round) returns (result: Result)
      modifies ctx, tracker, this`log
      ensures (RunOf(ctx), result) == Attempt(ctx.cfg, old(RunOf(ctx)), w)
      ensures tracker.OnlyAt(ctx.wallet, ctx.chain)
    {
      hide RetrySpec.BuildTx, SignAndBroadcast, EstimationFailure, SimulationRevert;
      var build := BuildTx(ctx, w);
      if build.NotBuilt? {
        if build.error == EstimateGasFailed {
          result := HandleGasEstimationFailure(ctx, w);
          return;
        }
        return GiveUp(build.error);
      }
      var tx := build.tx;
      if !ctx.cfg.skipSimulation {
        match w.simulation {
          case NoSimulationReader =>
            ReleaseNonce(ctx, tx.nonce);
            return GiveUp(SimulationUnavailable);
          case SimulationBroken =>
            ReleaseNonce(ctx, tx.nonce);
            return GiveUp(SimulationUnavailable);
          case SimulationReverts(hook) =>
            result := HandleEthCallRevertFailure(ctx, tx, hook);
            return;
          case SimulationOk =>
        }
      }
      result := SignAndBroadcastTransaction(ctx, tx, w);
    }

    method BumpAndRetry(ctx: ExecutionContext, tx: Tx) returns (result: Result)
      modifies ctx, this`log
      ensures (RunOf(ctx), result) == BumpOrStop(ctx.cfg, old(RunOf(ctx)), tx)
    {
      var bumped := ctx.BumpGasForSlowTx(Some(tx));
      if bumped {
        log := Append(log, Bumped(tx));
        return Retry;
      }
      return Result.Return(Some(tx), None, Some(GasPriceLimitReached));
    }

    method HandleTransactionStatus(ctx: ExecutionContext, tx: Tx, status: TxStatus, w: Round) returns (result: Result)
      modifies ctx, this`log
      ensures (RunOf(ctx), result) == TransactionStatus(ctx.cfg, old(RunOf(ctx)), tx, status, w)
    {
      match status
      case Mined(receipt) =>
        result := HandleMinedTx(tx, receipt, w.minedHookFails);
      case Reverted(receipt) =>
        result := HandleMinedTx(tx, receipt, w.minedHookFails);
      case Lost =>
        if w.minedNonce.Some? && tx.nonce < w.minedNonce.value {
          return Result.Return(Some(tx), None, Some(NonceConsumed));
        }
        result := BumpAndRetry(ctx, tx);
      case Slow =>
        if w.minedNonce.Some? && tx.nonce < w.minedNonce.value {
          return Result.Return(Some(tx), None, Some(NonceConsumed));
        }
        if w.minedNonce.None? || tx.nonce != w.minedNonce.value {
          ctx.resumeWith := Some(tx);
          log := Append(log, KeptWaiting);
          return Retry;
        }
        result := BumpAndRetry(ctx, tx);
      case _ =>
        var out := ctx.IncrementRetryAndCheck();
        return if out.Some? then out.value else Retry;
    }

    /** The deferred nonce guard, run on every exit with an error. */
    method ReleaseOrResync(ctx: ExecutionContext, w: Round)
      modifies tracker, this`log
      ensures RunOf(ctx) == Cleanup(ctx.cfg, old(RunOf(ctx)), w)
      ensures tracker.OnlyAt(ctx.wallet, ctx.chain)
    {
      OtherCallers(ctx, w.late, GapFinderOf(ctx.cfg, w));
      if ctx.oldTxs == map[] {
        if ctx.nonce.Some? {
          ReleaseNonce(ctx, ctx.nonce.value);
        }
      } else {
        ResyncNonceFromChain(ctx, w.exitResync);
      }
    }

    /** How an iteration ended; the run itself is in the context, the tracker and the log. */
    ghost predicate Ended(ctx: ExecutionContext, step: Step, outcome: Outcome)
      reads this, ctx, tracker
    {
      step.run == RunOf(ctx) && outcome == OutcomeOf(step)
    }

    /** A whole job has run against the script, starting from the cell that the tracker had. */
    ghost predicate HasRun(job: Job, wallet: Address, chain: ChainId, cell: Cell, script: seq<Round>, outcome: Outcome)
      reads this, tracker
    {
      var end := Loop(ConfigOf(job), StartOf(job, cell), script);
      log == end.run.log && tracker.At(wallet, chain) == end.run.cell && outcome == OutcomeOf(end)
    }

    /** A caller who is told of success, or of a revert, is told the transaction and its receipt. */
    ghost predicate ToldTheTruth(resumed: set<Tx>, outcome: Outcome)
      reads this
    {
      outcome.Returned? && (outcome.error.None? || outcome.error == Some(TxReverted)) ==>
        && outcome.tx.Some? && outcome.receipt.Some?
        && (outcome.error.None? <==> !outcome.receipt.value.failed)
        && (SignedIn(log, outcome.tx.value) || outcome.tx.value in resumed)
    }

    method Finish(ctx: ExecutionContext, w: Round, result: Result) returns (outcome: Outcome)
      requires result.Return?
      modifies tracker, this`log
      ensures Ended(ctx, Leave(ctx.cfg, old(RunOf(ctx)), w, result.tx, result.receipt, result.error), outcome)
      ensures tracker.OnlyAt(ctx.wallet, ctx.chain)
    {
      if result.error.Some? {
        ReleaseOrResync(ctx, w);
      }
      return Returned(result.tx, result.receipt, result.error);
    }

    method AwaitStatus(ctx: ExecutionContext, tx: Tx, w: Round) returns (outcome: Outcome)
      modifies ctx, tracker, this`log
      ensures Ended(ctx, Await(ctx.cfg, old(RunOf(ctx)), tx, w), outcome)
      ensures tracker.OnlyAt(ctx.wallet, ctx.chain)
    {
      hide TransactionStatus, Cleanup;
      var statusChan := MonitorTxContext(w.signals);
      if statusChan == [] {
        return StillWaiting;
      }
      var status := statusChan[0];
      if status == Cancelled {
        outcome := Finish(ctx, w, GiveUp(ContextCancelled));
        return;
      }
      var result := HandleTransactionStatus(ctx, tx, status, w);
      if result.Return? {
        outcome := Finish(ctx, w, result);
        return;
      }
      return StillRunning;
    }

    method RunRound(ctx: ExecutionContext, w: Round) returns (outcome: Outcome)
      modifies ctx, tracker, this`log
      ensures Ended(ctx, Iterate(ctx.cfg, old(RunOf(ctx)), w), outcome)
      ensures tracker.OnlyAt(ctx.wallet, ctx.chain)
    {
      hide Attempt, Cleanup, TransactionStatus, Await;
      OtherCallers(ctx, w.others, GapFinderOf(ctx.cfg, w));
      if w.cancelled || (ctx.attemptCount > 0 && ctx.resumeWith.None? && w.cancelledAsleep) {
        outcome := Finish(ctx, w, GiveUp(ContextCancelled));
        return;
      }
      var result: Result;
      if ctx.resumeWith.Some? {
        result := Monitor(ctx.resumeWith.value);
        ctx.resumeWith := None;
      } else {
        result := ExecuteTransactionAttempt(ctx, w);
      }
      match result
      case Return(_, _, _) => outcome := Finish(ctx, w, result);
      case Retry => outcome := StillRunning;
      case Monitor(tx) => outcome := AwaitStatus(ctx, tx, w);
    }

    method ExecuteTransactionLoop(ctx: ExecutionContext, script: seq<Round>) returns (outcome: Outcome)
      modifies ctx, tracker, this`log
      ensures Ended(ctx, Loop(ctx.cfg, old(RunOf(ctx)), script), outcome)
      ensures tracker.OnlyAt(ctx.wallet, ctx.chain)
    {
      hide Iterate;
      var i := 0;
      while i < |script|
        invariant 0 <= i <= |script|
        invariant Loop(ctx.cfg, RunOf(ctx), script[i..]) == Loop(ctx.cfg, old(RunOf(ctx)), script)
        invariant tracker.OnlyAt(ctx.wallet, ctx.chain)
      {
        assert script[i..][1..] == script[i + 1..];
        outcome := RunRound(ctx, script[i]);
        if outcome != StillRunning {
          return;
        }
        i := i + 1;
      }
      return StillRunning;
    }

    /** The entry for a new transaction. */
    method EnsureTx(
      from: Option<Address>, network: Option<ChainId>, cfg: Config, gasPrice: real, tipCap: real, gasLimit: nat,
      script: seq<Round>)
      returns (outcome: Outcome, err: Option<ContextError>)
      modifies tracker, this`log
      ensures err == if from.None? then Some(FromAddressZero) else if network.None? then Some(NetworkNil) else None
      ensures err.Some? ==> log == old(log) && forall w, c :: tracker.At(w, c) == old(tracker.At(w, c))
      ensures err.None? ==>
                && HasRun(Submit(cfg, gasPrice, tipCap, gasLimit), from.value, network.value,
                          old(tracker.At(from.value, network.value)), script, outcome)
                && tracker.OnlyAt(from.value, network.value)
                && ToldTheTruth({}, outcome)
    {
      hide Loop, SignedIn;
      var ctx;
      ctx, err := NewTxExecutionContext(from, network, cfg, gasPrice, tipCap);
      if err.Some? {
        return StillRunning, err;
      }
      ctx.gasLimit := gasLimit;
      log := Start;
      assert RunOf(ctx) == FreshRun(old(tracker.At(from.value, network.value)), gasPrice, tipCap, gasLimit);
      OutcomesAreTrue(Submit(cfg, gasPrice, tipCap, gasLimit), old(tracker.At(from.value, network.value)), script);
      outcome := ExecuteTransactionLoop(ctx, script);
    }

    /** The entry for a transaction that was pending before a restart. */
    method ResumePendingTransaction(
      pendingTx: Option<PendingTx>, networkKnown: bool, defaults: Defaults, opts: ResumeOptions, script: seq<Round>)
      returns (outcome: Outcome, err: Option<ResumeError>)
      modifies tracker, this`log
      ensures err == if pendingTx.None? then Some(NoPendingTx) else if pendingTx.value.tx.None? then Some(NoTransaction)
                     else if !networkKnown then Some(NoNetwork) else None
      ensures err.Some? ==> log == old(log) && forall w, c :: tracker.At(w, c) == old(tracker.At(w, c))
      ensures err.None? ==>
                var p := pendingTx.value;
                && HasRun(Resume(defaults, opts, p.tx.value), p.wallet, p.chain, old(tracker.At(p.wallet, p.chain)),
                          script, outcome)
                && tracker.OnlyAt(p.wallet, p.chain)
                && ToldTheTruth({p.tx.value}, outcome)
    {
      hide Loop, SignedIn;
      if pendingTx.None? {
        return StillRunning, Some(NoPendingTx);
      }
      var p := pendingTx.value;
      if p.tx.None? {
        return StillRunning, Some(NoTransaction);
      }
      if !networkKnown {
        return StillRunning, Some(NoNetwork);
      }
      var tx, options := p.tx.value, opts;
      if options.numRetries <= 0 {
        options := options.(numRetries := DEFAULT_NUM_RETRIES);
      }
      if options.maxPrice <= 0.0 {
        options := options.(maxPrice := tx.price * MAX_CAP_MULTIPLIER);
      }
      if options.maxTip <= 0.0 {
        options := options.(maxTip := tx.tip * MAX_CAP_MULTIPLIER);
      }
      var resolved := Resolve(defaults);
      var gas := GasBounds(0, 0.0, 0.0, options.maxPrice, options.maxTip, resolved.priceFactor, resolved.tipFactor);
      var cfg := Config(options.numRetries, gas, false, defaults.syncBroadcast, defaults.txStore);
      var ctx := new ExecutionContext.Resume(p.wallet, p.chain, cfg, tx);
      log := Start;
      assert RunOf(ctx) == ResumedRun(old(tracker.At(p.wallet, p.chain)), tx);
      OutcomesAreTrue(Resume(defaults, opts, tx), old(tracker.At(p.wallet, p.chain)), script);
      outcome := ExecuteTransactionLoop(ctx, script);
      err := None;
    }
  }

  /** What the caller of the loop sees. */
  datatype Outcome =
    | StillRunning
    | StillWaiting
    | Returned(tx: Option<Tx>, receipt: Option<Receipt>, error: Option<Error>)
}
