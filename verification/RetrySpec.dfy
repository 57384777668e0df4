/** The retry loop as a state machine over values: what one round does to the retry state, to the
    shared nonce cell and to the run's history, for every answer the outside world can give. */
module RetrySpec {
  import opened Options
  import opened NonceCells
  import opened TxMonitor
  import opened RunHistory

  datatype Config = Config(maxAttempts: int, gas: GasBounds, skipSimulation: bool, syncBroadcast: bool, txStore: bool)

  datatype RetryState = RetryState(
    attempts: int, price: real, tip: real, gasLimit: nat,
    nonce: Option<nat>, oldTxs: map<Hash, Tx>, resumeWith: Option<Tx>)

  datatype Error =
    | ContextCancelled | OutOfRetries | GasPriceLimitReached | TxReverted | NonceConsumed
    | EstimateGasFailed | AcquireNonceFailed | GasSettingFailed
    | SimulationUnavailable | SimulationReverted
    | BeforeHookFailed | AfterHookFailed | MinedHookFailed
    | SigningFailed | WrongSigner | NoBroadcaster

  /** One run in progress: its retry state, the tracker cell it shares, and its history. */
  datatype Run = Run(state: RetryState, cell: Cell, log: History)

  function Note(run: Run, e: Event): Run {
    run.(log := Append(run.log, e))
  }

  // ---------------------------------------------------------------- the outside world

  datatype View = View(mined: nat, pending: nat)

  datatype TxInfo = NotFound | InMempool | DoneOnChain(receipt: Receipt) | RevertedOnChain(receipt: Receipt)

  datatype HookAnswer = HookError | HookStop | HookRetry

  datatype Simulation = SimulationOk | NoSimulationReader | SimulationBroken | SimulationReverts(hook: HookAnswer)

  datatype Signing = SignError | SignedByOther | SignedBySender(hash: Hash)

  datatype SyncAnswer =
    | SyncUnavailable
    | SyncReply(receipt: Option<Receipt>, verdict: Verdict)
    | SyncTimeout(accepted: bool)
    | SyncCancelled

  datatype AsyncAnswer = AsyncReply(broadcasted: bool, verdict: Verdict)

  /** Everything a round may ask of the nodes, the hooks, the signer and the other callers of the
      tracker. Others act before the round's acquisition, between it and what the round then does to
      the tracker, and late, before the deferred guard. `order` is the order in which the runtime
      ranges over the old transactions. */
  datatype Round = Round(
    others: seq<Op>,
    between: seq<Op>,
    late: seq<Op>,
    cancelled: bool,
    cancelledAsleep: bool,
    estimate: Option<nat>,
    estimateHookFails: bool,
    estimateHookGas: Option<nat>,
    view: Option<View>,
    lookup: nat -> Lookup,
    gasSetting: Option<(real, real)>,
    builtHash: Hash,
    simulation: Simulation,
    beforeHookFails: bool,
    signing: Signing,
    sync: SyncAnswer,
    async: AsyncAnswer,
    registers: bool,
    afterHookFails: bool,
    minedHookFails: bool,
    readerAnswers: bool,
    chain: Hash -> TxInfo,
    order: seq<Hash>,
    minedNonce: Option<nat>,
    resync: Option<View>,
    exitResync: Option<View>,
    signals: seq<Signal>)

  // ---------------------------------------------------------------- tracker operations of a run

  function GapFinderOf(cfg: Config, w: Round): Option<Finder> {
    if cfg.txStore then Some(StoreFinder(w.lookup)) else None
  }

  function AcquireNonce(cfg: Config, run: Run, w: Round): (Run, Option<nat>) {
    match w.view
    case None => (run, None)
    case Some(view) =>
      var o := Acquire(run.cell, view.mined, view.pending, GapFinderOf(cfg, w));
      var after := run.(cell := o.cell);
      (if o.nonce.Some? then Note(after, Acquired(o.nonce.value)) else after, o.nonce)
  }

  predicate Carries(txs: map<Hash, Tx>, n: nat) {
    exists h <- txs :: txs[h].nonce == n
  }

  /** The run tracks a transaction with the nonce, or has handed one to a broadcaster. */
  predicate InUse(run: Run, n: nat) {
    Carries(run.state.oldTxs, n) || n in SentNonces(run.log)
  }

  function ReleaseNonce(run: Run, n: nat): Run {
    Note(run.(cell := Release(run.cell, n)), Released(n, InUse(run, n)))
  }

  /** Other callers may do anything to the shared cell. */
  function Interfere(cfg: Config, run: Run, w: Round, ops: seq<Op>): Run {
    run.(cell := ApplyAll(run.cell, ops, GapFinderOf(cfg, w)))
  }

  /** An attempt to resync; without an answer from the node the cell stays as it is. */
  function ResyncNonce(run: Run, answer: Option<View>): Run {
    Note(run.(cell := if answer.Some? then Resync(run.cell, answer.value.mined, answer.value.pending) else run.cell),
         Resynced)
  }

  function Register(run: Run, n: nat, registers: bool): Run {
    if registers then Note(run.(cell := SetPending(run.cell, n)), Registered(n)) else run
  }

  // ---------------------------------------------------------------- retry state changes

  function Bump(gas: GasBounds, s: RetryState, tx: Tx): RetryState {
    if WithinLimits(gas, tx)
    then s.(price := BumpedPrice(gas, tx), tip := BumpedTip(gas, tx), nonce := Some(tx.nonce))
    else s
  }

  function BumpRun(cfg: Config, run: Run, tx: Tx): Run {
    if WithinLimits(cfg.gas, tx)
    then Note(run.(state := Bump(cfg.gas, run.state, tx)), Bumped(tx))
    else run
  }

  function CountAttempt(run: Run): Run {
    run.(state := run.state.(attempts := run.state.attempts + 1))
  }

  predicate Exhausted(cfg: Config, run: Run) {
    run.state.attempts > cfg.maxAttempts
  }

  function KeepNonce(run: Run, nonce: Option<nat>): Run {
    run.(state := run.state.(nonce := nonce))
  }

  // ---------------------------------------------------------------- handlers

  datatype Result =
    | Return(tx: Option<Tx>, receipt: Option<Receipt>, error: Option<Error>)
    | Retry
    | Monitor(watched: Tx)

  function GiveUp(error: Error): Result { Return(None, None, Some(error)) }

  datatype Build = BuiltTx(tx: Tx) | NotBuilt(error: Error)

  predicate Unestimated(run: Run, w: Round) {
    run.state.gasLimit == 0 && w.estimate.None?
  }

  function BuildTx(cfg: Config, run: Run, w: Round): (Run, Build) {
    if Unestimated(run, w) then (run, NotBuilt(EstimateGasFailed)) else
    var (taker, nonce) := TakeNonce(cfg, run, w);
    BuildWith(cfg, Interfere(cfg, taker, w, w.between), nonce, w)
  }

  /** The nonce that an earlier round kept, or a fresh one. */
  function TakeNonce(cfg: Config, run: Run, w: Round): (Run, Option<nat>) {
    if run.state.nonce.Some? then (run, run.state.nonce) else AcquireNonce(cfg, run, w)
  }

  function BuildWith(cfg: Config, run: Run, nonce: Option<nat>, w: Round): (Run, Build)
    requires !Unestimated(run, w)
  {
    var s := run.state;
    var gas := if s.gasLimit == 0 then w.estimate.value else s.gasLimit;
    if nonce.None? then (run, NotBuilt(AcquireNonceFailed)) else
    if s.price == 0.0 && w.gasSetting.None? then
      (if s.nonce.None? then ReleaseNonce(run, nonce.value) else run, NotBuilt(GasSettingFailed))
    else
      var (price, tip) := if s.price == 0.0 then w.gasSetting.value else (s.price, s.tip);
      var tx := PricedTx(cfg.gas, w.builtHash, nonce.value, price, tip, gas);
      (Note(run, Built(tx)), BuiltTx(tx))
  }

  function PricedTx(bounds: GasBounds, hash: Hash, nonce: nat, price: real, tip: real, gas: nat): Tx {
    var priceToUse, tipToUse := price + bounds.extraPrice, tip + bounds.extraTip;
    Tx(hash, nonce, if tipToUse > priceToUse then tipToUse else priceToUse, tipToUse, gas + bounds.extraGas)
  }

  function MinedTx(tx: Tx, receipt: Receipt, hookFails: bool): Result {
    Return(Some(tx), Some(receipt),
           if hookFails then Some(MinedHookFailed) else if receipt.failed then Some(TxReverted) else None)
  }

  predicate Completed(info: TxInfo) {
    info.DoneOnChain? || info.RevertedOnChain?
  }

  /** The first completed old transaction that ranging over the statuses meets. */
  function FindCompleted(txs: map<Hash, Tx>, chain: Hash -> TxInfo, order: seq<Hash>): (h: Option<Hash>)
    ensures h.Some? ==> h.value in txs && Completed(chain(h.value))
    decreases |order|
  {
    if order == [] then None
    else if order[0] in txs && Completed(chain(order[0])) then Some(order[0])
    else FindCompleted(txs, chain, order[1..])
  }

  /** The dearest pending old transaction; one priced 0 is never picked. */
  function FindPending(txs: map<Hash, Tx>, chain: Hash -> TxInfo, order: seq<Hash>, best: Option<Hash>)
    : (h: Option<Hash>)
    requires best.Some? ==> best.value in txs
    ensures h.Some? ==> h.value in txs
    decreases |order|
  {
    if order == [] then best
    else
      var h := order[0];
      var highest := if best.Some? then txs[best.value].price else 0.0;
      var next := if h in txs && chain(h).InMempool? && txs[h].price > highest then Some(h) else best;
      FindPending(txs, chain, order[1..], next)
  }

  function EstimationFailure(cfg: Config, run: Run, w: Round): (Run, Result) {
    var txs := run.state.oldTxs;
    if txs != map[] && w.readerAnswers then
      var done := FindCompleted(txs, w.chain, w.order);
      if done.Some? then (run, MinedTx(txs[done.value], w.chain(done.value).receipt, w.minedHookFails))
      else
        var best := FindPending(txs, w.chain, w.order, None);
        if best.Some? then (run, Monitor(txs[best.value])) else EstimationRetry(cfg, run, w)
    else EstimationRetry(cfg, run, w)
  }

  function EstimationRetry(cfg: Config, run: Run, w: Round): (Run, Result) {
    if w.estimateHookFails then (run, GiveUp(EstimateGasFailed)) else
    var hooked :=
      if w.estimateHookGas.Some? then run.(state := run.state.(gasLimit := w.estimateHookGas.value)) else run;
    var counted := CountAttempt(hooked);
    (counted, if Exhausted(cfg, counted) then GiveUp(OutOfRetries) else Retry)
  }

  function SimulationRevert(cfg: Config, run: Run, tx: Tx, hook: HookAnswer): (Run, Result) {
    if !hook.HookRetry? then (ReleaseNonce(run, tx.nonce), GiveUp(SimulationReverted)) else
    var counted := CountAttempt(run);
    if Exhausted(cfg, counted) then (ReleaseNonce(counted, tx.nonce), GiveUp(OutOfRetries)) else
    (counted.(state := counted.state.(nonce := Some(tx.nonce), gasLimit := tx.gas)), Retry)
  }

  function TxsAtNonce(txs: map<Hash, Tx>, n: nat): set<Hash> {
    set h | h in txs && txs[h].nonce == n
  }

  function Underpriced(cfg: Config, run: Run, tx: Tx): (Run, Result) {
    if |TxsAtNonce(run.state.oldTxs, tx.nonce)| <= 1 then
      (KeepNonce(Note(run, Rejected(ReplacementUnderpriced, true)), None), Retry)
    else
      var kept := KeepNonce(Note(run, Rejected(ReplacementUnderpriced, false)), Some(tx.nonce));
      if WithinLimits(cfg.gas, tx) then (BumpRun(cfg, kept, tx), Retry)
      else (kept, Return(Some(tx), None, Some(GasPriceLimitReached)))
  }

  function NonceLow(cfg: Config, run: Run, w: Round): (Run, Result) {
    var noted := Note(run, Rejected(NonceIsLow, false));
    if !w.readerAnswers then
      var counted := CountAttempt(noted);
      (counted, if Exhausted(cfg, counted) then GiveUp(OutOfRetries) else Retry)
    else
      var done := FindCompleted(run.state.oldTxs, w.chain, w.order);
      if done.Some? then (noted, MinedTx(run.state.oldTxs[done.value], w.chain(done.value).receipt, w.minedHookFails))
      else
        var counted := ResyncNonce(CountAttempt(noted), w.resync);
        if Exhausted(cfg, counted) then (counted, GiveUp(OutOfRetries)) else (KeepNonce(counted, None), Retry)
  }

  function BroadcastFailure(cfg: Config, run: Run, tx: Tx, verdict: Verdict, w: Round): (Run, Result) {
    match verdict
    case ReplacementUnderpriced => Underpriced(cfg, run, tx)
    case NonceGap =>
      (KeepNonce(ResyncNonce(Note(run, Rejected(NonceGap, false)), w.resync), None), Retry)
    case NonceIsLow => NonceLow(cfg, run, w)
    case SyncTimedOut =>
      var counted := CountAttempt(KeepNonce(Note(run, Rejected(SyncTimedOut, false)), Some(tx.nonce)));
      if Exhausted(cfg, counted) then (ResyncNonce(counted, w.resync), GiveUp(OutOfRetries)) else (counted, Retry)
    case TxIsKnown => (KeepNonce(Note(run, Rejected(TxIsKnown, false)), Some(tx.nonce)), Retry)
    case _ =>
      var counted := CountAttempt(Note(run, Rejected(verdict, false)));
      if Exhausted(cfg, counted) then (ResyncNonce(counted, w.resync), GiveUp(OutOfRetries))
      else (KeepNonce(counted, Some(tx.nonce)), Retry)
  }

  /** What the broadcast came to: accepted (with a receipt or without), or refused. */
  datatype Broadcast = Accepted(receipt: Option<Receipt>) | Refused(verdict: Verdict)

  function BroadcastOf(cfg: Config, w: Round): Broadcast
    requires cfg.syncBroadcast ==> !w.sync.SyncUnavailable? && !w.sync.SyncCancelled?
  {
    if cfg.syncBroadcast then
      match w.sync
      case SyncReply(receipt, verdict) => if receipt.Some? then Accepted(receipt) else Refused(verdict)
      case SyncTimeout(accepted) => if accepted then Accepted(None) else Refused(SyncTimedOut)
    else if w.async.broadcasted then
      if w.registers then Accepted(None) else Refused(OtherVerdict)
    else Refused(w.async.verdict)
  }

  /** The pre-broadcast exits give the nonce back unless the transaction is already tracked. */
  function AbandonUnsigned(run: Run, tx: Tx, error: Error): (Run, Result) {
    (if tx.hash in run.state.oldTxs then run else ReleaseNonce(run, tx.nonce), GiveUp(error))
  }

  function SignAndBroadcast(cfg: Config, run: Run, tx: Tx, w: Round): (Run, Result) {
    if w.beforeHookFails then AbandonUnsigned(run, tx, BeforeHookFailed)
    else if w.signing.SignError? then AbandonUnsigned(run, tx, SigningFailed)
    else if w.signing.SignedByOther? then AbandonUnsigned(run, tx, WrongSigner)
    else
      var signed := tx.(hash := w.signing.hash);
      var noted := Note(run, Signed(signed));
      if cfg.syncBroadcast && w.sync.SyncUnavailable? then AbandonUnsigned(noted, tx, NoBroadcaster) else
      var sent := Note(noted, Sent(signed));
      if cfg.syncBroadcast && w.sync.SyncCancelled?
      then (sent, Return(Some(signed), None, Some(ContextCancelled)))
      else AfterBroadcast(cfg, sent, tx, signed, BroadcastOf(cfg, w), w)
  }

  /** The run when a transaction has been signed and handed over. */
  function Handed(run: Run, signed: Tx): Run {
    Note(Note(run, Signed(signed)), Sent(signed))
  }

  function AfterBroadcast(cfg: Config, run: Run, tx: Tx, signed: Tx, b: Broadcast, w: Round): (Run, Result) {
    var registered := if b.Accepted? then Register(run, signed.nonce, w.registers) else run;
    var tracked := registered.(state := registered.state.(oldTxs := registered.state.oldTxs[signed.hash := signed]));
    match b
    case Refused(verdict) => BroadcastFailure(cfg, tracked, tx, verdict, w)
    case Accepted(receipt) =>
      (tracked,
       if w.afterHookFails then Return(Some(signed), receipt, Some(AfterHookFailed))
       else if receipt.Some? then MinedTx(signed, receipt.value, w.minedHookFails)
       else Monitor(signed))
  }

  function Attempt(cfg: Config, run: Run, w: Round): (Run, Result) {
    var (ready, build) := BuildTx(cfg, run, w);
    AfterBuild(cfg, ready, build, w)
  }

  predicate PassesSimulation(cfg: Config, w: Round) {
    cfg.skipSimulation || w.simulation.SimulationOk?
  }

  function AfterBuild(cfg: Config, ready: Run, build: Build, w: Round): (Run, Result) {
    match build
    case NotBuilt(error) =>
      if error.EstimateGasFailed? then EstimationFailure(cfg, ready, w) else (ready, GiveUp(error))
    case BuiltTx(tx) =>
      if PassesSimulation(cfg, w) then SignAndBroadcast(cfg, ready, tx, w)
      else if w.simulation.SimulationReverts? then SimulationRevert(cfg, ready, tx, w.simulation.hook)
      else (ReleaseNonce(ready, tx.nonce), GiveUp(SimulationUnavailable))
  }

  predicate Consumed(tx: Tx, mined: Option<nat>) {
    mined.Some? && tx.nonce < mined.value
  }

  predicate Blocking(tx: Tx, mined: Option<nat>) {
    mined == Some(tx.nonce)
  }

  function TransactionStatus(cfg: Config, run: Run, tx: Tx, status: TxStatus, w: Round): (Run, Result) {
    match status
    case Mined(receipt) => (run, MinedTx(tx, receipt, w.minedHookFails))
    case Reverted(receipt) => (run, MinedTx(tx, receipt, w.minedHookFails))
    case Lost =>
      if Consumed(tx, w.minedNonce) then (run, Return(Some(tx), None, Some(NonceConsumed)))
      else BumpOrStop(cfg, run, tx)
    case Slow =>
      if Consumed(tx, w.minedNonce) then (run, Return(Some(tx), None, Some(NonceConsumed)))
      else if !Blocking(tx, w.minedNonce) then
        (Note(run.(state := run.state.(resumeWith := Some(tx))), KeptWaiting), Retry)
      else BumpOrStop(cfg, run, tx)
    case Cancelled | Unknown =>
      var counted := CountAttempt(run);
      (counted, if Exhausted(cfg, counted) then GiveUp(OutOfRetries) else Retry)
  }

  function BumpOrStop(cfg: Config, run: Run, tx: Tx): (Run, Result) {
    if WithinLimits(cfg.gas, tx) then (BumpRun(cfg, run, tx), Retry)
    else (run, Return(Some(tx), None, Some(GasPriceLimitReached)))
  }

  // ---------------------------------------------------------------- the loop

  datatype Step =
    | Next(run: Run)
    | Blocked(run: Run)
    | Exit(run: Run, tx: Option<Tx>, receipt: Option<Receipt>, error: Option<Error>)

  /** The deferred guard that runs on every exit with an error. */
  function Cleanup(cfg: Config, run: Run, w: Round): Run {
    Depart(Interfere(cfg, run, w, w.late), w)
  }

  function Depart(run: Run, w: Round): Run {
    if run.state.oldTxs == map[] then
      if run.state.nonce.Some? then ReleaseNonce(run, run.state.nonce.value) else run
    else ResyncNonce(run, w.exitResync)
  }

  function Leave(cfg: Config, run: Run, w: Round, tx: Option<Tx>, receipt: Option<Receipt>, error: Option<Error>)
    : Step
  {
    Exit(if error.Some? then Cleanup(cfg, run, w) else run, tx, receipt, error)
  }

  function Begin(cfg: Config, run: Run, w: Round): (Run, Result) {
    if run.state.resumeWith.Some?
    then (run.(state := run.state.(resumeWith := None)), Monitor(run.state.resumeWith.value))
    else Attempt(cfg, run, w)
  }

  function Iterate(cfg: Config, run: Run, w: Round): Step {
    var here := Interfere(cfg, run, w, w.others);
    if CancelledEarly(here, w) then Leave(cfg, here, w, None, None, Some(ContextCancelled))
    else
      var (begun, result) := Begin(cfg, here, w);
      Finish(cfg, begun, result, w)
  }

  predicate CancelledEarly(run: Run, w: Round) {
    w.cancelled || (run.state.attempts > 0 && run.state.resumeWith.None? && w.cancelledAsleep)
  }

  function Finish(cfg: Config, run: Run, result: Result, w: Round): Step {
    match result
    case Return(tx, receipt, error) => Leave(cfg, run, w, tx, receipt, error)
    case Retry => Next(run)
    case Monitor(tx) => Await(cfg, run, tx, w)
  }

  function Await(cfg: Config, run: Run, tx: Tx, w: Round): Step {
    match Watch(w.signals)
    case None => Blocked(run)
    case Some(status) =>
      var (handled, result) := Judge(cfg, run, tx, status, w);
      if result.Return? then Leave(cfg, handled, w, result.tx, result.receipt, result.error) else Next(handled)
  }

  function Judge(cfg: Config, run: Run, tx: Tx, status: TxStatus, w: Round): (Run, Result) {
    if status.Cancelled? then (run, GiveUp(ContextCancelled)) else TransactionStatus(cfg, run, tx, status, w)
  }

  /** A run against a script of rounds. Next at the end means that the loop is still running, so
      a claim about every script is a claim about every prefix of every run. */
  function Loop(cfg: Config, run: Run, script: seq<Round>): Step
    decreases |script|
  {
    if script == [] then Next(run) else
    var step := Iterate(cfg, run, script[0]);
    if step.Next? then Loop(cfg, step.run, script[1..]) else step
  }

  /** How many rounds the loop starts before it leaves, blocks, or reaches the script's end. */
  function Rounds(cfg: Config, run: Run, script: seq<Round>): nat
    decreases |script|
  {
    if script == [] then 0 else
    var step := Iterate(cfg, run, script[0]);
    if step.Next? then 1 + Rounds(cfg, step.run, script[1..]) else 1
  }

  /** The last loop head that a script reaches. */
  function LastHead(cfg: Config, run: Run, script: seq<Round>): Run
    decreases |script|
  {
    if script == [] then run else
    var step := Iterate(cfg, run, script[0]);
    if step.Next? then LastHead(cfg, step.run, script[1..]) else run
  }

  // ---------------------------------------------------------------- where runs start

  const DEFAULT_NUM_RETRIES := 9
  const DEFAULT_PRICE_FACTOR := 1.2
  const DEFAULT_TIP_FACTOR := 1.1
  const MAX_CAP_MULTIPLIER := 5.0

  /** The constructor's sanitising of bounds: an unset limit becomes five times the start price. */
  function Sanitize(gas: GasBounds, price: real, tip: real): GasBounds {
    gas.(maxPrice := if gas.maxPrice == 0.0 then price * MAX_CAP_MULTIPLIER else gas.maxPrice,
         maxTip := if gas.maxTip == 0.0 then tip * MAX_CAP_MULTIPLIER else gas.maxTip,
         priceFactor := if gas.priceFactor == 0.0 then DEFAULT_PRICE_FACTOR else gas.priceFactor,
         tipFactor := if gas.tipFactor == 0.0 then DEFAULT_TIP_FACTOR else gas.tipFactor)
  }

  function FreshConfig(cfg: Config, price: real, tip: real): Config {
    cfg.(maxAttempts := if cfg.maxAttempts < 0 then 0 else cfg.maxAttempts, gas := Sanitize(cfg.gas, price, tip))
  }

  function FreshRun(cell: Cell, price: real, tip: real, gasLimit: nat): Run {
    Run(RetryState(0, price, tip, gasLimit, None, map[], None), cell, Start)
  }

  /** What the manager and the network settle for every run. */
  datatype Defaults = Defaults(priceFactor: real, tipFactor: real, syncBroadcast: bool, txStore: bool)

  function Resolve(d: Defaults): Defaults {
    d.(priceFactor := if d.priceFactor <= 0.0 then DEFAULT_PRICE_FACTOR else d.priceFactor,
       tipFactor := if d.tipFactor <= 0.0 then DEFAULT_TIP_FACTOR else d.tipFactor)
  }

  datatype ResumeOptions = ResumeOptions(numRetries: int, maxPrice: real, maxTip: real)

  /** A resumed run has no extras, always simulates, and limits itself by the old transaction. */
  function ResumeConfig(d: Defaults, opts: ResumeOptions, tx: Tx): Config {
    Config(
      if opts.numRetries <= 0 then DEFAULT_NUM_RETRIES else opts.numRetries,
      GasBounds(0, 0.0, 0.0,
                if opts.maxPrice <= 0.0 then tx.price * MAX_CAP_MULTIPLIER else opts.maxPrice,
                if opts.maxTip <= 0.0 then tx.tip * MAX_CAP_MULTIPLIER else opts.maxTip,
                Resolve(d).priceFactor, Resolve(d).tipFactor),
      false, d.syncBroadcast, d.txStore)
  }

  function ResumedRun(cell: Cell, tx: Tx): Run {
    Run(RetryState(0, tx.price, tx.tip, tx.gas, Some(tx.nonce), map[tx.hash := tx], Some(tx)), cell, Start)
  }

  /** The two ways into the loop. */
  datatype Job =
    | Submit(cfg: Config, price: real, tip: real, gasLimit: nat)
    | Resume(defaults: Defaults, opts: ResumeOptions, tx: Tx)

  function ConfigOf(job: Job): Config {
    match job
    case Submit(cfg, price, tip, _) => FreshConfig(cfg, price, tip)
    case Resume(defaults, opts, tx) => ResumeConfig(defaults, opts, tx)
  }

  function StartOf(job: Job, cell: Cell): Run {
    match job
    case Submit(_, price, tip, gasLimit) => FreshRun(cell, price, tip, gasLimit)
    case Resume(_, _, tx) => ResumedRun(cell, tx)
  }
}
