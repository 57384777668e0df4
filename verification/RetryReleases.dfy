/** Which releases of a run are wrong: of a nonce it has already given back, or of one for which a
    transaction of its own may be on its way. */
module RetryReleases {
  import opened Options
  import opened NonceCells
  import opened TxMonitor
  import opened RunHistory
  import opened RetrySpec
  import opened RetryFrames
  import opened RetryOwnership

  /** The round gets as far as an attempt. */
  predicate Attempting(run: Run, w: Round) {
    !CancelledEarly(run, w) && run.state.resumeWith.None?
  }

  /** What the round builds, if it attempts anything. */
  function Built(cfg: Config, run: Run, w: Round): Build {
    BuildTx(cfg, Interfere(cfg, run, w, w.others), w).1
  }

  /** First guard: nothing is tracked, the nonce comes from an earlier round, and the built
      transaction is given up before any broadcast. The handler and the deferred guard both release. */
  predicate ReleasesTwice(cfg: Config, run: Run, w: Round) {
    && Attempting(run, w)
    && run.state.oldTxs == map[]
    && run.state.nonce.Some?
    && Built(cfg, run, w).BuiltTx?
    && AbandonsBuilt(cfg, run, w)
  }

  /** Second guard: an exit releases a nonce that is in use. At the simulation nobody asks; past it the
      code does ask, but for the hash of the unsigned transaction. */
  predicate ReleasesLive(cfg: Config, run: Run, w: Round) {
    Attempting(run, w) && GivesUpLive(cfg, Interfere(cfg, run, w, w.others), w)
  }

  predicate GivesUpLive(cfg: Config, run: Run, w: Round) {
    match BuildTx(cfg, run, w).1
    case BuiltTx(tx) =>
      && InUse(run, tx.nonce)
      && AbandonsBuilt(cfg, run, w)
      && (PassesSimulation(cfg, w) ==> tx.hash !in run.state.oldTxs)
    case NotBuilt(error) =>
      error.GasSettingFailed? && run.state.nonce.None? && AcquiresLive(cfg, run, w)
  }

  predicate AcquiresLive(cfg: Config, run: Run, w: Round) {
    var nonce := AcquireNonce(cfg, run, w).1;
    nonce.Some? && InUse(run, nonce.value)
  }

  /** Third guard: nothing is tracked, the nonce comes from an earlier round, and the synchronous
      broadcast is cancelled in flight. The transaction is not tracked, so the deferred guard releases
      its nonce while the broadcast goes on. */
  predicate ReleasesInFlight(cfg: Config, run: Run, w: Round) {
    && Attempting(run, w)
    && run.state.oldTxs == map[]
    && run.state.nonce.Some?
    && Built(cfg, run, w).BuiltTx?
    && CancelsInFlight(cfg, w)
  }

  /** State.Nonce is held or in use, and what is resumed is in use. */
  predicate Anchored(run: Run) {
    && (run.state.nonce.Some? ==> Uses(run, run.state.nonce.value))
    && (run.state.resumeWith.Some? ==> InUse(run, run.state.resumeWith.value.nonce))
  }

  /** The run holds the nonce, or has it in use. */
  predicate Uses(run: Run, n: nat) {
    n in Held(run.log) || InUse(run, n)
  }

  predicate SameReleases(a: History, b: History) {
    OverReleases(a) == OverReleases(b) && LiveReleases(a) == LiveReleases(b)
  }

  // ---------------------------------------------------------------- within a round

  /** A nonce to build with is one from an earlier round, or freshly acquired and held. */
  lemma TakenNonce(cfg: Config, run: Run, w: Round)
    ensures var (taker, nonce) := TakeNonce(cfg, run, w);
            && taker.state == run.state
            && SentNonces(taker.log) == SentNonces(run.log) && Held(run.log) <= Held(taker.log)
            && SameReleases(taker.log, run.log)
            && (run.state.nonce.Some? ==> nonce == run.state.nonce && taker.log == run.log)
            && (run.state.nonce.None? && nonce.Some? ==> nonce.value in Held(taker.log))
  {
    hide Acquire;
  }

  lemma BuildWithReleases(cfg: Config, run: Run, nonce: Option<nat>, w: Round)
    requires !Unestimated(run, w) && (nonce.Some? ==> Uses(run, nonce.value))
    requires run.state.nonce.Some? ==> nonce == run.state.nonce
    ensures var (ready, build) := BuildWith(cfg, run, nonce, w);
            && ready.state == run.state && SentNonces(ready.log) == SentNonces(run.log)
            && OverReleases(ready.log) == OverReleases(run.log)
            && (build.NotBuilt? ==>
                  && !build.error.EstimateGasFailed?
                  && LiveReleases(ready.log) == LiveReleases(run.log)
                       + (if build.error.GasSettingFailed? && run.state.nonce.None? && InUse(run, nonce.value)
                          then 1 else 0))
            && (build.NotBuilt? && build.error.GasSettingFailed? ==> nonce.Some?)
            && (build.BuiltTx? ==>
                  && LiveReleases(ready.log) == LiveReleases(run.log) && Held(ready.log) == Held(run.log)
                  && nonce == Some(build.tx.nonce))
  {
    hide Release, InUse, PricedTx;
    PricedNonce(cfg.gas);
  }

  lemma PricedNonce(gas: GasBounds)
    ensures forall hash, nonce, price, tip, limit :: PricedTx(gas, hash, nonce, price, tip, limit).nonce == nonce
  {
  }

  lemma BuildReleases(cfg: Config, run: Run, w: Round)
    requires Anchored(run)
    ensures var (ready, build) := BuildTx(cfg, run, w);
            && ready.state == run.state && SentNonces(ready.log) == SentNonces(run.log)
            && OverReleases(ready.log) == OverReleases(run.log)
            && (build.NotBuilt? && build.error.EstimateGasFailed? ==> ready.log == run.log)
            && (build.NotBuilt? ==>
                  LiveReleases(ready.log) == LiveReleases(run.log) + if GivesUpLive(cfg, run, w) then 1 else 0)
            && (build.BuiltTx? ==>
                  && LiveReleases(ready.log) == LiveReleases(run.log)
                  && Uses(ready, build.tx.nonce)
                  && (run.state.nonce.Some? ==> run.state.nonce.value == build.tx.nonce))
  {
    hide BuildWith, AcquireNonce, Carries, AbandonsBuilt, Held, LiveReleases, OverReleases, SentNonces;
    if !Unestimated(run, w) {
      TakenNonce(cfg, run, w);
      var (taker, nonce) := TakeNonce(cfg, run, w);
      BuildWithReleases(cfg, Interfere(cfg, taker, w, w.between), nonce, w);
    }
  }

  lemma FailureReleases(cfg: Config, run: Run, tx: Tx, verdict: Verdict, w: Round)
    requires InUse(run, tx.nonce) && run.state.resumeWith.None?
    requires run.state.nonce.Some? ==> run.state.nonce.value == tx.nonce
    ensures var (after, result) := BroadcastFailure(cfg, run, tx, verdict, w);
            SameReleases(after.log, run.log) && Anchored(after) && !result.Monitor?
  {
    hide BroadcastFailure, Carries, Held, SentNonces;
    FailureFrame(cfg, run, tx, verdict, w);
    FailureNonce(cfg, run, tx, verdict, w);
  }

  lemma AfterBroadcastReleases(cfg: Config, run: Run, tx: Tx, signed: Tx, b: Broadcast, w: Round)
    requires run.state.resumeWith.None? && signed.nonce == tx.nonce
    requires run.state.nonce.Some? ==> run.state.nonce.value == tx.nonce
    ensures var (after, result) := AfterBroadcast(cfg, run, tx, signed, b, w);
            && SameReleases(after.log, run.log) && Anchored(after)
            && (result.Monitor? ==> InUse(after, result.watched.nonce))
  {
    hide BroadcastFailure;
    var registered := if b.Accepted? then Register(run, signed.nonce, w.registers) else run;
    var oldTxs := registered.state.oldTxs[signed.hash := signed];
    var tracked := registered.(state := registered.state.(oldTxs := oldTxs));
    assert signed.hash in oldTxs && oldTxs[signed.hash].nonce == tx.nonce;
    if b.Refused? {
      FailureReleases(cfg, tracked, tx, b.verdict, w);
    }
  }

  lemma AbandonReleases(run: Run, tx: Tx, error: Error)
    requires Uses(run, tx.nonce)
    ensures var after := AbandonUnsigned(run, tx, error).0;
            && OverReleases(after.log) == OverReleases(run.log)
            && LiveReleases(after.log) == LiveReleases(run.log)
                 + if InUse(run, tx.nonce) && tx.hash !in run.state.oldTxs then 1 else 0
    ensures AbandonUnsigned(run, tx, error).1 == GiveUp(error)
    ensures var after := ReleaseNonce(run, tx.nonce);
            && OverReleases(after.log) == OverReleases(run.log)
            && LiveReleases(after.log) == LiveReleases(run.log) + if InUse(run, tx.nonce) then 1 else 0
  {
    hide InUse;
  }

  lemma SignReleases(cfg: Config, run: Run, tx: Tx, w: Round)
    requires run.state.resumeWith.None? && PassesSimulation(cfg, w)
    requires run.state.nonce.Some? ==> run.state.nonce.value == tx.nonce
    requires Uses(run, tx.nonce)
    ensures var (after, result) := SignAndBroadcast(cfg, run, tx, w);
            && OverReleases(after.log) == OverReleases(run.log)
            && LiveReleases(after.log) == LiveReleases(run.log)
                 + (if InUse(run, tx.nonce) && AbandonsBuilt(cfg, run, w)
                       && tx.hash !in run.state.oldTxs then 1 else 0)
            && (AbandonsBuilt(cfg, run, w) ==> result.Return? && result.error.Some?)
            && (!result.Return? ==> Anchored(after))
            && (result.Monitor? ==> InUse(after, result.watched.nonce))
  {
    hide AfterBroadcast, BroadcastOf, AbandonUnsigned, Anchored, Held, InUse;
    AbandonReleases(run, tx, BeforeHookFailed);
    AbandonReleases(run, tx, SigningFailed);
    AbandonReleases(run, tx, WrongSigner);
    if !w.beforeHookFails && w.signing.SignedBySender? {
      var signed := tx.(hash := w.signing.hash);
      var noted := Note(run, Signed(signed));
      SignedIsNotSent(run, signed, tx.nonce);
      AbandonReleases(noted, tx, NoBroadcaster);
      if !(cfg.syncBroadcast && (w.sync.SyncUnavailable? || w.sync.SyncCancelled?)) {
        AfterBroadcastReleases(cfg, Handed(run, signed), tx, signed, BroadcastOf(cfg, w), w);
      }
    }
  }

  lemma SignedIsNotSent(run: Run, signed: Tx, n: nat)
    ensures InUse(Note(run, Signed(signed)), n) <==> InUse(run, n)
  {
  }

  lemma EstimationReleases(cfg: Config, run: Run, w: Round)
    requires Anchored(run) && run.state.resumeWith.None?
    ensures var (after, result) := EstimationFailure(cfg, run, w);
            && after.log == run.log && Anchored(after)
            && (result.Monitor? ==> InUse(after, result.watched.nonce))
  {
  }

  lemma SimulationReleases(cfg: Config, run: Run, tx: Tx, w: Round)
    requires run.state.resumeWith.None? && !PassesSimulation(cfg, w) && w.simulation.SimulationReverts?
    requires Uses(run, tx.nonce)
    ensures var (after, result) := SimulationRevert(cfg, run, tx, w.simulation.hook);
            && OverReleases(after.log) == OverReleases(run.log)
            && LiveReleases(after.log) == LiveReleases(run.log)
                 + (if InUse(run, tx.nonce) && AbandonsBuilt(cfg, run, w) then 1 else 0)
            && (AbandonsBuilt(cfg, run, w) ==> result.Return? && result.error.Some?)
            && (!result.Return? ==> Anchored(after)) && !result.Monitor?
  {
    hide Carries;
  }

  /** From a built transaction on. */
  lemma AfterBuildReleases(cfg: Config, ready: Run, build: Build, w: Round)
    requires Anchored(ready) && ready.state.resumeWith.None?
    requires build.BuiltTx? ==>
               Uses(ready, build.tx.nonce) && (ready.state.nonce.Some? ==> ready.state.nonce.value == build.tx.nonce)
    ensures var (after, result) := AfterBuild(cfg, ready, build, w);
            && OverReleases(after.log) == OverReleases(ready.log)
            && LiveReleases(after.log) == LiveReleases(ready.log)
                 + (if build.BuiltTx? && AbandonsLive(cfg, ready, build.tx, w) then 1 else 0)
            && (build.BuiltTx? && AbandonsLive(cfg, ready, build.tx, w) ==> result.Return? && result.error.Some?)
            && (build.NotBuilt? && !build.error.EstimateGasFailed? ==> result.Return? && result.error.Some?)
            && (!result.Return? ==> Anchored(after))
            && (result.Monitor? ==> InUse(after, result.watched.nonce))
  {
    hide SignAndBroadcast, SimulationRevert, EstimationFailure, InUse, Anchored, Held;
    match build
    case NotBuilt(error) =>
      if error.EstimateGasFailed? {
        EstimationReleases(cfg, ready, w);
      }
    case BuiltTx(tx) =>
      AbandonReleases(ready, tx, SimulationUnavailable);
      if PassesSimulation(cfg, w) {
        SignReleases(cfg, ready, tx, w);
      } else if w.simulation.SimulationReverts? {
        SimulationReleases(cfg, ready, tx, w);
      }
  }

  predicate AbandonsLive(cfg: Config, ready: Run, tx: Tx, w: Round) {
    && InUse(ready, tx.nonce)
    && AbandonsBuilt(cfg, ready, w)
    && (PassesSimulation(cfg, w) ==> tx.hash !in ready.state.oldTxs)
  }

  lemma AttemptReleases(cfg: Config, run: Run, w: Round)
    requires Anchored(run) && run.state.resumeWith.None?
    ensures var (after, result) := Attempt(cfg, run, w);
            && OverReleases(after.log) == OverReleases(run.log)
            && LiveReleases(after.log) == LiveReleases(run.log) + (if GivesUpLive(cfg, run, w) then 1 else 0)
            && (GivesUpLive(cfg, run, w) ==> result.Return? && result.error.Some?)
            && (!result.Return? ==> Anchored(after))
            && (result.Monitor? ==> InUse(after, result.watched.nonce))
  {
    hide BuildTx, AfterBuild, Carries, Held, AcquiresLive, AbandonsBuilt;
    BuildReleases(cfg, run, w);
    var (ready, build) := BuildTx(cfg, run, w);
    if build.BuiltTx? || build.error.EstimateGasFailed? {
      AfterBuildReleases(cfg, ready, build, w);
      SameAbandons(cfg, run, ready, w);
    } else {
      assert AfterBuild(cfg, ready, build, w) == (ready, GiveUp(build.error)) by {
        NotBuiltGivesUp(cfg, ready, build, w);
      }
    }
  }

  lemma SameAbandons(cfg: Config, run: Run, ready: Run, w: Round)
    requires ready.state == run.state
    ensures AbandonsBuilt(cfg, ready, w) <==> AbandonsBuilt(cfg, run, w)
  {
  }

  lemma StatusReleases(cfg: Config, run: Run, tx: Tx, status: TxStatus, w: Round)
    requires Anchored(run) && InUse(run, tx.nonce)
    ensures var (after, result) := TransactionStatus(cfg, run, tx, status, w);
            SameReleases(after.log, run.log) && Anchored(after) && !result.Monitor?
  {
    hide Carries, WithinLimits;
  }

  lemma CleanupReleases(cfg: Config, run: Run, w: Round)
    ensures var after := Cleanup(cfg, run, w);
            && (run.state.oldTxs != map[] ==> SameReleases(after.log, run.log))
            && (run.state.oldTxs == map[] ==>
                  LiveReleases(after.log) == LiveReleases(run.log)
                    + if run.state.nonce.Some? && run.state.nonce.value in SentNonces(run.log) then 1 else 0)
  {
  }

  // ---------------------------------------------------------------- rounds and runs

  lemma SameAnchor(run: Run, after: Run)
    requires Anchored(run) && after.state == run.state && after.log == run.log
    ensures Anchored(after)
  {
  }

  lemma ResumeAnchored(run: Run)
    requires Anchored(run) && run.state.resumeWith.Some?
    ensures Anchored(run.(state := run.state.(resumeWith := None)))
    ensures InUse(run.(state := run.state.(resumeWith := None)), run.state.resumeWith.value.nonce)
  {
  }

  /** The number of releases of a nonce in use that a round makes. */
  function LiveCount(cfg: Config, run: Run, w: Round): nat {
    if ReleasesLive(cfg, run, w) || ReleasesInFlight(cfg, run, w) then 1 else 0
  }

  /** How a round ends: only the deferred guard can still release, and only if nothing is tracked. */
  lemma FinishReleases(cfg: Config, run: Run, result: Result, w: Round)
    requires !result.Return? ==> Anchored(run)
    requires result.Monitor? ==> InUse(run, result.watched.nonce) && run.state.oldTxs != map[]
    ensures var step := Finish(cfg, run, result, w);
            && (step.Next? ==> Anchored(step.run))
            && (run.state.oldTxs != map[] || !result.Return? || result.error.None? ==>
                  SameReleases(step.run.log, run.log))
            && (run.state.oldTxs == map[] && result.Return? && result.error.Some? ==> step.run == Cleanup(cfg, run, w))
  {
    hide TransactionStatus, Cleanup, InUse, Held, Anchored;
    CleanupReleases(cfg, run, w);
    if result.Monitor? && Watch(w.signals).Some? && !Watch(w.signals).value.Cancelled? {
      var status := Watch(w.signals).value;
      StatusReleases(cfg, run, result.watched, status, w);
      StatusFrame(cfg, run, result.watched, status, w);
      CleanupReleases(cfg, TransactionStatus(cfg, run, result.watched, status, w).0, w);
    }
  }

  /** A round that does not come to an attempt releases nothing but what it holds. */
  lemma QuietRoundReleases(cfg: Config, run: Run, w: Round)
    requires Owns(run) && Anchored(run) && !Attempting(run, w)
    ensures var step := Iterate(cfg, run, w); SameReleases(step.run.log, run.log) && (step.Next? ==> Anchored(step.run))
  {
    hide Attempt, Finish, Cleanup, InUse, Held, Anchored;
    var here := Interfere(cfg, run, w, w.others);
    SameAnchor(run, here);
    CleanupOwns(cfg, here, w);
    CleanupReleases(cfg, here, w);
    if !CancelledEarly(here, w) {
      ResumeAnchored(here);
      var (begun, result) := Begin(cfg, here, w);
      FinishReleases(cfg, begun, result, w);
    }
  }

  lemma AttemptedRoundReleases(cfg: Config, run: Run, w: Round)
    requires Owns(run) && Anchored(run) && Attempting(run, w)
    ensures var step := Iterate(cfg, run, w);
            && OverReleases(step.run.log) == OverReleases(run.log) + (if ReleasesTwice(cfg, run, w) then 1 else 0)
            && LiveReleases(step.run.log) == LiveReleases(run.log) + LiveCount(cfg, run, w)
            && (ReleasesTwice(cfg, run, w) || LiveCount(cfg, run, w) > 0 ==> step.Exit?)
            && (step.Next? ==> Anchored(step.run))
  {
    hide Attempt, Finish, Cleanup, BuildTx, InUse, GivesUpLive, Held, Anchored, AbandonsBuilt, CancelsInFlight;
    var here := Interfere(cfg, run, w, w.others);
    SameAnchor(run, here);
    AttemptReleases(cfg, here, w);
    var (begun, result) := Attempt(cfg, here, w);
    if here.state.oldTxs == map[] {
      AttemptOwns(cfg, here, w);
      NothingInUse(cfg, here, w);
      SameAbandons(cfg, run, here, w);
    } else {
      AttemptKeepsTracking(cfg, here, w);
    }
    FinishReleases(cfg, begun, result, w);
    CleanupOwns(cfg, begun, w);
    CleanupReleases(cfg, begun, w);
    ReturnFinishes(cfg, begun, result, w);
  }

  lemma ReturnFinishes(cfg: Config, run: Run, result: Result, w: Round)
    ensures result.Return? ==> Finish(cfg, run, result, w).Exit?
  {
  }

  /** Every round: a nonce neither held nor in use is released exactly under the first guard, one in
      use exactly under the second or the third, and either way at most once. */
  lemma RoundReleases(cfg: Config, run: Run, w: Round)
    requires Owns(run) && Anchored(run)
    ensures var step := Iterate(cfg, run, w);
            && OverReleases(step.run.log) == OverReleases(run.log) + (if ReleasesTwice(cfg, run, w) then 1 else 0)
            && LiveReleases(step.run.log) == LiveReleases(run.log) + LiveCount(cfg, run, w)
            && (ReleasesTwice(cfg, run, w) || LiveCount(cfg, run, w) > 0 ==> step.Exit?)
            && (step.Next? ==> Owns(step.run) && Anchored(step.run))
  {
    hide Iterate, Owns, Anchored, GivesUpLive, BuildTx;
    IterateOwns(cfg, run, w);
    if Attempting(run, w) {
      AttemptedRoundReleases(cfg, run, w);
    } else {
      QuietRoundReleases(cfg, run, w);
    }
  }

  /** Before anything is tracked nothing is in use, so the second guard fails. */
  lemma NothingInUse(cfg: Config, run: Run, w: Round)
    requires Owns(run) && run.state.oldTxs == map[]
    ensures !GivesUpLive(cfg, run, w)
  {
    hide BuildTx, AcquireNonce;
    assert forall n :: !InUse(run, n);
  }

  /** Over whole runs both counts are 0 or 1, and the last round decides which. */
  lemma {:induction false} RunReleases(cfg: Config, run: Run, script: seq<Round>)
    requires Owns(run) && Anchored(run)
    ensures var end, n, head := Loop(cfg, run, script), Rounds(cfg, run, script), LastHead(cfg, run, script);
            && n <= |script|
            && (!end.Next? ==> 0 < n)
            && OverReleases(end.run.log) == OverReleases(run.log)
                 + (if !end.Next? && ReleasesTwice(cfg, head, script[n - 1]) then 1 else 0)
            && LiveReleases(end.run.log) == LiveReleases(run.log)
                 + (if !end.Next? then LiveCount(cfg, head, script[n - 1]) else 0)
    decreases |script|
  {
    hide Iterate, Owns, Anchored, ReleasesTwice, LiveCount;
    if script == [] {
    } else {
      RoundReleases(cfg, run, script[0]);
      var step := Iterate(cfg, run, script[0]);
      if step.Next? {
        RunReleases(cfg, step.run, script[1..]);
      }
    }
  }
}
