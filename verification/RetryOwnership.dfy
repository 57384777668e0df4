/** Which nonces a run of the retry loop holds, and which it gives back. */
module RetryOwnership {
  import opened Options
  import opened NonceCells
  import opened TxMonitor
  import opened RunHistory
  import opened RetrySpec
  import opened RetryFrames

  function JustThis(nonce: Option<nat>): set<nat> {
    if nonce.Some? then {nonce.value} else {}
  }

  /** At a loop head before anything is tracked, the run holds State.Nonce and nothing else, and has
      sent nothing. */
  predicate Owns(run: Run) {
    && (run.state.resumeWith.Some? ==> run.state.oldTxs != map[])
    && (run.state.oldTxs == map[] ==> Held(run.log) == JustThis(run.state.nonce) && SentNonces(run.log) == {})
  }

  lemma BuildOwns(cfg: Config, run: Run, w: Round)
    requires Owns(run) && run.state.oldTxs == map[]
    ensures var (ready, build) := BuildTx(cfg, run, w);
            && ready.state == run.state && SentNonces(ready.log) == {}
            && OverReleases(ready.log) == OverReleases(run.log)
            && (build.NotBuilt? ==> Held(ready.log) == JustThis(run.state.nonce) && !build.error.ContextCancelled?)
            && (build.BuiltTx? ==> Held(ready.log) == {build.tx.nonce})
            && (build.BuiltTx? && run.state.nonce.Some? ==> run.state.nonce.value == build.tx.nonce)
  {
  }

  /** Past the broadcast nothing is released, and the signed transaction stays tracked. */
  lemma BroadcastKeepsHeld(cfg: Config, run: Run, tx: Tx, signed: Tx, b: Broadcast, w: Round)
    ensures var (after, result) := AfterBroadcast(cfg, run, tx, signed, b, w);
            after.state.oldTxs != map[] && OverReleases(after.log) == OverReleases(run.log)
  {
    hide BroadcastFailure;
    assert signed.hash in run.state.oldTxs[signed.hash := signed];
    var registered := if b.Accepted? then Register(run, signed.nonce, w.registers) else run;
    var tracked := registered.(state := registered.state.(oldTxs := registered.state.oldTxs[signed.hash := signed]));
    if b.Refused? {
      FailureFrame(cfg, tracked, tx, b.verdict, w);
    }
  }

  /** The exits of a round that release the nonce of a transaction nobody has broadcast. */
  predicate AbandonsBuilt(cfg: Config, run: Run, w: Round) {
    if !PassesSimulation(cfg, w) then
      w.simulation.SimulationReverts? && w.simulation.hook.HookRetry? ==> run.state.attempts + 1 > cfg.maxAttempts
    else
      w.beforeHookFails || !w.signing.SignedBySender? || (cfg.syncBroadcast && w.sync.SyncUnavailable?)
  }

  /** The context is cancelled while a synchronous broadcast is under way. */
  predicate CancelsInFlight(cfg: Config, w: Round) {
    && PassesSimulation(cfg, w)
    && !w.beforeHookFails && w.signing.SignedBySender?
    && cfg.syncBroadcast && w.sync.SyncCancelled?
  }

  predicate CancelledInFlight(result: Result) {
    result.Return? && result.error == Some(ContextCancelled)
  }

  lemma SignOwns(cfg: Config, run: Run, tx: Tx, w: Round)
    requires run.state.oldTxs == map[] && Held(run.log) == {tx.nonce} && SentNonces(run.log) == {}
    requires PassesSimulation(cfg, w)
    ensures var (after, result) := SignAndBroadcast(cfg, run, tx, w);
            && OverReleases(after.log) == OverReleases(run.log)
            && (result.Return? || after.state.oldTxs != map[])
            && (result.Return? && result.error.None? ==> after.state.oldTxs != map[])
            && (after.state.oldTxs == map[] <==> AbandonsBuilt(cfg, run, w) || CancelsInFlight(cfg, w))
            && (after.state.oldTxs == map[] ==> after.state == run.state)
            && (AbandonsBuilt(cfg, run, w) ==>
                  && Held(after.log) == {} && SentNonces(after.log) == {}
                  && result.error.Some? && !CancelledInFlight(result))
            && (CancelsInFlight(cfg, w) ==>
                  && Held(after.log) == {tx.nonce} == SentNonces(after.log)
                  && CancelledInFlight(result) && result.tx.Some? && result.tx.value.nonce == tx.nonce)
  {
    hide AfterBroadcast, BroadcastOf, InUse;
    if !AbandonsBuilt(cfg, run, w) && !CancelsInFlight(cfg, w) {
      var signed := tx.(hash := w.signing.hash);
      BroadcastKeepsHeld(cfg, Handed(run, signed), tx, signed, BroadcastOf(cfg, w), w);
    }
  }

  /** After an attempt that started with no old transactions: what it built is tracked, or given up
      and released, or in flight and still held. */
  lemma AttemptOwns(cfg: Config, run: Run, w: Round)
    requires Owns(run) && run.state.oldTxs == map[] && run.state.resumeWith.None?
    ensures var (after, result) := Attempt(cfg, run, w);
            var build := BuildTx(cfg, run, w).1;
            && OverReleases(after.log) == OverReleases(run.log)
            && (result.Retry? ==> Owns(after))
            && (result.Monitor? ==> after.state.oldTxs != map[])
            && (result.Return? && result.error.None? ==> after.state.oldTxs != map[])
            && (build.BuiltTx? && run.state.nonce.Some? ==> run.state.nonce.value == build.tx.nonce)
            && (build.BuiltTx? && AbandonsBuilt(cfg, run, w) ==>
                  && result.Return? && result.error.Some? && !CancelledInFlight(result)
                  && after.state.oldTxs == map[]
                  && Held(after.log) == {} && SentNonces(after.log) == {})
            && (build.BuiltTx? && CancelsInFlight(cfg, w) ==>
                  && CancelledInFlight(result) && result.tx.Some? && result.tx.value.nonce == build.tx.nonce
                  && after.state.oldTxs == map[]
                  && Held(after.log) == {build.tx.nonce} == SentNonces(after.log))
            && (result.Return? && after.state.oldTxs == map[] ==>
                  && after.state.nonce == run.state.nonce
                  && (build.BuiltTx? ==> AbandonsBuilt(cfg, run, w) || CancelsInFlight(cfg, w))
                  && (build.NotBuilt? ==>
                        && !CancelledInFlight(result)
                        && Held(after.log) == JustThis(run.state.nonce) && SentNonces(after.log) == {}))
  {
    hide SignAndBroadcast, BuildTx, InUse;
    BuildOwns(cfg, run, w);
    var (ready, build) := BuildTx(cfg, run, w);
    if build.BuiltTx? && PassesSimulation(cfg, w) {
      SignOwns(cfg, ready, build.tx, w);
    }
  }

  lemma CleanupOwns(cfg: Config, run: Run, w: Round)
    ensures var after := Cleanup(cfg, run, w);
            && after.state == run.state
            && (run.state.oldTxs != map[] ==>
                  after.log == Then(run.log, Resynced) && OverReleases(after.log) == OverReleases(run.log))
            && (run.state.oldTxs == map[] ==>
                  && Held(after.log) == Held(run.log) - JustThis(run.state.nonce)
                  && OverReleases(after.log) == OverReleases(run.log)
                       + if run.state.nonce.Some? && run.state.nonce.value !in Held(run.log) + SentNonces(run.log)
                         then 1 else 0)
  {
  }

  /** Only a synchronous broadcast cancelled in flight returns a transaction with that error; if no
      earlier round kept its nonce, the deferred guard has nothing to release. */
  predicate Leaks(end: Step) {
    end.Exit? && end.error == Some(ContextCancelled) && end.tx.Some? && end.run.state.nonce.None?
  }

  /** What every round leaves behind. Exits with an error release everything or attempt a resync;
      the one leak is a fresh nonce whose synchronous broadcast is cancelled in flight. */
  lemma IterateOwns(cfg: Config, run: Run, w: Round)
    requires Owns(run)
    ensures var step := Iterate(cfg, run, w);
            && (step.Next? ==> Owns(step.run))
            && (run.state.oldTxs != map[] ==> step.run.state.oldTxs != map[])
            && (step.Exit? && step.error.None? ==> step.run.state.oldTxs != map[])
            && (step.Exit? && step.error.Some? && step.run.state.oldTxs != map[] ==>
                  step.run.log.Then? && step.run.log.last == Resynced)
            && (step.Exit? && step.error.Some? && step.run.state.oldTxs == map[] ==>
                  Held(step.run.log) == if Leaks(step) then {step.tx.value.nonce} else {})
  {
    hide Attempt, TransactionStatus, Cleanup, BuildTx;
    var here := Interfere(cfg, run, w, w.others);
    CleanupOwns(cfg, here, w);
    var (begun, result) := Begin(cfg, here, w);
    if here.state.resumeWith.None? {
      if here.state.oldTxs == map[] {
        AttemptOwns(cfg, here, w);
      } else {
        AttemptKeepsTracking(cfg, here, w);
      }
    }
    CleanupOwns(cfg, begun, w);
    if result.Monitor? && Watch(w.signals).Some? && !Watch(w.signals).value.Cancelled? {
      StatusFrame(cfg, begun, result.watched, Watch(w.signals).value, w);
      CleanupOwns(cfg, TransactionStatus(cfg, begun, result.watched, Watch(w.signals).value, w).0, w);
    }
  }

  lemma ShelvesKeepsTracking(cfg: Config, ready: Run, build: Build, w: Round)
    ensures var (after, result) := AfterBuild(cfg, ready, build, w);
            Shelves(cfg, ready, build, after, result) ==> after.state.oldTxs == ready.state.oldTxs
  {
    hide AfterBuild;
  }

  /** Once a transaction is tracked it stays so. */
  lemma AttemptKeepsTracking(cfg: Config, run: Run, w: Round)
    requires run.state.oldTxs != map[]
    ensures Attempt(cfg, run, w).0.state.oldTxs != map[]
  {
    hide AfterBroadcast, BroadcastOf, AfterBuild, Shelves;
    var (ready, build) := BuildTx(cfg, run, w);
    AttemptShape(cfg, ready, build, w);
    ShelvesKeepsTracking(cfg, ready, build, w);
    if build.BuiltTx? && Broadcasts(cfg, w) {
      var signed := SignedTx(build.tx, w);
      BroadcastKeepsHeld(cfg, Handed(ready, signed), build.tx, signed, BroadcastOf(cfg, w), w);
    }
  }

  /** Ownership over whole runs. */
  lemma {:induction false} NonceOwnership(cfg: Config, run: Run, script: seq<Round>)
    requires Owns(run)
    ensures Owns(LastHead(cfg, run, script))
    ensures var end := Loop(cfg, run, script);
            end.Exit? && end.error.Some? ==>
              if end.run.state.oldTxs != map[] then end.run.log.Then? && end.run.log.last == Resynced
              else Held(end.run.log) == if Leaks(end) then {end.tx.value.nonce} else {}
    decreases |script|
  {
    hide Iterate, Owns;
    if script == [] {
    } else {
      IterateOwns(cfg, run, script[0]);
      var step := Iterate(cfg, run, script[0]);
      if step.Next? {
        NonceOwnership(cfg, step.run, script[1..]);
      }
    }
  }
}
