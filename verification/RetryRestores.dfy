/** A run that fails before it has tracked a transaction gives the tracker back as it found it. */
module RetryRestores {
  import opened Options
  import opened NonceCells
  import opened TxMonitor
  import opened RunHistory
  import opened RetrySpec
  import opened RetryFrames
  import opened RetryOwnership

  /** What the tracker meets while nobody else uses it: one gap finder, and views in which mined
      does not exceed pending and pending does not exceed `top`. */
  datatype Scene = Scene(finder: Option<Finder>, top: nat)

  predicate Ordered(scene: Scene, view: View) {
    view.mined <= view.pending <= scene.top
  }

  ghost predicate Steady(scene: Scene, cfg: Config, w: Round) {
    && w.others == [] && w.between == [] && w.late == []
    && GapFinderOf(cfg, w) == scene.finder
    && (w.view.Some? ==> Ordered(scene, w.view.value))
  }

  /** One acquisition leads from the first cell to the second. */
  ghost predicate Took(scene: Scene, before: Cell, n: nat, after: Cell) {
    exists view ::
      Ordered(scene, view) && Acquire(before, view.mined, view.pending, scene.finder) == Outcome(after, Some(n))
  }

  /** Nothing was acquired, or the one nonce acquired was released. */
  ghost predicate Undone(scene: Scene, before: Cell, after: Cell) {
    after == before || exists n: nat, taken: Cell :: Took(scene, before, n, taken) && after == Release(taken, n)
  }

  /** At a loop head the cell is as it was, or State.Nonce has been taken from it. */
  ghost predicate OneTaken(scene: Scene, before: Cell, run: Run) {
    run.state.oldTxs == map[] ==>
      if run.state.nonce.Some? then Took(scene, before, run.state.nonce.value, run.cell) else run.cell == before
  }

  /** Before the deferred guard runs: it will release State.Nonce, which may be released already. */
  ghost predicate Settled(scene: Scene, before: Cell, run: Run) {
    if run.state.nonce.Some? then
      || Took(scene, before, run.state.nonce.value, run.cell)
      || (Undone(scene, before, run.cell) && Release(run.cell, run.state.nonce.value) == run.cell)
    else Undone(scene, before, run.cell)
  }

  lemma AcquireSucceeds(c: Cell, m: nat, r: nat, finder: Option<Finder>)
    requires m <= r
    ensures Acquire(c, m, r, finder).nonce.Some?
  {
  }

  lemma BuildTakesOne(scene: Scene, before: Cell, cfg: Config, run: Run, w: Round)
    requires OneTaken(scene, before, run) && run.state.oldTxs == map[] && Steady(scene, cfg, w)
    ensures var (ready, build) := BuildTx(cfg, run, w);
            && ready.state == run.state
            && (build.BuiltTx? ==> Took(scene, before, build.tx.nonce, ready.cell))
            && (build.NotBuilt? ==> Settled(scene, before, ready))
            && (build.NotBuilt? && build.error.EstimateGasFailed? ==> ready == run)
            && (build.BuiltTx? && run.state.nonce.Some? ==> run.state.nonce.value == build.tx.nonce)
  {
    hide Acquire, Release;
    if run.state.nonce.None? && w.view.Some? {
      var view := w.view.value;
      AcquireSucceeds(before, view.mined, view.pending, scene.finder);
      var o := Acquire(before, view.mined, view.pending, scene.finder);
      assert o == Outcome(o.cell, o.nonce);
      assert Took(scene, before, o.nonce.value, o.cell);
    }
  }

  lemma ReleasedIsSettled(scene: Scene, before: Cell, run: Run, n: nat)
    requires Took(scene, before, n, run.cell) && (run.state.nonce.Some? ==> run.state.nonce.value == n)
    ensures Settled(scene, before, ReleaseNonce(run, n))
  {
    hide Acquire, Took;
    ReleaseTwice(run.cell, n);
  }

  lemma SignSettles(scene: Scene, before: Cell, cfg: Config, run: Run, tx: Tx, w: Round)
    requires run.state.oldTxs == map[] && Took(scene, before, tx.nonce, run.cell)
    requires run.state.nonce.Some? ==> run.state.nonce.value == tx.nonce
    ensures var (after, result) := SignAndBroadcast(cfg, run, tx, w);
            after.state.oldTxs == map[] ==>
              && result.Return?
              && (Settled(scene, before, after)
                  || (CancelledInFlight(result) && result.tx.Some? && run.state.nonce.None?))
                             && after.state.nonce == run.state.nonce
  {
    hide AfterBroadcast, BroadcastOf, Took, Settled, Acquire, Release;
    ReleasedIsSettled(scene, before, run, tx.nonce);
    if w.signing.SignedBySender? {
      var signed := tx.(hash := w.signing.hash);
      var noted := Note(run, Signed(signed));
      ReleasedIsSettled(scene, before, noted, tx.nonce);
      KeptIsSettled(scene, before, Handed(run, signed), tx.nonce);
      if !w.beforeHookFails && !(cfg.syncBroadcast && (w.sync.SyncUnavailable? || w.sync.SyncCancelled?)) {
        BroadcastKeepsHeld(cfg, Handed(run, signed), tx, signed, BroadcastOf(cfg, w), w);
      }
    }
  }

  lemma KeptIsSettled(scene: Scene, before: Cell, run: Run, n: nat)
    requires Took(scene, before, n, run.cell)
    ensures run.state.nonce == Some(n) ==> Settled(scene, before, run)
  {
  }

  lemma AttemptSettles(scene: Scene, before: Cell, cfg: Config, run: Run, w: Round)
    requires OneTaken(scene, before, run) && Owns(run) && run.state.oldTxs == map[] && run.state.resumeWith.None?
    requires Steady(scene, cfg, w)
    ensures var (after, result) := Attempt(cfg, run, w);
            && (result.Retry? ==> OneTaken(scene, before, after))
            && (result.Monitor? ==> after.state.oldTxs != map[])
            && (result.Return? && after.state.oldTxs == map[] ==>
                  || Settled(scene, before, after)
                  || (CancelledInFlight(result) && result.tx.Some? && after.state.nonce.None?))
  {
    hide SignAndBroadcast, BuildTx, Took, Acquire, Release, Settled, Undone, Owns, Held;
    BuildTakesOne(scene, before, cfg, run, w);
    AttemptOwns(cfg, run, w);
    var (ready, build) := BuildTx(cfg, run, w);
    match build
    case NotBuilt(error) =>
      if error.EstimateGasFailed? {
        HeadIsSettled(scene, before, run, Attempt(cfg, run, w).0);
      }
    case BuiltTx(tx) =>
      ReleasedIsSettled(scene, before, ready, tx.nonce);
      SignSettles(scene, before, cfg, ready, tx, w);
      ReleasedIsSettled(scene, before, CountAttempt(ready), tx.nonce);
      assert Attempt(cfg, run, w).1.Retry? ==> OneTaken(scene, before, Attempt(cfg, run, w).0);
  }

  lemma HeadIsSettled(scene: Scene, before: Cell, run: Run, after: Run)
    requires OneTaken(scene, before, run) && run.state.oldTxs == map[]
    requires after.cell == run.cell && after.state.nonce == run.state.nonce
    ensures Settled(scene, before, after)
  {
  }

  lemma CleanupUndoes(scene: Scene, before: Cell, cfg: Config, run: Run, w: Round)
    requires Settled(scene, before, run) && run.state.oldTxs == map[] && Steady(scene, cfg, w)
    ensures Undone(scene, before, Cleanup(cfg, run, w).cell)
  {
    hide Took, Acquire, Release;
  }

  lemma IterateRestores(scene: Scene, before: Cell, cfg: Config, run: Run, w: Round)
    requires OneTaken(scene, before, run) && Owns(run) && Steady(scene, cfg, w)
    ensures var step := Iterate(cfg, run, w);
            && (step.Next? ==> OneTaken(scene, before, step.run))
            && (step.Exit? && step.error.Some? && step.run.state.oldTxs == map[] && !Leaks(step) ==>
                  Undone(scene, before, step.run.cell))
  {
    hide Attempt, TransactionStatus, Took, Acquire, Release, Settled, Undone, Held;
    IterateOwns(cfg, run, w);
    if run.state.oldTxs == map[] {
      var here := Interfere(cfg, run, w, w.others);
      assert here == run;
      HeadIsSettled(scene, before, run, here);
      CleanupUndoes(scene, before, cfg, here, w);
      AttemptSettles(scene, before, cfg, here, w);
      var (begun, result) := Begin(cfg, here, w);
      if result.Return? && begun.state.oldTxs == map[] && Settled(scene, before, begun) {
        CleanupUndoes(scene, before, cfg, begun, w);
      }
      if result.Monitor? && Watch(w.signals).Some? {
        StatusFrame(cfg, begun, result.watched, Watch(w.signals).value, w);
      }
    }
  }

  lemma {:induction false} RunRestores(scene: Scene, before: Cell, cfg: Config, run: Run, script: seq<Round>)
    requires OneTaken(scene, before, run) && Owns(run) && forall w <- script :: Steady(scene, cfg, w)
    ensures var end := Loop(cfg, run, script);
            end.Exit? && end.error.Some? && end.run.state.oldTxs == map[] && !Leaks(end) ==>
              Undone(scene, before, end.run.cell)
    decreases |script|
  {
    hide Iterate, Owns, OneTaken, Undone, Steady;
    if script == [] {
    } else {
      IterateRestores(scene, before, cfg, run, script[0]);
      IterateOwns(cfg, run, script[0]);
      var step := Iterate(cfg, run, script[0]);
      if step.Next? {
        RunRestores(scene, before, cfg, step.run, script[1..]);
      }
    }
  }

  /** Undoing is enough for every later caller. */
  lemma UndoneIsInvisible(scene: Scene, lookup: nat -> Lookup, before: Cell, after: Cell, m: nat, r: nat)
    requires Valid(before) && Undone(scene, before, after) && m <= r && scene.top <= r
    requires scene.finder.None? || scene.finder == Some(StoreFinder(lookup))
    ensures Acquire(after, m, r, scene.finder).nonce == Acquire(before, m, r, scene.finder).nonce
  {
    hide Acquire, Release;
    if after != before {
      var n: nat, taken: Cell :| Took(scene, before, n, taken) && after == Release(taken, n);
      var view :|
        Ordered(scene, view) && Acquire(before, view.mined, view.pending, scene.finder) == Outcome(taken, Some(n));
      assert Churn(taken, view.mined, view.pending, scene.finder, 0) == taken;
      assert Churn(before, view.mined, view.pending, scene.finder, 1) == after;
      if scene.finder.None? {
        TipRoundTrip(before, view.mined, view.pending, 1, m, r);
      } else {
        ReleaseRoundTrip(before, view.mined, view.pending, lookup, 1, m, r);
      }
    }
  }
}
