/** Concrete runs in which the loop does what one would not expect of it. */
module RetryWitnesses {
  import opened Options
  import opened NonceCells
  import opened TxMonitor
  import opened RunHistory
  import opened RetrySpec
  import opened RetryReleases
  import opened RetryCrowd

  /** A round in which everything works and the transaction is slow while its nonce blocks others. */
  function SlowRound(view: View, nonce: nat, estimate: Option<nat>, order: seq<Hash>): Round {
    Round([], [], [], false, false, estimate, false, None, Some(view), n => Lookup.Found(0), None, 1,
          SimulationOk, false, SignedBySender(7), SyncTimeout(true), AsyncReply(true, NoVerdict),
          true, false, false, true, h => InMempool, order, Some(nonce), None, None, [SaysOther, TimerFired])
  }

  /** The same, but the simulation cannot be run, and no resync is answered. */
  function BrokenRound(view: View): Round {
    SlowRound(view, 0, None, []).(simulation := SimulationBroken)
  }

  lemma SlowIsSlow()
    ensures Watch([SaysOther, TimerFired]) == Some(Slow)
  {
    assert [SaysOther, TimerFired][1..] == [TimerFired];
    assert WatchFrom(false, true, [TimerFired]) == Some(Slow);
  }

  /** A slow and blocking transaction is bumped. */
  lemma SlowBumps(cfg: Config, run: Run, tx: Tx, w: Round)
    requires w.signals == [SaysOther, TimerFired] && w.minedNonce == Some(tx.nonce) && WithinLimits(cfg.gas, tx)
    ensures Await(cfg, run, tx, w) == Next(BumpRun(cfg, run, tx))
  {
    SlowIsSlow();
  }

  lemma TwoRounds(cfg: Config, run: Run, middle: Run, end: Step, script: seq<Round>)
    requires |script| == 2
    ensures Iterate(cfg, run, script[0]) == Next(middle) && Iterate(cfg, middle, script[1]) == end && !end.Next? ==>
              Loop(cfg, run, script) == end
  {
    hide Iterate;
    if Iterate(cfg, run, script[0]) == Next(middle) && Iterate(cfg, middle, script[1]) == end && !end.Next? {
      assert Loop(cfg, middle, script[1..]) == end;
    }
  }

  const ONE_RETRY := Config(1, GasBounds(0, 0.0, 0.0, 0.0, 0.0, 0.0, 0.0), false, false, false)

  const SUBMITTED := Submit(ONE_RETRY, 1.0, 1.0, 21000)

  // ---------------------------------------------------------------- releasing twice

  /** The simulation reverts and the hook asks for a retry; then the simulation cannot be run. The
      handler releases nonce 0, another caller takes it, and the deferred guard releases it again:
      the tracker is fresh, and a third caller is given the nonce that the second one holds. */
  lemma TwoRoundsReleaseTwice() returns (script: seq<Round>, end: Step)
    ensures |script| == 2 && end == Loop(ConfigOf(SUBMITTED), StartOf(SUBMITTED, FRESH), script)
    ensures script[1].late == [DoAcquire(0, 0)] && Acquire(FRESH, 0, 0, None).nonce == Some(0)
    ensures end.Exit? && end.error == Some(SimulationUnavailable) && OverReleases(end.run.log) == 1
    ensures exists before :: end.run.log == Then(Then(before, Released(0, false)), Released(0, false))
    ensures end.run.cell == FRESH
  {
    var cfg, run := ConfigOf(SUBMITTED), StartOf(SUBMITTED, FRESH);
    var first := SlowRound(View(0, 0), 0, None, []).(simulation := SimulationReverts(HookRetry));
    var second := BrokenRound(View(0, 0)).(late := [DoAcquire(0, 0)]);
    var middle := RevertedRound(cfg, run, first);
    end := SecondRelease(cfg, middle, second);
    script := [first, second];
    TwoRounds(cfg, run, middle, end, script);
  }

  lemma RevertedRound(cfg: Config, run: Run, w: Round) returns (after: Run)
    requires w == SlowRound(View(0, 0), 0, None, []).(simulation := SimulationReverts(HookRetry))
    requires cfg == ConfigOf(SUBMITTED) || cfg == ConfigOf(SYNC_SUBMITTED)
    requires run == StartOf(SUBMITTED, FRESH)
    ensures Iterate(cfg, run, w) == Next(after)
    ensures after.state.nonce == Some(0) && after.state.oldTxs == map[] && after.state.attempts == 1
    ensures after.state.gasLimit == 21000 && after.state.price == 1.0 && after.state.resumeWith == None
    ensures Held(after.log) == {0} && OverReleases(after.log) == 0 == LiveReleases(after.log)
    ensures SentNonces(after.log) == {} && after.cell == Cell(Some(0), {0})
  {
    after := Iterate(cfg, run, w).run;
  }

  lemma SecondRelease(cfg: Config, run: Run, w: Round) returns (end: Step)
    requires w == BrokenRound(View(0, 0)).(late := [DoAcquire(0, 0)]) && !cfg.skipSimulation && !cfg.txStore
    requires run.state.nonce == Some(0) && run.state.oldTxs == map[] && run.state.resumeWith == None
    requires run.state.gasLimit > 0 && run.state.price > 0.0
    requires Held(run.log) == {0} && OverReleases(run.log) == 0 && SentNonces(run.log) == {}
    requires run.cell == Cell(Some(0), {0})
    ensures end == Iterate(cfg, run, w)
    ensures end.Exit? && end.error == Some(SimulationUnavailable) && OverReleases(end.run.log) == 1
    ensures exists before :: end.run.log == Then(Then(before, Released(0, false)), Released(0, false))
    ensures end.run.cell == FRESH
  {
    hide SignAndBroadcast, SimulationRevert;
    end := Iterate(cfg, run, w);
    assert Release(run.cell, 0) == FRESH;
    assert w.late[1..] == [] && Acquire(FRESH, 0, 0, None).cell == Cell(Some(0), {0});
    assert ApplyAll(FRESH, w.late, None) == Cell(Some(0), {0});
    assert Release(Cell(Some(0), {0}), 0) == FRESH;
    assert end.run.log == Then(Then(end.run.log.before.before, Released(0, false)), Released(0, false));
  }

  // ---------------------------------------------------------------- releasing a nonce in flight

  const SYNC_SUBMITTED := Submit(ONE_RETRY.(syncBroadcast := true), 1.0, 1.0, 21000)

  /** The simulation reverts and the hook asks for a retry; then the synchronous broadcast of nonce 0
      is cancelled while it is under way. The transaction is not tracked, so the deferred guard
      releases its nonce, and the tracker hands it out again. */
  lemma NonceInFlightIsReissued(lookup: nat -> Lookup) returns (script: seq<Round>, end: Step)
    ensures |script| == 2 && end == Loop(ConfigOf(SYNC_SUBMITTED), StartOf(SYNC_SUBMITTED, FRESH), script)
    ensures end.Exit? && end.error == Some(ContextCancelled) && SentNonces(end.run.log) == {0}
    ensures LiveReleases(end.run.log) == 1 && OverReleases(end.run.log) == 0
    ensures exists before, tx :: end.run.log == Then(Then(before, Sent(tx)), Released(0, true)) && tx.nonce == 0
    ensures end.run.cell == FRESH
    ensures Acquire(end.run.cell, 0, 0, None).nonce == Some(0)
         == Acquire(end.run.cell, 0, 0, Some(StoreFinder(lookup))).nonce
  {
    var cfg, run := ConfigOf(SYNC_SUBMITTED), StartOf(SYNC_SUBMITTED, FRESH);
    var first := SlowRound(View(0, 0), 0, None, []).(simulation := SimulationReverts(HookRetry));
    var second := SlowRound(View(0, 0), 0, None, []).(sync := SyncCancelled);
    var middle := RevertedRound(cfg, run, first);
    end := CancelledRelease(cfg, middle, second);
    script := [first, second];
    TwoRounds(cfg, run, middle, end, script);
  }

  lemma CancelledRelease(cfg: Config, run: Run, w: Round) returns (end: Step)
    requires w == SlowRound(View(0, 0), 0, None, []).(sync := SyncCancelled) && cfg.syncBroadcast
    requires run.state.nonce == Some(0) && run.state.oldTxs == map[] && run.state.resumeWith == None
    requires run.state.gasLimit > 0 && run.state.price > 0.0
    requires OverReleases(run.log) == 0 == LiveReleases(run.log) && SentNonces(run.log) == {}
    requires run.cell == Cell(Some(0), {0})
    ensures end == Iterate(cfg, run, w)
    ensures end.Exit? && end.error == Some(ContextCancelled) && SentNonces(end.run.log) == {0}
    ensures LiveReleases(end.run.log) == 1 && OverReleases(end.run.log) == 0
    ensures exists before, tx :: end.run.log == Then(Then(before, Sent(tx)), Released(0, true)) && tx.nonce == 0
    ensures end.run.cell == FRESH
  {
    hide AfterBroadcast, SimulationRevert;
    end := Iterate(cfg, run, w);
    assert Release(run.cell, 0) == FRESH;
    var tx := end.run.log.before.last.tx;
    assert end.run.log == Then(Then(end.run.log.before.before, Sent(tx)), Released(0, true)) && tx.nonce == 0;
  }

  // ---------------------------------------------------------------- releasing a nonce in use

  /** A round that builds with a nonce in use, and cannot run the simulation. */
  lemma LiveRelease(cfg: Config, run: Run, w: Round, n: nat) returns (end: Step)
    requires w == BrokenRound(View(0, 0)) && !cfg.skipSimulation
    requires run.state.nonce == Some(n) && Carries(run.state.oldTxs, n) && run.state.resumeWith == None
    requires run.state.gasLimit > 0 && run.state.price > 0.0 && run.state.attempts == 0
    ensures end == Iterate(cfg, run, w)
    ensures end.Exit? && end.error == Some(SimulationUnavailable) && end.run.state.oldTxs == run.state.oldTxs
    ensures LiveReleases(end.run.log) == LiveReleases(run.log) + 1
    ensures exists before :: end.run.log == Then(Then(before, Released(n, true)), Resynced)
    ensures end.run.cell == Release(run.cell, n)
  {
    hide SignAndBroadcast, SimulationRevert, Release;
    end := Iterate(cfg, run, w);
    assert run.state.oldTxs != map[];
    assert end.run.log == Then(Then(end.run.log.before.before, Released(n, true)), Resynced);
  }

  /** Nonce 0 is broadcast, accepted and registered, and its transaction is bumped for being slow;
      then the simulation cannot be run. The tracker is fresh again, and hands nonce 0 out although
      a transaction with it is on its way, even when the store is known to hold that transaction. */
  lemma PublishedNonceIsReissued(lookup: nat -> Lookup) returns (script: seq<Round>, end: Step)
    ensures |script| == 2 && end == Loop(ConfigOf(SUBMITTED), StartOf(SUBMITTED, FRESH), script)
    ensures end.Exit? && end.error == Some(SimulationUnavailable) && Carries(end.run.state.oldTxs, 0)
    ensures LiveReleases(end.run.log) == 1
    ensures end.run.cell == FRESH
    ensures Acquire(end.run.cell, 0, 0, None).nonce == Some(0)
         == Acquire(end.run.cell, 0, 0, Some(StoreFinder(lookup))).nonce
  {
    var cfg, run := ConfigOf(SUBMITTED), StartOf(SUBMITTED, FRESH);
    var first, second := SlowRound(View(0, 0), 0, None, []), BrokenRound(View(0, 0));
    var middle := PublishedRound(cfg, run, first);
    end := LiveRelease(cfg, middle, second, 0);
    script := [first, second];
    TwoRounds(cfg, run, middle, end, script);
  }

  lemma PublishedRound(cfg: Config, run: Run, w: Round) returns (after: Run)
    requires w == SlowRound(View(0, 0), 0, None, [])
    requires cfg == ConfigOf(SUBMITTED) && run == StartOf(SUBMITTED, FRESH)
    ensures Iterate(cfg, run, w) == Next(after)
    ensures after.state.nonce == Some(0) && Carries(after.state.oldTxs, 0) && after.state.attempts == 0
    ensures after.state.gasLimit > 0 && after.state.price > 0.0 && after.state.resumeWith == None
    ensures LiveReleases(after.log) == 0 && Release(after.cell, 0) == FRESH
  {
    hide Await;
    var tx := Tx(7, 0, 1.0, 1.0, 21000);
    var (begun, result) := Begin(cfg, run, w);
    assert result == Monitor(tx) && begun.state.oldTxs == map[7 := tx];
    assert WithinLimits(cfg.gas, tx);
    SlowBumps(cfg, begun, tx, w);
    after := BumpRun(cfg, begun, tx);
    assert after.state.oldTxs[7].nonce == 0;
    assert begun.cell == Cell(Some(0), {0});
  }

  const PENDING_FIVE := Tx(7, 5, 1.0, 1.0, 21000)

  const RESUMED := Resume(Defaults(0.0, 0.0, false, false), ResumeOptions(0, 0.0, 0.0), PENDING_FIVE)

  /** A resumed run can release the nonce of the transaction it resumed, which it never acquired. */
  lemma ResumedNonceIsReleased(cell: Cell) returns (script: seq<Round>, end: Step)
    ensures |script| == 2 && end == Loop(ConfigOf(RESUMED), StartOf(RESUMED, cell), script)
    ensures end.Exit? && end.error == Some(SimulationUnavailable) && Carries(end.run.state.oldTxs, 5)
    ensures LiveReleases(end.run.log) == 1 && end.run.cell == Release(cell, 5)
  {
    var cfg, run := ConfigOf(RESUMED), StartOf(RESUMED, cell);
    var first, second := SlowRound(View(5, 5), 5, None, []), BrokenRound(View(0, 0));
    SlowBumps(cfg, run.(state := run.state.(resumeWith := None)), PENDING_FIVE, first);
    var middle := BumpRun(cfg, run.(state := run.state.(resumeWith := None)), PENDING_FIVE);
    assert middle.state.oldTxs[7].nonce == 5;
    end := LiveRelease(cfg, middle, second, 5);
    script := [first, second];
    TwoRounds(cfg, run, middle, end, script);
  }

  // ---------------------------------------------------------------- resyncing below a refused nonce

  /** The nonce is refused as too high, and the resync is answered with what the chain has. */
  function GapRound(): Round {
    SlowRound(View(0, 0), 0, None, []).(
      async := AsyncReply(false, NonceGap), resync := Some(View(0, 0)), signals := [])
  }

  /** Everything works, and the transaction is still being watched. */
  function CalmRound(hash: Hash): Round {
    SlowRound(View(0, 0), 0, None, []).(signing := SignedBySender(hash), signals := [])
  }

  lemma {:induction false} InTurn(s: Crowd, first: seq<Turn>, rest: seq<Turn>)
    requires Possible(s, first) && Possible(After(s, first), rest)
    ensures Possible(s, first + rest) && After(s, first + rest) == After(After(s, first), rest)
    decreases |first|
  {
    hide InOrder, Do;
    if first == [] {
      assert first + rest == rest;
    } else {
      InTurn(Do(s, first[0]), first[1..], rest);
      assert (first + rest)[1..] == first[1..] + rest;
    }
  }

  lemma OneTurn(s: Crowd, turn: Turn)
    requires Enabled(s, turn) && InOrder(s, turn)
    ensures Possible(s, [turn]) && After(s, [turn]) == Do(s, turn)
  {
    hide InOrder, Do, Enabled;
    assert [turn][1..] == [];
    assert Possible(Do(s, turn), []);
    assert After(Do(s, turn), []) == Do(s, turn);
  }

  /** A run at its loop head that has to take a nonce, and whose transaction may go out. */
  predicate Fetching(s: Crowd, t: Ticket, n: nat) {
    && t in s.members && s.members[t].phase.AtHead? && s.members[t].cfg == ConfigOf(SUBMITTED)
    && s.members[t].state.price == 1.0 && s.members[t].state.gasLimit == 21000
    && s.members[t].state.nonce.None? && s.members[t].state.resumeWith.None?
    && Acquire(s.cell, 0, 0, None).nonce == Some(n)
  }

  /** It takes the nonce ... */
  lemma Fetches(s: Crowd, t: Ticket, w: Round, n: nat)
    requires Fetching(s, t, n) && (w == GapRound() || exists hash :: w == CalmRound(hash))
    ensures Possible(s, [Visit(t, w)])
    ensures After(s, [Visit(t, w)]) ==
            Crowd(Acquire(s.cell, 0, 0, None).cell,
                  s.members[t := s.members[t].(log := Then(s.members[t].log, Acquired(n)), phase := Took(w, Some(n)))],
                  s.floor)
  {
    hide Acquire;
    OneTurn(s, Visit(t, w));
  }

  /** ... and sends its transaction. */
  lemma Sends(s: Crowd, t: Ticket, hash: Hash, n: nat)
    requires t in s.members && s.members[t].phase == Took(CalmRound(hash), Some(n))
    requires s.members[t].cfg == ConfigOf(SUBMITTED) && s.members[t].state.resumeWith.None?
    requires s.members[t].state.price == 1.0 && s.members[t].state.gasLimit == 21000
    ensures Possible(s, [Act(t)])
    ensures var end := After(s, [Act(t)]);
            && end.members.Keys == s.members.Keys && (forall u <- s.members | u != t :: end.members[u] == s.members[u])
            && SentNonces(end.members[t].log) == SentNonces(s.members[t].log) + {n}
            && end.cell == SetPending(s.cell, n)
  {
    assert Watch([]).None?;
    OneTurn(s, Act(t));
  }

  lemma FetchAndSend(s: Crowd, t: Ticket, hash: Hash, n: nat) returns (turns: seq<Turn>, end: Crowd)
    requires Fetching(s, t, n)
    ensures Possible(s, turns) && end == After(s, turns)
    ensures end.members.Keys == s.members.Keys && forall u <- s.members | u != t :: end.members[u] == s.members[u]
    ensures SentNonces(end.members[t].log) == SentNonces(s.members[t].log) + {n}
    ensures end.cell == SetPending(Acquire(s.cell, 0, 0, None).cell, n)
  {
    hide Possible, After, Acquire, SetPending;
    var w := CalmRound(hash);
    Fetches(s, t, w, n);
    Sends(After(s, [Visit(t, w)]), t, hash, n);
    turns := [Visit(t, w)] + [Act(t)];
    InTurn(s, [Visit(t, w)], [Act(t)]);
    end := After(s, turns);
  }

  /** A run sends with nonce 1, is refused, and resyncs to the chain's pending nonce 0; all it uses is
      the refused nonce. It sends with nonce 0 then, and another run is given nonce 1 and sends with
      it too: of all turns, only the resync has not passed every nonce in use. */
  lemma RefusedNonceIsShared() returns (first: seq<Turn>, refused: Crowd, rest: seq<Turn>, end: Crowd)
    ensures var start := Crowd(Cell(Some(0), {0}), map[], 0);
            && Possible(start, first) && Enabled(After(start, first), Act(0))
            && refused == Do(After(start, first), Act(0))
    ensures refused.members.Keys == {0} && forall n :: Uses(RunOf(refused, 0), n) <==> n == 1
    ensures exists before, tx ::
              refused.members[0].log == Then(Then(Then(before, Sent(tx)), Rejected(NonceGap, false)), Resynced)
    ensures Possible(refused, rest) && end == After(refused, rest) && end.members.Keys == {0, 1}
    ensures InUse(RunOf(end, 0), 1) && InUse(RunOf(end, 1), 1)
  {
    hide Possible, After, Acquire;
    var start, join := Crowd(Cell(Some(0), {0}), map[], 0), Join(0, SUBMITTED);
    OneTurn(start, join);
    AcquiresNext(Cell(Some(0), {0}), 1);
    Fetches(Do(start, join), 0, GapRound(), 1);
    first := [join] + [Visit(0, GapRound())];
    InTurn(start, [join], [Visit(0, GapRound())]);
    refused := IsRefused(After(start, first));
    AcquiresNext(FRESH, 0);
    var back, one := FetchAndSend(refused, 0, 8, 0);
    OneTurn(one, Join(1, SUBMITTED));
    var two := Do(one, Join(1, SUBMITTED));
    AcquiresNext(two.cell, 1);
    var last, three := FetchAndSend(two, 1, 9, 1);
    InTurn(refused, back, [Join(1, SUBMITTED)]);
    InTurn(refused, back + [Join(1, SUBMITTED)], last);
    rest, end := back + [Join(1, SUBMITTED)] + last, three;
  }

  lemma AcquiresNext(c: Cell, n: nat)
    requires c == if n == 0 then FRESH else Cell(Some(n - 1), {n - 1})
    ensures Acquire(c, 0, 0, None) == Outcome(Cell(Some(n), c.claimed + {n}), Some(n))
  {
  }

  lemma IsRefused(s: Crowd) returns (refused: Crowd)
    requires s.members.Keys == {0} && s.cell == Cell(Some(1), {0, 1})
    requires s.members[0] == Member(ConfigOf(SUBMITTED), StartOf(SUBMITTED, FRESH).state, Then(Start, Acquired(1)),
                                    Took(GapRound(), Some(1)))
    ensures refused == Do(s, Act(0)) && Fetching(refused, 0, 0) && refused.members.Keys == {0}
    ensures refused.cell == FRESH && forall n :: Uses(RunOf(refused, 0), n) <==> n == 1
    ensures SentNonces(refused.members[0].log) == {1}
    ensures exists before, tx ::
              refused.members[0].log == Then(Then(Then(before, Sent(tx)), Rejected(NonceGap, false)), Resynced)
  {
    hide SecondVisit, Acquire, Uses, SentNonces;
    refused := Do(s, Act(0));
    var tx := RefusedVisit(RunOf(s, 0));
    AcquiresNext(FRESH, 0);
    assert RunOf(refused, 0) == SecondVisit(ConfigOf(SUBMITTED), RunOf(s, 0), Some(1), GapRound()).0;
    var log := refused.members[0].log;
    assert log == RefusedLog(tx);
    assert log == Then(Then(Then(log.before.before.before, Sent(tx)), Rejected(NonceGap, false)), Resynced);
  }

  function RefusedLog(tx: Tx): History {
    var built := Then(Then(Start, Acquired(1)), Built(tx.(hash := 1)));
    Then(Then(Then(Then(built, Signed(tx)), Sent(tx)), Rejected(NonceGap, false)), Resynced)
  }

  lemma RefusedVisit(run: Run) returns (tx: Tx)
    requires run == Run(StartOf(SUBMITTED, FRESH).state, Cell(Some(1), {0, 1}), Then(Start, Acquired(1)))
    ensures tx.nonce == 1
    ensures var (after, result) := SecondVisit(ConfigOf(SUBMITTED), run, Some(1), GapRound());
            && result == Retry && after.cell == FRESH && after.log == RefusedLog(tx) && SentNonces(after.log) == {1}
            && after.state == run.state.(oldTxs := map[tx.hash := tx])
            && forall n :: Uses(after, n) <==> n == 1
  {
    tx := PricedTx(ConfigOf(SUBMITTED).gas, 7, 1, 1.0, 1.0, 21000);
    assert Resync(run.cell, 0, 0) == FRESH;
  }
}
