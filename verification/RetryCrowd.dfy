/** Any number of runs of the retry loop on one tracker cell, interleaved call by call: as long as
    nobody releases wrongly, no two runs send transactions with the same nonce. */
module RetryCrowd {
  import opened Options
  import opened NonceCells
  import NonceCallers
  import opened TxMonitor
  import opened RunHistory
  import opened RetrySpec
  import opened RetryFrames
  import opened RetryOwnership
  import opened RetryReleases

  // ---------------------------------------------------------------- a round as three visits

  /** The round comes as far as asking for a nonce. */
  predicate Asks(run: Run, w: Round) {
    Attempting(run, w) && !Unestimated(run, w)
  }

  /** A round visits the tracker at most three times, each time for one call at most: to acquire, ... */
  function FirstVisit(cfg: Config, run: Run, w: Round): (Run, Option<nat>) {
    if Asks(run, w) then TakeNonce(cfg, run, w) else (run, None)
  }

  /** ... to release, register or resync what came of it, ... */
  function SecondVisit(cfg: Config, run: Run, nonce: Option<nat>, w: Round): (Run, Result) {
    if CancelledEarly(run, w) then (run, GiveUp(ContextCancelled)) else
    var (begun, result) :=
      if run.state.resumeWith.Some? then Begin(cfg, run, w) else AttemptWith(cfg, run, nonce, w);
    if result.Monitor? && Watch(w.signals).Some?
    then Judge(cfg, begun, result.watched, Watch(w.signals).value, w)
    else (begun, result)
  }

  function AttemptWith(cfg: Config, run: Run, nonce: Option<nat>, w: Round): (Run, Result) {
    if Unestimated(run, w) then AfterBuild(cfg, run, NotBuilt(EstimateGasFailed), w) else
    var (ready, build) := BuildWith(cfg, run, nonce, w);
    AfterBuild(cfg, ready, build, w)
  }

  /** ... and, on an exit with an error, through the deferred guard. */
  function ThirdVisit(run: Run, result: Result, w: Round): Step {
    match result
    case Return(tx, receipt, error) => Exit(if error.Some? then Depart(run, w) else run, tx, receipt, error)
    case Retry => Next(run)
    case Monitor(_) => Blocked(run)
  }

  /** The visits make up the round, with the other callers of the tracker acting between them. */
  lemma RoundIsThreeVisits(cfg: Config, run: Run, w: Round)
    ensures var here := Interfere(cfg, run, w, w.others);
            var (took, nonce) := FirstVisit(cfg, here, w);
            var kept := if Asks(here, w) then Interfere(cfg, took, w, w.between) else took;
            var (acted, result) := SecondVisit(cfg, kept, nonce, w);
            var late := if result.Return? && result.error.Some? then Interfere(cfg, acted, w, w.late) else acted;
            Iterate(cfg, run, w) == ThirdVisit(late, result, w)
  {
    hide AfterBuild, BuildWith, Depart, TransactionStatus, AcquireNonce;
    var here := Interfere(cfg, run, w, w.others);
    var (took, nonce) := FirstVisit(cfg, here, w);
    TakingKeepsState(cfg, here, w);
    StatusIsNotMonitor(cfg, w);
    var kept := if Asks(here, w) then Interfere(cfg, took, w, w.between) else took;
    assert kept.state == here.state;
    if CancelledEarly(here, w) {
    } else if here.state.resumeWith.Some? {
      assert kept == here;
    } else {
      assert Attempt(cfg, here, w) == AttemptWith(cfg, kept, nonce, w);
    }
  }

  lemma TakingKeepsState(cfg: Config, run: Run, w: Round)
    ensures TakeNonce(cfg, run, w).0.state == run.state
  {
  }

  lemma StatusIsNotMonitor(cfg: Config, w: Round)
    ensures forall run, tx, status :: !TransactionStatus(cfg, run, tx, status, w).1.Monitor?
  {
    hide WithinLimits;
  }

  // ---------------------------------------------------------------- one run among others

  /** The tracker will not hand n out: it is behind the tip, and claimed or below every view that may
      still scan for gaps. */
  predicate Fenced(c: Cell, floor: nat, n: nat) {
    n < NonceCells.Next(c) && (n in c.claimed || n < floor)
  }

  /** What the run uses is fenced and foreign to the others, and what the others use is fenced. */
  ghost predicate Safe(run: Run, floor: nat, others: iset<nat>) {
    && Valid(run.cell)
    && (forall n :: Uses(run, n) ==> Fenced(run.cell, floor, n) && n !in others)
    && (forall n <- others :: Fenced(run.cell, floor, n))
  }

  /** An answered resync goes past everything in use. */
  ghost predicate Passes(answer: Option<View>, run: Run, others: iset<nat>) {
    answer.Some? ==>
      forall n: nat :: Uses(run, n) || n in others ==> n < Max(answer.value.mined, answer.value.pending)
  }

  lemma SafeQuiet(run: Run, after: Run, floor: nat, others: iset<nat>)
    requires Safe(run, floor, others) && after.cell == run.cell
    requires forall n :: Uses(after, n) ==> Uses(run, n)
    ensures Safe(after, floor, others)
  {
  }

  /** Handlers that track nothing new use what was used before. */
  lemma SameUses(run: Run, after: Run)
    requires after.state.oldTxs == run.state.oldTxs
    requires Held(after.log) == Held(run.log) && SentNonces(after.log) == SentNonces(run.log)
    ensures forall n :: Uses(after, n) <==> Uses(run, n)
  {
    hide Carries;
  }

  lemma SafeRegister(run: Run, n: nat, registers: bool, floor: nat, others: iset<nat>)
    requires Safe(run, floor, others)
    ensures Safe(Register(run, n, registers), floor, others)
  {
    if registers {
      ApplyKeepsValid(run.cell, DoSetPending(n), None);
      assert forall k: nat :: Fenced(run.cell, floor, k) ==> Fenced(SetPending(run.cell, n), floor, k);
      SameUses(run, Register(run, n, true));
    }
  }

  /** A release that is not wrong is of a nonce the run holds and has not in use. */
  lemma SafeRelease(run: Run, n: nat, floor: nat, others: iset<nat>)
    requires Safe(run, floor, others) && SameReleases(ReleaseNonce(run, n).log, run.log)
    ensures Safe(ReleaseNonce(run, n), floor, others)
  {
    hide Carries;
    var after := ReleaseNonce(run, n);
    ApplyKeepsValid(run.cell, DoRelease(n), None);
    assert Uses(run, n);
    assert forall k: nat :: k != n && Fenced(run.cell, floor, k) ==> Fenced(after.cell, floor, k);
    assert forall k :: Uses(after, k) ==> Uses(run, k) && k != n;
  }

  lemma SafeResync(run: Run, answer: Option<View>, floor: nat, others: iset<nat>)
    requires Safe(run, floor, others) && Passes(answer, run, others)
    ensures Safe(ResyncNonce(run, answer), floor, others)
  {
    var after := ResyncNonce(run, answer);
    SameUses(run, after);
    if answer.Some? {
      var next := Max(answer.value.mined, answer.value.pending);
      ApplyKeepsValid(run.cell, DoResync(answer.value.mined, answer.value.pending), None);
      assert NonceCells.Next(after.cell) == next;
      assert forall k: nat :: k < next && Fenced(run.cell, floor, k) ==> Fenced(after.cell, floor, k);
    }
  }

  /** The visit runs a gap finder. */
  predicate Scanning(cfg: Config, run: Run, w: Round) {
    Asks(run, w) && run.state.nonce.None? && cfg.txStore && w.view.Some?
  }

  function FloorAfter(cfg: Config, run: Run, w: Round, floor: nat): nat {
    if Scanning(cfg, run, w) then Max(floor, w.view.value.pending) else floor
  }

  predicate ViewInOrder(cfg: Config, run: Run, w: Round, floor: nat) {
    Scanning(cfg, run, w) ==> floor <= w.view.value.pending
  }

  /** An acquisition takes a nonce that nobody uses. */
  lemma FirstVisitSafe(cfg: Config, run: Run, w: Round, floor: nat, others: iset<nat>)
    requires Safe(run, floor, others) && ViewInOrder(cfg, run, w, floor)
    ensures Safe(FirstVisit(cfg, run, w).0, FloorAfter(cfg, run, w, floor), others)
  {
    hide Acquire, Valid, Carries;
    if Asks(run, w) && run.state.nonce.None? && w.view.Some? {
      var view, finder := w.view.value, GapFinderOf(cfg, w);
      StoreFinderRespects(w.lookup);
      NonceCallers.AcquireClaims(run.cell, view.mined, view.pending, finder);
      var after := FirstVisit(cfg, run, w).0;
      var higher := FloorAfter(cfg, run, w, floor);
      assert forall k: nat :: Fenced(run.cell, floor, k) ==> Fenced(after.cell, higher, k);
      var o := Acquire(run.cell, view.mined, view.pending, finder);
      if o.nonce.Some? {
        assert !Fenced(run.cell, floor, o.nonce.value);
        assert forall k :: Uses(after, k) ==> Uses(run, k) || k == o.nonce.value;
      } else {
        SameUses(run, after);
      }
    }
  }

  lemma BuildWithSafe(cfg: Config, run: Run, nonce: Option<nat>, w: Round, floor: nat, others: iset<nat>)
    requires Safe(run, floor, others) && !Unestimated(run, w)
    requires SameReleases(BuildWith(cfg, run, nonce, w).0.log, run.log)
    ensures Safe(BuildWith(cfg, run, nonce, w).0, floor, others)
  {
    hide Safe, ReleaseNonce, PricedTx;
    var (ready, build) := BuildWith(cfg, run, nonce, w);
    if build.BuiltTx? {
      SameUses(run, ready);
      SafeQuiet(run, ready, floor, others);
    } else if build.error.GasSettingFailed? && run.state.nonce.None? {
      SafeRelease(run, nonce.value, floor, others);
    }
  }

  lemma FailureSafe(cfg: Config, run: Run, tx: Tx, verdict: Verdict, w: Round, floor: nat, others: iset<nat>)
    requires Safe(run, floor, others) && Passes(w.resync, BroadcastFailure(cfg, run, tx, verdict, w).0, others)
    ensures Safe(BroadcastFailure(cfg, run, tx, verdict, w).0, floor, others)
  {
    hide BroadcastFailure, Safe, Resync, Held, SentNonces;
    FailureFrame(cfg, run, tx, verdict, w);
    var after := BroadcastFailure(cfg, run, tx, verdict, w).0;
    SameUses(run, after);
    SamePasses(w.resync, after, run, others);
    if after.cell == run.cell {
      SafeQuiet(run, after, floor, others);
    } else {
      SafeResync(run, w.resync, floor, others);
      ResyncUses(run, w.resync);
      SafeQuiet(ResyncNonce(run, w.resync), after, floor, others);
    }
  }

  lemma ResyncUses(run: Run, answer: Option<View>)
    ensures forall n :: Uses(ResyncNonce(run, answer), n) <==> Uses(run, n)
  {
    SameUses(run, ResyncNonce(run, answer));
  }

  lemma SamePasses(answer: Option<View>, run: Run, after: Run, others: iset<nat>)
    requires Passes(answer, run, others)
    requires forall n :: Uses(after, n) ==> Uses(run, n)
    ensures Passes(answer, after, others)
  {
    hide Uses;
  }

  lemma AfterBroadcastSafe(
    cfg: Config, run: Run, tx: Tx, signed: Tx, b: Broadcast, w: Round, floor: nat, others: iset<nat>)
    requires Safe(run, floor, others) && signed.nonce in SentNonces(run.log)
    requires Passes(w.resync, AfterBroadcast(cfg, run, tx, signed, b, w).0, others)
    ensures Safe(AfterBroadcast(cfg, run, tx, signed, b, w).0, floor, others)
  {
    hide Safe, BroadcastFailure, Passes;
    var registered := if b.Accepted? then Register(run, signed.nonce, w.registers) else run;
    SafeRegister(run, signed.nonce, w.registers, floor, others);
    var oldTxs := registered.state.oldTxs[signed.hash := signed];
    var tracked := registered.(state := registered.state.(oldTxs := oldTxs));
    SafeQuiet(registered, tracked, floor, others);
    if b.Refused? {
      FailureSafe(cfg, tracked, tx, b.verdict, w, floor, others);
    }
  }

  lemma SignSafe(cfg: Config, run: Run, tx: Tx, w: Round, floor: nat, others: iset<nat>)
    requires Safe(run, floor, others) && Uses(run, tx.nonce)
    requires SameReleases(SignAndBroadcast(cfg, run, tx, w).0.log, run.log)
    requires Passes(w.resync, SignAndBroadcast(cfg, run, tx, w).0, others)
    ensures Safe(SignAndBroadcast(cfg, run, tx, w).0, floor, others)
  {
    hide Safe, AfterBroadcast, BroadcastOf, ReleaseNonce, Passes, Carries, Held;
    if w.beforeHookFails || !w.signing.SignedBySender? {
      if tx.hash !in run.state.oldTxs {
        SafeRelease(run, tx.nonce, floor, others);
      }
    } else {
      var signed := tx.(hash := w.signing.hash);
      var noted := Note(run, Signed(signed));
      SignedUses(run, signed);
      SafeQuiet(run, noted, floor, others);
      SafeQuiet(run, Handed(run, signed), floor, others);
      if cfg.syncBroadcast && w.sync.SyncUnavailable? {
        if tx.hash !in run.state.oldTxs {
          SafeRelease(noted, tx.nonce, floor, others);
        }
      } else if !(cfg.syncBroadcast && w.sync.SyncCancelled?) {
        AfterBroadcastSafe(cfg, Handed(run, signed), tx, signed, BroadcastOf(cfg, w), w, floor, others);
      }
    }
  }

  /** Sending with a nonce in use adds nothing to what is used. */
  lemma SignedUses(run: Run, signed: Tx)
    requires Uses(run, signed.nonce)
    ensures forall n :: Uses(Note(run, Signed(signed)), n) <==> Uses(run, n)
    ensures forall n :: Uses(Handed(run, signed), n) <==> Uses(run, n)
  {
    hide Carries;
  }

  lemma AfterBuildSafe(cfg: Config, ready: Run, build: Build, w: Round, floor: nat, others: iset<nat>)
    requires Safe(ready, floor, others) && (build.BuiltTx? ==> Uses(ready, build.tx.nonce))
    requires SameReleases(AfterBuild(cfg, ready, build, w).0.log, ready.log)
    requires Passes(w.resync, AfterBuild(cfg, ready, build, w).0, others)
    ensures Safe(AfterBuild(cfg, ready, build, w).0, floor, others)
  {
    hide Safe, SignAndBroadcast, ReleaseNonce, Passes, Carries, Held, SentNonces, FindCompleted, FindPending;
    var after := AfterBuild(cfg, ready, build, w).0;
    match build
    case NotBuilt(error) =>
      SameUses(ready, after);
      SafeQuiet(ready, after, floor, others);
    case BuiltTx(tx) =>
      if PassesSimulation(cfg, w) {
        SignSafe(cfg, ready, tx, w, floor, others);
      } else {
        SimulatedSafe(cfg, ready, tx, w, floor, others);
      }
  }

  lemma SimulatedSafe(cfg: Config, ready: Run, tx: Tx, w: Round, floor: nat, others: iset<nat>)
    requires Safe(ready, floor, others) && !PassesSimulation(cfg, w)
    requires SameReleases(AfterBuild(cfg, ready, BuiltTx(tx), w).0.log, ready.log)
    ensures Safe(AfterBuild(cfg, ready, BuiltTx(tx), w).0, floor, others)
  {
    hide Safe, SignAndBroadcast, Carries;
    var after, counted := AfterBuild(cfg, ready, BuiltTx(tx), w).0, CountAttempt(ready);
    SameUses(ready, counted);
    SafeQuiet(ready, counted, floor, others);
    if after == ReleaseNonce(ready, tx.nonce) {
      SafeRelease(ready, tx.nonce, floor, others);
    } else if after == ReleaseNonce(counted, tx.nonce) {
      SafeRelease(counted, tx.nonce, floor, others);
    } else {
      SameUses(ready, after);
      SafeQuiet(ready, after, floor, others);
    }
  }

  /** A nonce that the first visit has brought. */
  predicate Brought(run: Run, nonce: Option<nat>, w: Round) {
    && (nonce.Some? ==> Uses(run, nonce.value))
    && (Asks(run, w) && run.state.nonce.Some? ==> nonce == run.state.nonce)
  }

  lemma FirstVisitBrings(cfg: Config, run: Run, w: Round)
    requires Anchored(run)
    ensures var (took, nonce) := FirstVisit(cfg, run, w);
            took.state == run.state && SameReleases(took.log, run.log) && Anchored(took) && Brought(took, nonce, w)
  {
    hide AcquireNonce, Carries;
    TakenNonce(cfg, run, w);
  }

  lemma AttemptWithSafe(cfg: Config, run: Run, nonce: Option<nat>, w: Round, floor: nat, others: iset<nat>)
    requires Safe(run, floor, others) && Anchored(run) && Brought(run, nonce, w) && Attempting(run, w)
    requires SameReleases(AttemptWith(cfg, run, nonce, w).0.log, run.log)
    requires Passes(w.resync, AttemptWith(cfg, run, nonce, w).0, others)
    ensures var (after, result) := AttemptWith(cfg, run, nonce, w);
            && Safe(after, floor, others)
            && (!result.Return? ==> Anchored(after))
            && (result.Monitor? ==> InUse(after, result.watched.nonce))
  {
    hide Safe, BuildWith, AfterBuild, Passes, InUse, Held, SentNonces;
    if Unestimated(run, w) {
      AfterBuildReleases(cfg, run, NotBuilt(EstimateGasFailed), w);
      AfterBuildSafe(cfg, run, NotBuilt(EstimateGasFailed), w, floor, others);
    } else {
      BuildWithReleases(cfg, run, nonce, w);
      var (ready, build) := BuildWith(cfg, run, nonce, w);
      if build.BuiltTx? {
        BuiltUses(run, ready, build.tx.nonce);
        AfterBuildReleases(cfg, ready, build, w);
        BuildWithSafe(cfg, run, nonce, w, floor, others);
        AfterBuildSafe(cfg, ready, build, w, floor, others);
      } else {
        NotBuiltGivesUp(cfg, ready, build, w);
        BuildWithSafe(cfg, run, nonce, w, floor, others);
      }
    }
  }

  lemma BuiltUses(run: Run, ready: Run, n: nat)
    requires Anchored(run) && Uses(run, n) && ready.state == run.state
    requires Held(ready.log) == Held(run.log) && SentNonces(ready.log) == SentNonces(run.log)
    ensures Anchored(ready) && Uses(ready, n)
  {
    SameUses(run, ready);
  }

  lemma SecondVisitSafe(cfg: Config, run: Run, nonce: Option<nat>, w: Round, floor: nat, others: iset<nat>)
    requires Safe(run, floor, others) && Anchored(run) && Brought(run, nonce, w)
    requires SameReleases(SecondVisit(cfg, run, nonce, w).0.log, run.log)
    requires Passes(w.resync, SecondVisit(cfg, run, nonce, w).0, others)
    ensures var (after, result) := SecondVisit(cfg, run, nonce, w);
            Safe(after, floor, others) && (result.Retry? ==> Anchored(after))
  {
    hide Safe, AttemptWith, Attempt, TransactionStatus, Passes, InUse, Anchored, Brought, Uses;
    if !CancelledEarly(run, w) {
      var after := SecondVisit(cfg, run, nonce, w).0;
      var (begun, result) :=
        if run.state.resumeWith.Some? then Begin(cfg, run, w) else AttemptWith(cfg, run, nonce, w);
      if result.Monitor? {
        JudgedUses(cfg, begun, result.watched, w);
        if begun.state.resumeWith == run.state.resumeWith || run.state.resumeWith.None? {
          SamePasses(w.resync, after, begun, others);
        }
      }
      if run.state.resumeWith.Some? {
        ResumeAnchored(run);
        ResumedUses(run, begun);
        SafeQuiet(run, begun, floor, others);
      } else {
        AttemptWithSafe(cfg, run, nonce, w, floor, others);
      }
      if result.Monitor? && Watch(w.signals).Some? && !Watch(w.signals).value.Cancelled? {
        StatusReleases(cfg, begun, result.watched, Watch(w.signals).value, w);
      }
      if result.Monitor? {
        SafeQuiet(begun, after, floor, others);
      }
    }
  }

  lemma ResumedUses(run: Run, begun: Run)
    requires begun == run.(state := run.state.(resumeWith := None))
    ensures forall n :: Uses(begun, n) <==> Uses(run, n)
  {
    SameUses(run, begun);
  }

  /** Waiting for a status and judging it leaves the tracker and everything in use as it is. */
  lemma JudgedUses(cfg: Config, begun: Run, tx: Tx, w: Round)
    ensures Watch(w.signals).Some? ==>
              var after := Judge(cfg, begun, tx, Watch(w.signals).value, w).0;
              && after.cell == begun.cell && SameReleases(after.log, begun.log)
              && forall n :: Uses(after, n) <==> Uses(begun, n)
  {
    hide TransactionStatus, Uses, Held, SentNonces;
    if Watch(w.signals).Some? {
      StatusFrame(cfg, begun, tx, Watch(w.signals).value, w);
      SameUses(begun, Judge(cfg, begun, tx, Watch(w.signals).value, w).0);
    }
  }

  lemma ThirdVisitSafe(run: Run, w: Round, floor: nat, others: iset<nat>)
    requires Safe(run, floor, others) && SameReleases(Depart(run, w).log, run.log)
    requires run.state.oldTxs != map[] ==> Passes(w.exitResync, Depart(run, w), others)
    ensures Safe(Depart(run, w), floor, others)
  {
    hide Safe, ReleaseNonce, Passes;
    if run.state.oldTxs == map[] {
      if run.state.nonce.Some? {
        SafeRelease(run, run.state.nonce.value, floor, others);
      }
    } else {
      ResyncUses(run, w.exitResync);
      SamePasses(w.exitResync, Depart(run, w), run, others);
      SafeResync(run, w.exitResync, floor, others);
    }
  }

  // ---------------------------------------------------------------- the crowd

  type Ticket = nat

  /** Where a run is: at a loop head, after a first visit, before a third one, or out of the loop. */
  datatype Phase = AtHead | Took(w: Round, nonce: Option<nat>) | Leaving(w: Round) | Gone

  datatype Member = Member(cfg: Config, state: RetryState, log: History, phase: Phase)

  datatype Crowd = Crowd(cell: Cell, members: map<Ticket, Member>, floor: nat)

  datatype Turn =
    | Join(t: Ticket, job: Job)
    | Visit(t: Ticket, w: Round)
    | Act(t: Ticket)
    | Quit(t: Ticket)

  function RunOf(s: Crowd, t: Ticket): Run
    requires t in s.members
  {
    Run(s.members[t].state, s.cell, s.members[t].log)
  }

  predicate Enabled(s: Crowd, turn: Turn) {
    match turn
    case Join(t, _) => t !in s.members
    case Visit(t, _) => t in s.members && s.members[t].phase.AtHead?
    case Act(t) => t in s.members && s.members[t].phase.Took?
    case Quit(t) => t in s.members && s.members[t].phase.Leaving?
  }

  function Update(s: Crowd, t: Ticket, run: Run, phase: Phase, floor: nat): Crowd
    requires t in s.members
  {
    Crowd(run.cell, s.members[t := Member(s.members[t].cfg, run.state, run.log, phase)], floor)
  }

  function PhaseAfter(result: Result, w: Round): Phase {
    match result
    case Return(_, _, error) => if error.Some? then Leaving(w) else Gone
    case Retry => AtHead
    case Monitor(_) => Gone
  }

  function Do(s: Crowd, turn: Turn): Crowd
    requires Enabled(s, turn)
  {
    match turn
    case Join(t, job) =>
      var start := StartOf(job, s.cell);
      s.(members := s.members[t := Member(ConfigOf(job), start.state, start.log, AtHead)])
    case Visit(t, w) =>
      var cfg, run := s.members[t].cfg, RunOf(s, t);
      var (took, nonce) := FirstVisit(cfg, run, w);
      Update(s, t, took, Took(w, nonce), FloorAfter(cfg, run, w, s.floor))
    case Act(t) =>
      var w := s.members[t].phase.w;
      var (acted, result) := SecondVisit(s.members[t].cfg, RunOf(s, t), s.members[t].phase.nonce, w);
      Update(s, t, acted, PhaseAfter(result, w), s.floor)
    case Quit(t) => Update(s, t, Depart(RunOf(s, t), s.members[t].phase.w), Gone, s.floor)
  }

  ghost predicate UsedElsewhere(s: Crowd, t: Ticket, n: nat) {
    exists u <- s.members :: u != t && Uses(RunOf(s, u), n)
  }

  /** What everybody but t uses. */
  ghost function Others(s: Crowd, t: Ticket): iset<nat> {
    iset n: nat | UsedElsewhere(s, t, n)
  }

  /** What is asked of a turn: a resumed transaction has a nonce that nobody uses and the tracker does
      not hand out; views do not go back while gaps are scanned; no release is wrong; and the answer
      to a resync is past everything in use. */
  ghost predicate InOrder(s: Crowd, turn: Turn)
    requires Enabled(s, turn)
  {
    match turn
    case Join(t, job) => job.Resume? ==> Fenced(s.cell, s.floor, job.tx.nonce) && job.tx.nonce !in Others(s, t)
    case Visit(t, w) => ViewInOrder(s.members[t].cfg, RunOf(s, t), w, s.floor)
    case Act(t) =>
      var after := RunOf(Do(s, turn), t);
      SameReleases(after.log, s.members[t].log) && Passes(s.members[t].phase.w.resync, after, Others(s, t))
    case Quit(t) =>
      var after := RunOf(Do(s, turn), t);
      && SameReleases(after.log, s.members[t].log)
      && (after.state.oldTxs != map[] ==> Passes(s.members[t].phase.w.exitResync, after, Others(s, t)))
  }

  ghost predicate Possible(s: Crowd, turns: seq<Turn>)
    decreases |turns|
  {
    turns == [] || (Enabled(s, turns[0]) && InOrder(s, turns[0]) && Possible(Do(s, turns[0]), turns[1..]))
  }

  ghost function After(s: Crowd, turns: seq<Turn>): Crowd
    requires Possible(s, turns)
    decreases |turns|
  {
    if turns == [] then s else After(Do(s, turns[0]), turns[1..])
  }

  /** What a run brings to its next visit. */
  predicate Ready(run: Run, phase: Phase) {
    match phase
    case AtHead => Anchored(run)
    case Took(w, nonce) => Anchored(run) && Brought(run, nonce, w)
    case Leaving(_) => true
    case Gone => true
  }

  /** Nobody uses what another uses, and the tracker hands out nothing that is in use. */
  ghost predicate Apart(s: Crowd) {
    && Valid(s.cell)
    && (forall t <- s.members :: Ready(RunOf(s, t), s.members[t].phase))
    && (forall t <- s.members, n :: Uses(RunOf(s, t), n) ==> Fenced(s.cell, s.floor, n) && !UsedElsewhere(s, t, n))
  }

  /** One run moves safely among the others. */
  lemma UpdateKeepsApart(s: Crowd, t: Ticket, run: Run, phase: Phase, floor: nat)
    requires Apart(s) && t in s.members && Safe(run, floor, Others(s, t)) && Ready(run, phase)
    ensures Apart(Update(s, t, run, phase, floor))
  {
    hide Fenced, Valid, Uses, Ready;
    var after := Update(s, t, run, phase, floor);
    assert RunOf(after, t) == run;
    forall u <- s.members | u != t ensures forall n :: Uses(RunOf(after, u), n) <==> Uses(RunOf(s, u), n) {
      CellIsNotUsed(RunOf(s, u), RunOf(after, u));
    }
    forall u <- after.members ensures Ready(RunOf(after, u), after.members[u].phase) {
      if u != t {
        CellIsNotReady(RunOf(s, u), RunOf(after, u), s.members[u].phase);
      }
    }
    forall u <- after.members, n | Uses(RunOf(after, u), n)
      ensures Fenced(after.cell, floor, n) && !UsedElsewhere(after, u, n)
    {
      if u != t {
        assert UsedElsewhere(s, t, n);
        assert n in Others(s, t);
      } else {
        assert n !in Others(s, t);
      }
      forall v <- after.members | v != u ensures !Uses(RunOf(after, v), n) {
        assert u == t ==> !UsedElsewhere(s, t, n);
        assert u != t ==> !UsedElsewhere(s, u, n);
      }
    }
  }

  lemma CellIsNotUsed(run: Run, after: Run)
    requires after.state == run.state && after.log == run.log
    ensures forall n :: Uses(after, n) <==> Uses(run, n)
  {
    SameUses(run, after);
  }

  lemma CellIsNotReady(run: Run, after: Run, phase: Phase)
    requires after.state == run.state && after.log == run.log && Ready(run, phase)
    ensures Ready(after, phase)
  {
    CellIsNotUsed(run, after);
  }

  lemma MemberIsSafe(s: Crowd, t: Ticket)
    requires Apart(s) && t in s.members
    ensures Safe(RunOf(s, t), s.floor, Others(s, t))
  {
    hide Uses, Fenced, Valid, Ready;
    forall n <- Others(s, t) ensures Fenced(s.cell, s.floor, n) {
      var u :| u in s.members && u != t && Uses(RunOf(s, u), n);
    }
  }

  lemma JoinKeepsApart(s: Crowd, t: Ticket, job: Job)
    requires Apart(s) && Enabled(s, Join(t, job)) && InOrder(s, Join(t, job))
    ensures Apart(Do(s, Join(t, job)))
  {
    hide Fenced, Valid;
    var after := Do(s, Join(t, job));
    StartUses(job, s.cell);
    assert RunOf(after, t) == StartOf(job, s.cell);
    assert forall u <- s.members :: RunOf(after, u) == RunOf(s, u);
    JoinedAreApart(s, t, job, after);
  }

  lemma JoinedAreApart(s: Crowd, t: Ticket, job: Job, after: Crowd)
    requires Apart(s) && t !in s.members && after.cell == s.cell && after.floor == s.floor
    requires after.members.Keys == s.members.Keys + {t} && RunOf(after, t) == StartOf(job, s.cell)
    requires forall u <- s.members :: RunOf(after, u) == RunOf(s, u) && after.members[u] == s.members[u]
    requires after.members[t].phase == AtHead && Anchored(RunOf(after, t))
    requires forall n :: Uses(RunOf(after, t), n) ==> job.Resume? && n == job.tx.nonce
    requires job.Resume? ==> Fenced(s.cell, s.floor, job.tx.nonce) && job.tx.nonce !in Others(s, t)
    ensures Apart(after)
  {
    hide Fenced, Valid, Uses, Anchored, Brought;
    forall u <- after.members, n | Uses(RunOf(after, u), n)
      ensures Fenced(s.cell, s.floor, n) && !UsedElsewhere(after, u, n)
    {
      if u != t {
        assert UsedElsewhere(s, t, n);
        assert n in Others(s, t);
      }
      forall v <- after.members | v != u ensures !Uses(RunOf(after, v), n) {
        assert u == t ==> n !in Others(s, t);
        assert u == t ==> !UsedElsewhere(s, t, n);
        assert u != t ==> !UsedElsewhere(s, u, n);
      }
    }
    forall u <- after.members ensures Ready(RunOf(after, u), after.members[u].phase) {
      if u != t {
        assert Ready(RunOf(s, u), s.members[u].phase);
      }
    }
  }

  /** A new run uses nothing, a resumed one its transaction's nonce. */
  lemma StartUses(job: Job, cell: Cell)
    ensures Anchored(StartOf(job, cell))
    ensures forall n :: Uses(StartOf(job, cell), n) ==> job.Resume? && n == job.tx.nonce
  {
    if job.Resume? {
      assert StartOf(job, cell).state.oldTxs[job.tx.hash].nonce == job.tx.nonce;
    }
  }

  lemma VisitKeepsApart(s: Crowd, t: Ticket, w: Round)
    requires Apart(s) && Enabled(s, Visit(t, w)) && InOrder(s, Visit(t, w))
    ensures Apart(Do(s, Visit(t, w)))
  {
    hide Apart, Safe, FirstVisit, Anchored, Brought, Others;
    var cfg, run := s.members[t].cfg, RunOf(s, t);
    MemberIsSafe(s, t);
    MemberIsReady(s, t);
    FirstVisitSafe(cfg, run, w, s.floor, Others(s, t));
    FirstVisitBrings(cfg, run, w);
    var (took, nonce) := FirstVisit(cfg, run, w);
    UpdateKeepsApart(s, t, took, Took(w, nonce), FloorAfter(cfg, run, w, s.floor));
  }

  lemma MemberIsReady(s: Crowd, t: Ticket)
    requires Apart(s) && t in s.members
    ensures Ready(RunOf(s, t), s.members[t].phase)
  {
  }

  lemma ActKeepsApart(s: Crowd, t: Ticket)
    requires Apart(s) && Enabled(s, Act(t)) && InOrder(s, Act(t))
    ensures Apart(Do(s, Act(t)))
  {
    hide Apart, Safe, SecondVisit, Anchored, Brought, Others, SameReleases, Passes;
    var cfg, run, w, nonce := s.members[t].cfg, RunOf(s, t), s.members[t].phase.w, s.members[t].phase.nonce;
    MemberIsSafe(s, t);
    MemberIsReady(s, t);
    var (acted, result) := SecondVisit(cfg, run, nonce, w);
    assert RunOf(Do(s, Act(t)), t) == acted;
    SecondVisitSafe(cfg, run, nonce, w, s.floor, Others(s, t));
    UpdateKeepsApart(s, t, acted, PhaseAfter(result, w), s.floor);
  }

  lemma QuitKeepsApart(s: Crowd, t: Ticket)
    requires Apart(s) && Enabled(s, Quit(t)) && InOrder(s, Quit(t))
    ensures Apart(Do(s, Quit(t)))
  {
    hide Apart, Safe, Others, SameReleases, Passes, ReleaseNonce, ResyncNonce;
    var run, w := RunOf(s, t), s.members[t].phase.w;
    MemberIsSafe(s, t);
    assert RunOf(Do(s, Quit(t)), t) == Depart(run, w);
    DepartKeepsState(run, w);
    ThirdVisitSafe(run, w, s.floor, Others(s, t));
    UpdateKeepsApart(s, t, Depart(run, w), Gone, s.floor);
  }

  lemma DepartKeepsState(run: Run, w: Round)
    ensures Depart(run, w).state == run.state
  {
  }

  lemma {:induction false} CrowdStaysApart(s: Crowd, turns: seq<Turn>)
    requires Apart(s) && Possible(s, turns)
    ensures Apart(After(s, turns))
    decreases |turns|
  {
    hide Apart, InOrder, Do, Enabled;
    if turns == [] {
    } else {
      match turns[0] {
        case Join(t, job) => JoinKeepsApart(s, t, job);
        case Visit(t, w) => VisitKeepsApart(s, t, w);
        case Act(t) => ActKeepsApart(s, t);
        case Quit(t) => QuitKeepsApart(s, t);
      }
      CrowdStaysApart(Do(s, turns[0]), turns[1..]);
    }
  }

  /** From any tracker state, with nobody there yet: no two runs ever send transactions with one
      nonce, and none sends one with the nonce of a transaction that another has resumed. */
  lemma RunsNeverShareANonce(cell: Cell, turns: seq<Turn>, t: Ticket, u: Ticket, n: nat)
    requires Valid(cell) && Possible(Crowd(cell, map[], 0), turns)
    ensures var s := After(Crowd(cell, map[], 0), turns);
            t in s.members && u in s.members && InUse(RunOf(s, t), n) && InUse(RunOf(s, u), n) ==> t == u
  {
    hide After, Possible, InUse;
    CrowdStaysApart(Crowd(cell, map[], 0), turns);
    var s := After(Crowd(cell, map[], 0), turns);
    if t in s.members && u in s.members && InUse(RunOf(s, t), n) && InUse(RunOf(s, u), n) {
      assert Uses(RunOf(s, t), n) && Uses(RunOf(s, u), n);
      assert !UsedElsewhere(s, t, n);
    }
  }
}
