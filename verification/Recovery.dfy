/** Recovery after a restart: nonce states are reconciled with the chain, pending transactions are
    looked up and counted. */
module Recovery {
  import opened Options
  import opened NonceCells
  import opened NonceTracker
  import opened RunHistory

  datatype RecoveryError = ContextDone | ListFailed | NoNetwork | NoReader | MinedUnavailable | PendingUnavailable

  datatype Key = Key(wallet: Address, chain: ChainId)

  datatype NonceState = NonceState(key: Key, localPending: Option<nat>, reserved: seq<nat>)

  /** What the loop meets at one nonce state. */
  datatype StateCheck = StateFails(error: RecoveryError) | StateSeen(mined: nat, pending: nat)

  // ---------------------------------------------------------------- reconciling nonces

  function Target(s: NonceState, mined: nat, pending: nat): nat {
    Max(Max(if s.localPending.Some? then s.localPending.value else 0, mined), pending)
  }

  function ReconcileCell(c: Cell, target: nat): Cell {
    if target > 0 then SetPending(c, target - 1) else c
  }

  /** What handling one state does to the cell of a key. */
  function StateCell(c: Cell, key: Key, s: NonceState, check: StateCheck): Cell {
    if s.key == key && check.StateSeen? then ReconcileCell(c, Target(s, check.mined, check.pending)) else c
  }

  /** One key's cell after the first n states. */
  function ReconciledCell(c: Cell, key: Key, states: seq<NonceState>, checks: seq<StateCheck>, n: nat): Cell
    requires n <= |states| == |checks|
  {
    if n == 0 then c else
    StateCell(ReconciledCell(c, key, states, checks, n - 1), key, states[n - 1], checks[n - 1])
  }

  /** The highest of what was persisted and seen for a key, 0 when it was never reached. */
  function HighestTarget(key: Key, states: seq<NonceState>, checks: seq<StateCheck>, n: nat): nat
    requires n <= |states| == |checks|
  {
    if n == 0 then 0 else
    var before := HighestTarget(key, states, checks, n - 1);
    var s, check := states[n - 1], checks[n - 1];
    if s.key == key && check.StateSeen? then Max(before, Target(s, check.mined, check.pending)) else before
  }

  /** The next nonce never goes back, and rises to the highest target; claims are not touched. */
  lemma {:induction false} ReconciledNext(c: Cell, key: Key, states: seq<NonceState>, checks: seq<StateCheck>, n: nat)
    requires n <= |states| == |checks|
    ensures var after := ReconciledCell(c, key, states, checks, n);
            Next(after) == Max(Next(c), HighestTarget(key, states, checks, n)) && after.claimed == c.claimed
    decreases n
  {
    if n == 0 {
    } else {
      ReconciledNext(c, key, states, checks, n - 1);
    }
  }

  /** For a key with one state the highest target is the largest of what was persisted, what is mined
      and what the node has pending. */
  lemma {:induction false} OneStatePerKey(key: Key, states: seq<NonceState>, checks: seq<StateCheck>, n: nat, i: nat)
    requires i < n <= |states| == |checks|
    requires states[i].key == key && checks[i].StateSeen?
    requires forall j :: 0 <= j < n && j != i ==> states[j].key != key
    ensures var top, s, check := HighestTarget(key, states, checks, n), states[i], checks[i];
            && top >= check.mined && top >= check.pending && (s.localPending.Some? ==> top >= s.localPending.value)
            && (top == check.mined || top == check.pending || s.localPending == Some(top))
    decreases n
  {
    if n - 1 == i {
      NoState(key, states, checks, i);
    } else {
      OneStatePerKey(key, states, checks, n - 1, i);
    }
  }

  lemma {:induction false} NoState(key: Key, states: seq<NonceState>, checks: seq<StateCheck>, n: nat)
    requires n <= |states| == |checks| && forall j :: 0 <= j < n ==> states[j].key != key
    ensures HighestTarget(key, states, checks, n) == 0
    decreases n
  {
    if n == 0 {
    } else {
      NoState(key, states, checks, n - 1);
    }
  }

  /** An acquisition persists the nonce it has just used, but recovery reads it as the next one.
      After a crash the fresh tracker hands that nonce out again exactly when the node's pending
      view has not moved past it and, if there is a transaction store, no gap comes first. */
  lemma RecoveryReissuesIff(
    c: Cell, m: nat, r: nat, finder: Option<Finder>, mined: nat, pending: nat, lookup: nat -> Lookup)
    requires Acquire(c, m, r, finder).nonce.Some? && mined <= pending
    ensures var persisted := Acquire(c, m, r, finder).nonce;
            var s := NonceState(Key(0, 0), persisted, [persisted.value]);
            var recovered := ReconcileCell(FRESH, Target(s, mined, pending));
            && (Acquire(recovered, mined, pending, None).nonce == persisted <==> pending <= persisted.value)
            && (Acquire(recovered, mined, pending, Some(StoreFinder(lookup))).nonce == persisted <==>
                  && pending <= persisted.value
                  && forall k :: pending <= k < persisted.value ==> lookup(k) != Lookup.Found(0))
  {
    var n := Acquire(c, m, r, finder).nonce.value;
    hide Acquire;
    var s := NonceState(Key(0, 0), Some(n), [n]);
    var recovered := ReconcileCell(FRESH, Target(s, mined, pending));
    assert Next(recovered) == Max(n, pending) && recovered.claimed == {};
    TakesTip(recovered, mined, pending);
    AcquireIsLeastFree(recovered, mined, pending, lookup);
    var again := Acquire(recovered, mined, pending, Some(StoreFinder(lookup))).nonce.value;
    if pending <= n && forall k :: pending <= k < n ==> lookup(k) != Lookup.Found(0) {
      assert Free(recovered, lookup, n);
      assert !(n < again);
      assert !(again < n);
    }
    if again == n {
      forall k | pending <= k < n ensures lookup(k) != Lookup.Found(0) {
        assert !Free(recovered, lookup, k);
      }
    }
  }

  type Reservations = map<Key, set<nat>>

  /** The nonce store after the first n states: confirmed reservations are gone. */
  function Unreserved(m: Reservations, states: seq<NonceState>, checks: seq<StateCheck>, n: nat): Reservations
    requires n <= |states| == |checks|
  {
    if n == 0 then m else
    StateReserved(Unreserved(m, states, checks, n - 1), states[n - 1], checks[n - 1])
  }

  function StateReserved(m: Reservations, s: NonceState, check: StateCheck): Reservations {
    if check.StateSeen? then Drop(m, s.key, s.reserved, check.mined) else m
  }

  function Drop(m: Reservations, key: Key, reserved: seq<nat>, mined: nat): Reservations {
    if reserved == [] then m else
    var before := Drop(m, key, reserved[..|reserved| - 1], mined);
    var n := reserved[|reserved| - 1];
    if n < mined && key in before then before[key := before[key] - {n}] else before
  }

  /** A reservation at or above the mined nonce is never dropped. */
  lemma {:induction false} DropKeepsUnmined(
    m: Reservations, key: Key, reserved: seq<nat>, mined: nat, other: Key, n: nat)
    requires other in m && n in m[other]
    ensures var after := Drop(m, key, reserved, mined);
            other in after && (n in after[other] <==> !(other == key && n < mined && n in reserved))
    decreases |reserved|
  {
    if reserved == [] {
    } else {
      DropKeepsUnmined(m, key, reserved[..|reserved| - 1], mined, other, n);
      assert reserved == reserved[..|reserved| - 1] + [reserved[|reserved| - 1]];
    }
  }

  /** How many of the states were reconciled. */
  function Reconciled(checks: seq<StateCheck>): nat {
    if checks == [] then 0
    else Reconciled(checks[..|checks| - 1]) + if checks[|checks| - 1].StateSeen? then 1 else 0
  }

  /** The errors of the others, in order. */
  function StateErrors(checks: seq<StateCheck>): seq<RecoveryError> {
    if checks == [] then []
    else
      var last := checks[|checks| - 1];
      StateErrors(checks[..|checks| - 1]) + if last.StateFails? then [last.error] else []
  }

  /** Every nonce state is reconciled or is an error. */
  lemma {:induction false} StatesAddUp(checks: seq<StateCheck>)
    ensures Reconciled(checks) + |StateErrors(checks)| == |checks|
    ensures forall e :: StateFails(e) in checks <==> e in StateErrors(checks)
  {
    if checks == [] {
    } else {
      StatesAddUp(checks[..|checks| - 1]);
      assert checks == checks[..|checks| - 1] + [checks[|checks| - 1]];
    }
  }

  // ---------------------------------------------------------------- counting transactions

  datatype StoredStatus = StoredMined | StoredReverted | StoredDropped

  /** What the loop meets at one pending transaction. */
  datatype TxCheck = TxFails(error: RecoveryError) | TxUnknown | TxDone | TxReverted | TxPending | TxOther

  datatype Tally = Tally(recovered: nat, mined: nat, dropped: nat, errors: seq<RecoveryError>)

  function TallyOf(checks: seq<TxCheck>): Tally {
    if checks == [] then Tally(0, 0, 0, []) else
    var before := TallyOf(checks[..|checks| - 1]);
    match checks[|checks| - 1]
    case TxFails(error) => before.(errors := before.errors + [error])
    case TxUnknown => before.(dropped := before.dropped + 1)
    case TxDone => before.(mined := before.mined + 1)
    case TxReverted => before.(mined := before.mined + 1)
    case TxPending => before.(recovered := before.recovered + 1)
    case TxOther => before.(dropped := before.dropped + 1)
  }

  predicate Recovers(check: TxCheck) { check.TxPending? }

  predicate Mines(check: TxCheck) { check.TxDone? || check.TxReverted? }

  predicate Drops(check: TxCheck) { check.TxUnknown? || check.TxOther? }

  function Indices(checks: seq<TxCheck>, p: TxCheck -> bool): set<nat> {
    set i | 0 <= i < |checks| && p(checks[i])
  }

  /** Each record is counted where it belongs: a pending one as recovered, a done or reverted one as
      mined, an unknown one or one of no use as dropped, and a failed lookup as its error. */
  lemma {:induction false} TallyCounts(checks: seq<TxCheck>)
    ensures var t := TallyOf(checks);
            && t.recovered == |Indices(checks, Recovers)| && t.mined == |Indices(checks, Mines)|
            && t.dropped == |Indices(checks, Drops)|
            && forall e :: TxFails(e) in checks <==> e in t.errors
  {
    if checks == [] {
    } else {
      var n := |checks| - 1;
      TallyCounts(checks[..n]);
      OneMore(checks, Recovers);
      OneMore(checks, Mines);
      OneMore(checks, Drops);
      assert checks == checks[..n] + [checks[n]];
    }
  }

  lemma OneMore(checks: seq<TxCheck>, p: TxCheck -> bool)
    requires checks != []
    ensures var n := |checks| - 1;
            |Indices(checks, p)| == |Indices(checks[..n], p)| + if p(checks[n]) then 1 else 0
  {
    var n := |checks| - 1;
    assert n !in Indices(checks[..n], p);
    assert Indices(checks, p) == Indices(checks[..n], p) + if p(checks[n]) then {n} else {};
  }

  /** Every pending record is counted once. */
  lemma {:induction false} TallyAddsUp(checks: seq<TxCheck>)
    ensures var t := TallyOf(checks); t.recovered + t.mined + t.dropped + |t.errors| == |checks|
  {
    if checks == [] {
    } else {
      TallyAddsUp(checks[..|checks| - 1]);
    }
  }

  function StoredAs(check: TxCheck): Option<StoredStatus> {
    match check
    case TxDone => Some(StoredMined)
    case TxReverted => Some(StoredReverted)
    case TxUnknown => Some(StoredDropped)
    case TxOther => Some(StoredDropped)
    case _ => None
  }

  function StoredAfter(m: map<Hash, StoredStatus>, txs: seq<Hash>, checks: seq<TxCheck>, n: nat)
    : map<Hash, StoredStatus>
    requires n <= |txs| == |checks|
  {
    if n == 0 then m else
    var before := StoredAfter(m, txs, checks, n - 1);
    var status := StoredAs(checks[n - 1]);
    if status.Some? then before[txs[n - 1] := status.value] else before
  }

  /** What was found out about a transaction is what is stored about it; a pending one, one whose
      lookup failed and one that is not listed keep what was stored. */
  lemma {:induction false} StoredAsSeen(
    m: map<Hash, StoredStatus>, txs: seq<Hash>, checks: seq<TxCheck>, n: nat, h: Hash)
    requires n <= |txs| == |checks| && forall i, j :: 0 <= i < j < n ==> txs[i] != txs[j]
    ensures var after := StoredAfter(m, txs, checks, n);
            && (forall i :: 0 <= i < n && txs[i] == h ==>
                  match checks[i]
                  case TxDone => h in after && after[h] == StoredMined
                  case TxReverted => h in after && after[h] == StoredReverted
                  case TxUnknown | TxOther => h in after && after[h] == StoredDropped
                  case TxPending | TxFails(_) => Kept(m, after, h))
            && (h !in txs[..n] ==> Kept(m, after, h))
    decreases n
  {
    if n == 0 {
    } else {
      StoredAsSeen(m, txs, checks, n - 1, h);
      assert txs[..n] == txs[..n - 1] + [txs[n - 1]];
      if h == txs[n - 1] {
        assert h !in txs[..n - 1];
      }
    }
  }

  predicate Kept(m: map<Hash, StoredStatus>, after: map<Hash, StoredStatus>, h: Hash) {
    (h in after <==> h in m) && (h in m ==> after[h] == m[h])
  }

  // ---------------------------------------------------------------- the handler

  class RecoveryResult {
    var recoveredTxs: nat
    var minedTxs: nat
    var droppedTxs: nat
    var reconciledNonces: nat
    var errors: seq<RecoveryError>

    constructor ()
      ensures recoveredTxs == 0 && minedTxs == 0 && droppedTxs == 0 && reconciledNonces == 0 && errors == []
    {
      recoveredTxs, minedTxs, droppedTxs, reconciledNonces, errors := 0, 0, 0, 0, [];
    }
  }

  class RecoveryHandler {
    const tracker: Tracker
    var reserved: Reservations
    var stored: map<Hash, StoredStatus>

    constructor (tracker: Tracker, reserved: Reservations, stored: map<Hash, StoredStatus>)
      ensures this.tracker == tracker && this.reserved == reserved && this.stored == stored
    {
      this.tracker, this.reserved, this.stored := tracker, reserved, stored;
    }

    method ClearConfirmed(s: NonceState, mined: nat)
      modifies this`reserved
      ensures reserved == Drop(old(reserved), s.key, s.reserved, mined)
    {
      var i := 0;
      while i < |s.reserved|
        invariant 0 <= i <= |s.reserved|
        invariant reserved == Drop(old(reserved), s.key, s.reserved[..i], mined)
      {
        assert s.reserved[..i + 1][..i] == s.reserved[..i];
        var n := s.reserved[i];
        if n < mined {
          if s.key in reserved {
            reserved := reserved[s.key := reserved[s.key] - {n}];
          }
        }
        i := i + 1;
      }
      assert s.reserved[..i] == s.reserved;
    }

    method RaiseToTarget(s: NonceState, mined: nat, pending: nat)
      modifies tracker
      ensures tracker.At(s.key.wallet, s.key.chain)
           == ReconcileCell(old(tracker.At(s.key.wallet, s.key.chain)), Target(s, mined, pending))
      ensures var before := Next(old(tracker.At(s.key.wallet, s.key.chain)));
              var after := Next(tracker.At(s.key.wallet, s.key.chain));
              && after >= before && after >= mined && after >= pending
              && (s.localPending.Some? ==> after >= s.localPending.value)
              && (after == before || after == mined || after == pending || s.localPending == Some(after))
      ensures tracker.OnlyAt(s.key.wallet, s.key.chain)
    {
      var reconciled := 0;
      if s.localPending.Some? {
        reconciled := s.localPending.value;
      }
      if mined > reconciled {
        reconciled := mined;
      }
      if pending > reconciled {
        reconciled := pending;
      }
      if reconciled > 0 {
        tracker.SetPendingNonce(s.key.wallet, s.key.chain, reconciled - 1);
      }
    }

    /** One nonce state: an error, or the tracker, the reservations and the counter move on. */
    method HandleState(s: NonceState, check: StateCheck, result: RecoveryResult)
      modifies tracker, this`reserved, result`reconciledNonces, result`errors
      ensures forall w, c :: tracker.At(w, c) == StateCell(old(tracker.At(w, c)), Key(w, c), s, check)
      ensures reserved == StateReserved(old(reserved), s, check)
      ensures result.reconciledNonces == old(result.reconciledNonces) + if check.StateSeen? then 1 else 0
      ensures result.errors == old(result.errors) + if check.StateFails? then [check.error] else []
    {
      match check
      case StateFails(error) =>
        result.errors := result.errors + [error];
      case StateSeen(mined, pending) =>
        RaiseToTarget(s, mined, pending);
        ClearConfirmed(s, mined);
        result.reconciledNonces := result.reconciledNonces + 1;
    }

    /** `cancelAt` is the state before which the context is found cancelled, if it ever is. */
    method ReconcileNonceState(
      listed: Option<seq<NonceState>>, checks: seq<StateCheck>, cancelAt: Option<nat>, result: RecoveryResult)
      returns (err: Option<RecoveryError>)
      requires listed.Some? ==> |checks| == |listed.value|
      modifies tracker, this`reserved, result`reconciledNonces, result`errors
      ensures listed.None? ==> err == Some(ListFailed)
      ensures listed.Some? ==>
                err == if cancelAt.Some? && cancelAt.value < |checks| then Some(ContextDone) else None
      ensures listed.Some? ==>
                var n := if err.Some? then cancelAt.value else |checks|;
                && result.reconciledNonces == old(result.reconciledNonces) + Reconciled(checks[..n])
                && result.errors == old(result.errors) + StateErrors(checks[..n])
                && Reconciled(checks[..n]) + |StateErrors(checks[..n])| == n
                && reserved == Unreserved(old(reserved), listed.value, checks, n)
                && forall w, c ::
                     tracker.At(w, c) == ReconciledCell(old(tracker.At(w, c)), Key(w, c), listed.value, checks, n)
    {
      hide StateCell, StateReserved;
      if listed.None? {
        return Some(ListFailed);
      }
      var states := listed.value;
      var i := 0;
      while i < |states|
        invariant 0 <= i <= |states| && (cancelAt.Some? && cancelAt.value < |states| ==> i <= cancelAt.value)
        invariant result.reconciledNonces == old(result.reconciledNonces) + Reconciled(checks[..i])
        invariant result.errors == old(result.errors) + StateErrors(checks[..i])
        invariant reserved == Unreserved(old(reserved), states, checks, i)
        invariant forall w, c :: tracker.At(w, c) == ReconciledCell(old(tracker.At(w, c)), Key(w, c), states, checks, i)
      {
        if cancelAt == Some(i) {
          StatesAddUp(checks[..i]);
          return Some(ContextDone);
        }
        assert checks[..i + 1][..i] == checks[..i];
        HandleState(states[i], checks[i], result);
        i := i + 1;
      }
      StatesAddUp(checks[..i]);
      return None;
    }

    method ProcessPendingTransactions(
      listed: Option<seq<Hash>>, checks: seq<TxCheck>, cancelAt: Option<nat>, result: RecoveryResult)
      returns (err: Option<RecoveryError>)
      requires listed.Some? ==> |checks| == |listed.value|
      modifies this`stored, result`recoveredTxs, result`minedTxs, result`droppedTxs, result`errors
      ensures listed.None? ==> err == Some(ListFailed)
      ensures listed.Some? ==>
                err == if cancelAt.Some? && cancelAt.value < |checks| then Some(ContextDone) else None
      ensures listed.Some? ==>
                var n := if err.Some? then cancelAt.value else |checks|;
                var t := TallyOf(checks[..n]);
                && result.recoveredTxs == old(result.recoveredTxs) + t.recovered
                && result.minedTxs == old(result.minedTxs) + t.mined
                && result.droppedTxs == old(result.droppedTxs) + t.dropped
                && result.errors == old(result.errors) + t.errors
                && t.recovered + t.mined + t.dropped + |t.errors| == n
                && stored == StoredAfter(old(stored), listed.value, checks, n)
    {
      if listed.None? {
        return Some(ListFailed);
      }
      var txs := listed.value;
      var i := 0;
      while i < |txs|
        invariant 0 <= i <= |txs| && (cancelAt.Some? && cancelAt.value < |txs| ==> i <= cancelAt.value)
        invariant result.recoveredTxs == old(result.recoveredTxs) + TallyOf(checks[..i]).recovered
        invariant result.minedTxs == old(result.minedTxs) + TallyOf(checks[..i]).mined
        invariant result.droppedTxs == old(result.droppedTxs) + TallyOf(checks[..i]).dropped
        invariant result.errors == old(result.errors) + TallyOf(checks[..i]).errors
        invariant stored == StoredAfter(old(stored), txs, checks, i)
      {
        if cancelAt == Some(i) {
          TallyAddsUp(checks[..i]);
          return Some(ContextDone);
        }
        assert checks[..i + 1][..i] == checks[..i];
        match checks[i] {
          case TxFails(error) =>
            result.errors := result.errors + [error];
          case TxUnknown =>
            result.droppedTxs := result.droppedTxs + 1;
            stored := stored[txs[i] := StoredDropped];
          case TxDone =>
            result.minedTxs := result.minedTxs + 1;
            stored := stored[txs[i] := StoredMined];
          case TxReverted =>
            result.minedTxs := result.minedTxs + 1;
            stored := stored[txs[i] := StoredReverted];
          case TxPending =>
            result.recoveredTxs := result.recoveredTxs + 1;
          case TxOther =>
            result.droppedTxs := result.droppedTxs + 1;
            stored := stored[txs[i] := StoredDropped];
        }
        i := i + 1;
      }
      TallyAddsUp(checks[..i]);
      return None;
    }

    /** Recover: each step only with its store. Uncancelled, the result accounts for every record. */
    method Recover(
      withNonceStore: bool, withTxStore: bool,
      states: Option<seq<NonceState>>, stateChecks: seq<StateCheck>, stateCancel: Option<nat>,
      txs: Option<seq<Hash>>, txChecks: seq<TxCheck>, txCancel: Option<nat>)
      returns (result: RecoveryResult, err: Option<RecoveryError>)
      requires states.Some? ==> |stateChecks| == |states.value|
      requires txs.Some? ==> |txChecks| == |txs.value|
      modifies tracker, this`reserved, this`stored
      ensures fresh(result)
      ensures err.None? ==>
                && (withNonceStore ==> states.Some?) && (withTxStore ==> txs.Some?)
                && result.reconciledNonces + result.recoveredTxs + result.minedTxs + result.droppedTxs + |result.errors|
                == (if withNonceStore then |states.value| else 0) + (if withTxStore then |txs.value| else 0)
                && result.reconciledNonces == (if withNonceStore then Reconciled(stateChecks) else 0)
                && (withTxStore ==> stored == StoredAfter(old(stored), txs.value, txChecks, |txChecks|))
                && (withNonceStore ==> forall w, c ::
                      tracker.At(w, c)
                      == ReconciledCell(old(tracker.At(w, c)), Key(w, c), states.value, stateChecks, |stateChecks|))
    {
      result := new RecoveryResult();
      if withNonceStore {
        err := ReconcileNonceState(states, stateChecks, stateCancel, result);
        if err.Some? {
          return;
        }
        assert stateChecks[..|stateChecks|] == stateChecks;
      }
      if withTxStore {
        err := ProcessPendingTransactions(txs, txChecks, txCancel, result);
        if err.Some? {
          return;
        }
      }
      err := None;
    }
  }
}
