/** The tracker object: per-wallet maps updated in place. A method body stands for the section
    that the source runs under the wallet lock, so each method is one atomic step. */
module NonceTracker {
  import opened Options
  import opened NonceCells

  type Address = int
  type ChainId = int

  /** An assignment to one entry of an inner map. */
  function Put<V>(m: map<ChainId, V>, chain: ChainId, v: V): map<ChainId, V> {
    m[chain := v]
  }

  class Tracker {
    var pendingNonces: map<Address, map<ChainId, nat>>
    var claimedGaps: map<Address, map<ChainId, set<nat>>>

    /** The cell that the two maps hold for one wallet on one chain. */
    ghost function At(wallet: Address, chain: ChainId): Cell
      reads this
    {
      Cell(
        if wallet in pendingNonces && chain in pendingNonces[wallet] then Some(pendingNonces[wallet][chain]) else None,
        if wallet in claimedGaps && chain in claimedGaps[wallet] then claimedGaps[wallet][chain] else {})
    }

    /** Nothing outside (wallet, chain) has changed. */
    twostate predicate OnlyAt(wallet: Address, chain: ChainId)
      reads this
    {
      forall w, c :: (w, c) != (wallet, chain) ==> At(w, c) == old(At(w, c))
    }

    constructor ()
      ensures forall w, c :: At(w, c) == FRESH
    {
      pendingNonces, claimedGaps := map[], map[];
    }

    method GetClaimedGaps(wallet: Address, chain: ChainId) returns (claimed: set<nat>)
      modifies this`claimedGaps
      ensures claimed == old(At(wallet, chain)).claimed && At(wallet, chain) == old(At(wallet, chain))
      ensures OnlyAt(wallet, chain)
      ensures wallet in claimedGaps && chain in claimedGaps[wallet]
    {
      if wallet !in claimedGaps {
        claimedGaps := claimedGaps[wallet := map[]];
      }
      if chain !in claimedGaps[wallet] {
        claimedGaps := claimedGaps[wallet := Put(claimedGaps[wallet], chain, {})];
      }
      claimed := claimedGaps[wallet][chain];
    }

    method ClaimGap(wallet: Address, chain: ChainId, nonce: nat)
      modifies this`claimedGaps
      ensures At(wallet, chain) == Claim(old(At(wallet, chain)), nonce)
      ensures OnlyAt(wallet, chain)
    {
      var gaps := GetClaimedGaps(wallet, chain);
      claimedGaps := claimedGaps[wallet := Put(claimedGaps[wallet], chain, gaps + {nonce})];
    }

    method UnclaimGap(wallet: Address, chain: ChainId, nonce: nat)
      modifies this`claimedGaps
      ensures At(wallet, chain) == old(At(wallet, chain)).(claimed := old(At(wallet, chain)).claimed - {nonce})
      ensures OnlyAt(wallet, chain)
    {
      var gaps := GetClaimedGaps(wallet, chain);
      claimedGaps := claimedGaps[wallet := Put(claimedGaps[wallet], chain, gaps - {nonce})];
    }

    /** Delete every claimed nonce outside [from, to), one at a time; to = None means unbounded. */
    method KeepClaims(wallet: Address, chain: ChainId, from: nat, to: Option<nat>)
      modifies this`claimedGaps
      ensures At(wallet, chain) == old(At(wallet, chain)).(claimed :=
                set n | n in old(At(wallet, chain)).claimed && from <= n && (to.Some? ==> n < to.value))
      ensures OnlyAt(wallet, chain)
    {
      var todo := GetClaimedGaps(wallet, chain);
      ghost var all := todo;
      while todo != {}
        invariant todo <= all
        invariant At(wallet, chain).last == old(At(wallet, chain)).last
        invariant At(wallet, chain).claimed ==
                  set n | n in all && (n in todo || (from <= n && (to.Some? ==> n < to.value)))
        invariant OnlyAt(wallet, chain)
        decreases todo
      {
        var n :| n in todo;
        todo := todo - {n};
        if n < from || (to.Some? && n >= to.value) {
          UnclaimGap(wallet, chain, n);
        }
      }
    }

    /** Set or delete the last used nonce, creating the wallet's map if it is missing. */
    method StoreLast(wallet: Address, chain: ChainId, last: Option<nat>)
      modifies this`pendingNonces
      ensures At(wallet, chain) == old(At(wallet, chain)).(last := last)
      ensures OnlyAt(wallet, chain)
    {
      if wallet !in pendingNonces {
        pendingNonces := pendingNonces[wallet := map[]];
      }
      var nonces := pendingNonces[wallet];
      match last
      case None => pendingNonces := pendingNonces[wallet := nonces - {chain}];
      case Some(nonce) => pendingNonces := pendingNonces[wallet := Put(nonces, chain, nonce)];
    }

    method SetPendingNonce(wallet: Address, chain: ChainId, nonce: nat)
      modifies this`pendingNonces
      ensures At(wallet, chain) == SetPending(old(At(wallet, chain)), nonce)
      ensures OnlyAt(wallet, chain)
    {
      if wallet in pendingNonces && chain in pendingNonces[wallet] && pendingNonces[wallet][chain] >= nonce {
        return;
      }
      StoreLast(wallet, chain, Some(nonce));
    }

    method GetPendingNonce(wallet: Address, chain: ChainId) returns (next: Option<nat>)
      ensures next == if At(wallet, chain).last.Some? then Some(Next(At(wallet, chain))) else None
    {
      if wallet !in pendingNonces || chain !in pendingNonces[wallet] {
        return None;
      }
      return Some(pendingNonces[wallet][chain] + 1);
    }

    /** The gap check that runs under the lock, before the normal nonce logic. */
    method FillGap(wallet: Address, chain: ChainId, remotePending: nat, gapFinder: Option<Finder>)
      returns (gap: Option<nat>)
      modifies this`claimedGaps
      ensures gap == GapFor(old(At(wallet, chain)), remotePending, gapFinder)
      ensures At(wallet, chain) == (var seen := Seen(old(At(wallet, chain)), remotePending, gapFinder);
                                    if gap.Some? then Claim(seen, gap.value) else seen)
      ensures OnlyAt(wallet, chain)
    {
      if gapFinder.None? {
        return None;
      }
      var local := GetPendingNonce(wallet, chain);
      if local.None? || local.value <= remotePending {
        return None;
      }
      KeepClaims(wallet, chain, remotePending, None);
      assert At(wallet, chain) == Prune(old(At(wallet, chain)), remotePending);
      var claimed := GetClaimedGaps(wallet, chain);
      gap := gapFinder.value(remotePending, local.value, claimed);
      if gap.Some? {
        ClaimGap(wallet, chain, gap.value);
      }
    }

    /** None is ErrAbnormalNonceState. */
    method AcquireNonce(wallet: Address, chain: ChainId, mined: nat, remotePending: nat, gapFinder: Option<Finder>)
      returns (nonce: Option<nat>)
      modifies this
      ensures Outcome(At(wallet, chain), nonce) == Acquire(old(At(wallet, chain)), mined, remotePending, gapFinder)
      ensures OnlyAt(wallet, chain)
    {
      hide Seen, GapFor;
      var gap := FillGap(wallet, chain, remotePending, gapFinder);
      if gap.Some? {
        return gap;
      }
      var local := GetPendingNonce(wallet, chain);
      var next: nat;
      if local.None? {
        next := if remotePending > mined then remotePending else mined;
      } else if mined >= remotePending {
        if mined > remotePending {
          return None;
        }
        next := if local.value > mined then local.value else mined;
      } else {
        next := if local.value > remotePending then local.value else remotePending;
      }
      SetPendingNonce(wallet, chain, next);
      ClaimGap(wallet, chain, next);
      return Some(next);
    }

    method ResyncFromRemote(wallet: Address, chain: ChainId, mined: nat, remotePending: nat)
      modifies this
      ensures At(wallet, chain) == Resync(old(At(wallet, chain)), mined, remotePending)
      ensures OnlyAt(wallet, chain)
    {
      var next := remotePending;
      if mined > remotePending {
        next := mined;
      }
      KeepClaims(wallet, chain, 0, Some(next));
      if next == 0 {
        StoreLast(wallet, chain, None);
      } else {
        StoreLast(wallet, chain, Some(next - 1));
      }
    }

    method ReleaseNonce(wallet: Address, chain: ChainId, nonce: nat)
      modifies this
      ensures At(wallet, chain) == Release(old(At(wallet, chain)), nonce)
      ensures OnlyAt(wallet, chain)
    {
      UnclaimGap(wallet, chain, nonce);
      if wallet !in pendingNonces {
        return;
      }
      if chain in pendingNonces[wallet] && pendingNonces[wallet][chain] == nonce {
        if nonce > 0 {
          StoreLast(wallet, chain, Some(nonce - 1));
        } else {
          StoreLast(wallet, chain, None);
        }
      }
    }
  }

  /** The scan that the manager passes to the tracker as its gap finder. */
  method FindNonceGap(lookup: nat -> Lookup, from: nat, to: nat, claimed: set<nat>) returns (gap: Option<nat>)
    ensures gap == StoreFinder(lookup)(from, to, claimed)
    ensures gap.Some? ==> from <= gap.value < to && gap.value !in claimed && lookup(gap.value) == Found(0)
    ensures gap.None? ==> forall n: nat :: from <= n < to ==> n in claimed || lookup(n) != Found(0)
  {
    var n := from;
    while n < to
      invariant from <= n
      invariant forall k: nat :: from <= k < n && k < to ==> k in claimed || lookup(k) != Found(0)
      invariant FirstGap(lookup, n, to, claimed) == FirstGap(lookup, from, to, claimed)
    {
      if n !in claimed {
        match lookup(n)
        case Failed =>
        case Found(count) =>
          if count == 0 {
            return Some(n);
          }
      }
      n := n + 1;
    }
    return None;
  }
}
