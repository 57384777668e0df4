/** How long a used nonce stays used: over every sequence of operations, and until which ones. */
module NonceReuse {
  import opened Options
  import opened NonceCells

  /** One call of the tracker, with the gap finder that an acquisition brings. */
  datatype Call = Call(op: Op, finder: Option<Finder>)

  function AfterCall(c: Cell, call: Call): Cell {
    Apply(c, call.op, call.finder)
  }

  /** The nonce that a call hands out. */
  function Granted(c: Cell, call: Call): Option<nat> {
    if call.op.DoAcquire? then Acquire(c, call.op.m, call.op.r, call.finder).nonce else None
  }

  /** What each call of a sequence hands out. */
  function Grants(c: Cell, calls: seq<Call>): seq<Option<nat>>
    decreases |calls|
  {
    if calls == [] then [] else [Granted(c, calls[0])] + Grants(AfterCall(c, calls[0]), calls[1..])
  }

  /** The gap finder does not offer n, as the store-backed one does not once n is stored. */
  ghost predicate Skips(finder: Option<Finder>, n: nat) {
    finder.Some? ==> forall from: nat, to: nat, claimed: set<nat> :: finder.value(from, to, claimed) != Some(n)
  }

  /** The call does not release n, does not resync to n or below, and does not offer n as a gap. */
  ghost predicate Spares(call: Call, n: nat) {
    match call.op
    case DoAcquire(_, _) => Skips(call.finder, n)
    case DoRelease(k) => k != n
    case DoSetPending(_) => true
    case DoResync(m, r) => n < Max(m, r)
  }

  lemma CallSpares(c: Cell, call: Call, n: nat)
    requires n < Next(c) && Spares(call, n)
    ensures Granted(c, call) != Some(n) && n < Next(AfterCall(c, call))
  {
  }

  /** A used nonce is not handed out again while nobody releases it or resyncs to it or below, and
      no gap finder offers it; mined, pending and everything else about the calls are arbitrary. */
  lemma {:induction false} UsedNonceStaysUsed(c: Cell, calls: seq<Call>, n: nat)
    requires n < Next(c) && forall call <- calls :: Spares(call, n)
    ensures Some(n) !in Grants(c, calls)
    decreases |calls|
  {
    if calls == [] {
    } else {
      CallSpares(c, calls[0], n);
      UsedNonceStaysUsed(AfterCall(c, calls[0]), calls[1..], n);
    }
  }

  /** A released nonce comes straight back exactly when it was the tip, for a view at it or below;
      or, with the store-backed finder, when it is free and nothing free comes before it. */
  lemma ReleasedNonceReturnsIff(c: Cell, n: nat, m: nat, r: nat, lookup: nat -> Lookup)
    requires Valid(c) && n < Next(c) && m <= r
    ensures Acquire(Release(c, n), m, r, None).nonce == Some(n) <==> c.last == Some(n) && r <= n
    ensures Acquire(Release(c, n), m, r, Some(StoreFinder(lookup))).nonce == Some(n) <==>
            && r <= n
            && (c.last == Some(n) || lookup(n) == Found(0))
            && forall k :: r <= k < n ==> !Gap(lookup, c.claimed, k)
  {
    var d := Release(c, n);
    ApplyKeepsValid(c, DoRelease(n), None);
    AcquireIsLeastFree(d, m, r, lookup);
    var got := Acquire(d, m, r, Some(StoreFinder(lookup))).nonce.value;
    forall k: nat
      ensures Free(d, lookup, k) <==> Free(c, lookup, k) || (k == n && (c.last == Some(n) || lookup(n) == Found(0)))
    {
      ReleaseFrees(c, n, lookup, k);
    }
    assert Free(c, lookup, n) <==> Gap(lookup, c.claimed, n);
    if got == n {
      assert Free(d, lookup, n);
      forall k | r <= k < n ensures !Gap(lookup, c.claimed, k) {
        assert !Free(d, lookup, k);
      }
    } else if r <= n && Free(d, lookup, n) {
      assert got < n && Free(d, lookup, got);
      assert Gap(lookup, c.claimed, got);
    }
  }
}
