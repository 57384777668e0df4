/** What the nonce tracker remembers for one (wallet, chain) pair, and what each of its
    operations does to that memory. The tracker class is proved against these functions. */
module NonceCells {
  import opened Options

  /** `last` is the last nonce used; `claimed` holds the nonces handed out and not given back. */
  datatype Cell = Cell(last: Option<nat>, claimed: set<nat>)

  const FRESH := Cell(None, {})

  /** What the transaction store answers when asked for the transactions at one nonce. */
  datatype Lookup = Failed | Found(count: nat)

  /** A gap finder gets a range [from, to) and the claimed set. */
  type Finder = (nat, nat, set<nat>) -> Option<nat>

  datatype Outcome = Outcome(cell: Cell, nonce: Option<nat>)

  predicate Valid(c: Cell) {
    match c.last
    case None => c.claimed == {}
    case Some(l) => forall n <- c.claimed :: n <= l
  }

  /** The next nonce to use, 0 when nothing is tracked. */
  function Next(c: Cell): nat {
    match c.last
    case None => 0
    case Some(l) => l + 1
  }

  function SetPending(c: Cell, n: nat): Cell {
    if c.last.Some? && c.last.value >= n then c else c.(last := Some(n))
  }

  function Claim(c: Cell, n: nat): Cell {
    c.(claimed := c.claimed + {n})
  }

  function Prune(c: Cell, floor: nat): Cell {
    c.(claimed := set n | n in c.claimed && floor <= n)
  }

  /** The gap finder runs only when local tracking is ahead of the remote view. */
  predicate Scans(c: Cell, r: nat, finder: Option<Finder>) {
    finder.Some? && c.last.Some? && c.last.value + 1 > r
  }

  /** The decision taken when no gap was filled. None is the abnormal state mined > pending. */
  function Decide(last: Option<nat>, m: nat, r: nat): Option<nat> {
    match last
    case None => Some(Max(m, r))
    case Some(l) =>
      if m < r then Some(Max(l + 1, r))
      else if m > r then None
      else Some(Max(l + 1, m))
  }

  /** The claims that are left when the scan has been considered: a scan drops those below r. */
  function Seen(c: Cell, r: nat, finder: Option<Finder>): Cell {
    if Scans(c, r, finder) then Prune(c, r) else c
  }

  function GapFor(c: Cell, r: nat, finder: Option<Finder>): Option<nat> {
    if Scans(c, r, finder) then finder.value(r, Next(c), Prune(c, r).claimed) else None
  }

  function Reserve(c: Cell, n: nat): Cell {
    Claim(SetPending(c, n), n)
  }

  function Acquire(c: Cell, m: nat, r: nat, finder: Option<Finder>): Outcome {
    var seen, gap := Seen(c, r, finder), GapFor(c, r, finder);
    if gap.Some? then
      Outcome(Claim(seen, gap.value), gap)
    else
      match Decide(seen.last, m, r)
      case None => Outcome(seen, None)
      case Some(n) => Outcome(Reserve(seen, n), Some(n))
  }

  function Release(c: Cell, n: nat): Cell {
    Cell(
      if c.last == Some(n) then (if n > 0 then Some(n - 1) else None) else c.last,
      c.claimed - {n})
  }

  function Resync(c: Cell, m: nat, r: nat): Cell {
    var next := Max(m, r);
    Cell(if next == 0 then None else Some(next - 1), set n | n in c.claimed && n < next)
  }

  /** The store-backed gap finder: the first nonce of the range that is neither claimed nor
      stored. A failed lookup counts as stored. */
  function FirstGap(lookup: nat -> Lookup, from: nat, to: nat, claimed: set<nat>): (g: Option<nat>)
    ensures g.Some? ==> from <= g.value < to && Gap(lookup, claimed, g.value)
    ensures forall k: nat :: from <= k < (if g.Some? then g.value else to) ==> !Gap(lookup, claimed, k)
    decreases if from < to then to - from else 0
  {
    if from >= to then None
    else if Gap(lookup, claimed, from) then Some(from)
    else FirstGap(lookup, from + 1, to, claimed)
  }

  predicate Gap(lookup: nat -> Lookup, claimed: set<nat>, n: nat) {
    n !in claimed && lookup(n) == Found(0)
  }

  function StoreFinder(lookup: nat -> Lookup): Finder {
    (from, to, claimed) => FirstGap(lookup, from, to, claimed)
  }

  /** What the tracker's documentation asks of every gap finder. */
  ghost predicate Respects(finder: Option<Finder>) {
    finder.Some? ==>
      forall from: nat, to: nat, claimed: set<nat> :: finder.value(from, to, claimed).Some? ==>
        from <= finder.value(from, to, claimed).value < to && finder.value(from, to, claimed).value !in claimed
  }

  lemma StoreFinderRespects(lookup: nat -> Lookup)
    ensures Respects(Some(StoreFinder(lookup)))
  {
  }

  // ---------------------------------------------------------------- the invariant, exactly

  datatype Op =
    | DoAcquire(m: nat, r: nat)
    | DoRelease(n: nat)
    | DoSetPending(n: nat)
    | DoResync(m: nat, r: nat)

  function Apply(c: Cell, op: Op, finder: Option<Finder>): Cell {
    match op
    case DoAcquire(m, r) => Acquire(c, m, r, finder).cell
    case DoRelease(n) => Release(c, n)
    case DoSetPending(n) => SetPending(c, n)
    case DoResync(m, r) => Resync(c, m, r)
  }

  function ApplyAll(c: Cell, ops: seq<Op>, finder: Option<Finder>): Cell
    decreases |ops|
  {
    if ops == [] then c else ApplyAll(Apply(c, ops[0], finder), ops[1..], finder)
  }

  lemma ApplyKeepsValid(c: Cell, op: Op, finder: Option<Finder>)
    requires Valid(c) && Respects(finder)
    ensures Valid(Apply(c, op, finder))
  {
  }

  lemma {:induction false} RunsKeepValid(c: Cell, ops: seq<Op>, finder: Option<Finder>)
    requires Valid(c) && Respects(finder)
    ensures Valid(ApplyAll(c, ops, finder))
    decreases |ops|
  {
    if ops == [] {
    } else {
      ApplyKeepsValid(c, ops[0], finder);
      RunsKeepValid(Apply(c, ops[0], finder), ops[1..], finder);
    }
  }

  lemma {:induction false} ApplyAllAppend(c: Cell, a: seq<Op>, op: Op, finder: Option<Finder>)
    ensures ApplyAll(c, a + [op], finder) == Apply(ApplyAll(c, a, finder), op, finder)
    decreases |a|
  {
    if a == [] {
      assert [op][1..] == [];
    } else {
      assert (a + [op])[1..] == a[1..] + [op];
      ApplyAllAppend(Apply(c, a[0], finder), a[1..], op, finder);
    }
  }

  /** Claiming a set of nonces in increasing order, each acquired from a remote view at it. */
  lemma {:induction false} ClaimsReachable(claimed: set<nat>) returns (ops: seq<Op>)
    ensures ApplyAll(FRESH, ops, None).claimed == claimed
    ensures Valid(ApplyAll(FRESH, ops, None))
    ensures claimed == {} ==> ops == []
    ensures claimed != {} ==> ApplyAll(FRESH, ops, None).last.Some? && ApplyAll(FRESH, ops, None).last.value in claimed
    decreases |claimed|
  {
    if claimed == {} {
      ops := [];
    } else {
      var top := Largest(claimed);
      var before := ClaimsReachable(claimed - {top});
      ops := before + [DoAcquire(top, top)];
      ApplyAllAppend(FRESH, before, DoAcquire(top, top), None);
      assert claimed == claimed - {top} + {top};
    }
  }

  lemma {:induction false} Largest(s: set<nat>) returns (top: nat)
    requires s != {}
    ensures top in s && forall n <- s :: n <= top
    decreases |s|
  {
    top :| top in s;
    if s != {top} {
      var pick := top;
      var other := Largest(s - {pick});
      top := if other < pick then pick else other;
      assert forall n <- s :: n == pick || n in s - {pick};
    }
  }

  ghost predicate Reachable(c: Cell) {
    exists ops: seq<Op> :: ApplyAll(FRESH, ops, None) == c
  }

  /** The invariant is exact: a cell can be reached from a fresh tracker iff it is valid. So a
      caller who sees the cell only now and then can meet any valid cell and no other. */
  lemma {:induction false} ReachableIffValid(c: Cell)
    ensures Reachable(c) <==> Valid(c)
  {
    if Reachable(c) {
      var ops :| ApplyAll(FRESH, ops, None) == c;
      RunsKeepValid(FRESH, ops, None);
    }
    if Valid(c) {
      var ops := ClaimsReachable(c.claimed);
      if c.last.Some? {
        var raise := DoSetPending(c.last.value);
        ApplyAllAppend(FRESH, ops, raise, None);
        assert ApplyAll(FRESH, ops + [raise], None) == c;
      } else {
        assert ApplyAll(FRESH, ops, None) == c;
      }
    }
  }

  // ---------------------------------------------------------------- least-free allocation

  /** n may still be handed out: it lies beyond the tip, or it is a gap. */
  predicate Free(c: Cell, lookup: nat -> Lookup, n: nat) {
    n >= Next(c) || Gap(lookup, c.claimed, n)
  }

  /** With the store-backed finder, Acquire is the least-free allocator above the remote view. */
  lemma AcquireIsLeastFree(c: Cell, m: nat, r: nat, lookup: nat -> Lookup)
    requires Valid(c) && m <= r
    ensures var o := Acquire(c, m, r, Some(StoreFinder(lookup)));
            && o.nonce.Some?
            && r <= o.nonce.value
            && Free(c, lookup, o.nonce.value)
            && (forall k :: r <= k < o.nonce.value ==> !Free(c, lookup, k))
            && (forall k :: r <= k ==> (Free(o.cell, lookup, k) <==> Free(c, lookup, k) && k != o.nonce.value))
  {
    var finder := Some(StoreFinder(lookup));
    var o := Acquire(c, m, r, finder);
    if Scans(c, r, finder) {
      var seen := Prune(c, r);
      assert forall k :: r <= k ==> (k in seen.claimed <==> k in c.claimed);
      assert forall k :: r <= k ==> (Gap(lookup, seen.claimed, k) <==> Gap(lookup, c.claimed, k));
      var gap := FirstGap(lookup, r, Next(c), seen.claimed);
      if gap.Some? {
        assert forall k :: r <= k && k != gap.value ==> (Gap(lookup, o.cell.claimed, k) <==> Gap(lookup, c.claimed, k));
      } else {
        assert o.nonce == Some(Next(c));
      }
    } else {
      assert o.nonce == Some(r);
    }
  }

  /** Acquire fails exactly when the node reports more mined than pending, something is tracked and
      no gap is found; then only claims below the pending nonce are forgotten. */
  lemma AcquireFailsIff(c: Cell, m: nat, r: nat, lookup: nat -> Lookup)
    requires Valid(c)
    ensures var o := Acquire(c, m, r, Some(StoreFinder(lookup)));
            && (o.nonce.None? <==> m > r && c.last.Some? && forall k :: r <= k < Next(c) ==> !Gap(lookup, c.claimed, k))
            && (o.nonce.None? ==>
                  o.cell.last == c.last && forall k :: r <= k ==> (k in o.cell.claimed <==> k in c.claimed))
  {
    var seen := Prune(c, r);
    assert forall k: nat :: r <= k ==> (Gap(lookup, seen.claimed, k) <==> Gap(lookup, c.claimed, k));
    if Scans(c, r, Some(StoreFinder(lookup))) {
      var gap := FirstGap(lookup, r, Next(c), seen.claimed);
      assert gap.Some? ==> Gap(lookup, c.claimed, gap.value);
    }
  }

  /** The gap scan comes before the check that mined does not exceed pending: an acquisition hands
      out an already mined nonce exactly when the scanned range holds a gap below the mined nonce. */
  lemma HandsOutMinedIff(c: Cell, m: nat, r: nat, lookup: nat -> Lookup)
    requires Valid(c)
    ensures var o := Acquire(c, m, r, Some(StoreFinder(lookup)));
            (o.nonce.Some? && o.nonce.value < m) <==> exists k :: r <= k < m && k < Next(c) && Gap(lookup, c.claimed, k)
  {
    var seen := Prune(c, r);
    assert forall k: nat :: r <= k ==> (Gap(lookup, seen.claimed, k) <==> Gap(lookup, c.claimed, k));
    if Scans(c, r, Some(StoreFinder(lookup))) {
      var gap := FirstGap(lookup, r, Next(c), seen.claimed);
      assert gap.Some? ==> Gap(lookup, c.claimed, gap.value);
    }
  }

  /** Release gives back exactly the released nonce, and only if it is the tip or unstored. */
  lemma ReleaseFrees(c: Cell, n: nat, lookup: nat -> Lookup, k: nat)
    requires Valid(c)
    ensures Free(Release(c, n), lookup, k) <==>
            Free(c, lookup, k) || (k == n && (c.last == Some(n) || lookup(n) == Found(0)))
  {
  }

  // The simple allocator: a set of free nonces, nothing else.

  ghost function LeastFrom(free: iset<nat>, r: nat): Option<nat> {
    if exists n :: n in free && r <= n && forall k :: r <= k < n ==> k !in free
    then var n :| n in free && r <= n && forall k :: r <= k < n ==> k !in free; Some(n)
    else None
  }

  datatype Request =
    | Take(m: nat, r: nat)
    | Surrender(n: nat)
    | Publish(n: nat)

  /** The concrete side: the cell together with the transaction store. */
  datatype Desk = Desk(cell: Cell, stored: set<nat>)

  function Stored(stored: set<nat>): nat -> Lookup {
    n => if n in stored then Found(1) else Found(0)
  }

  function Serve(d: Desk, q: Request): (Desk, Option<nat>) {
    match q
    case Take(m, r) =>
      var o := Acquire(d.cell, m, r, Some(StoreFinder(Stored(d.stored))));
      (d.(cell := o.cell), o.nonce)
    case Surrender(n) => (d.(cell := Release(d.cell, n)), None)
    case Publish(n) => (Desk(SetPending(d.cell, n), d.stored + {n}), None)
  }

  ghost function ServeSimply(free: iset<nat>, q: Request): (iset<nat>, Option<nat>) {
    match q
    case Take(m, r) =>
      var n := LeastFrom(free, r);
      ((iset k: nat | k in free && n != Some(k)), n)
    case Surrender(n) => ((iset k: nat | k in free || k == n), None)
    case Publish(n) => ((iset k: nat | k in free && k != n), None)
  }

  /** What the refinement asks of the callers, and what they do not always do: views never move back,
      mined never exceeds pending, only the tip is given back once it is published, and only used
      nonces are published. The retry loop releases published nonces on some of its exits. */
  predicate Disciplined(d: Desk, floor: nat, q: Request) {
    match q
    case Take(m, r) => m <= r && floor <= r
    case Surrender(n) => n !in d.stored || d.cell.last == Some(n)
    case Publish(n) => n < Next(d.cell)
  }

  function Floor(floor: nat, q: Request): nat {
    if q.Take? then q.r else floor
  }

  predicate DisciplinedAll(d: Desk, floor: nat, qs: seq<Request>)
    decreases |qs|
  {
    qs == [] || (Disciplined(d, floor, qs[0]) && DisciplinedAll(Serve(d, qs[0]).0, Floor(floor, qs[0]), qs[1..]))
  }

  ghost predicate Matches(d: Desk, free: iset<nat>, floor: nat) {
    Valid(d.cell) && forall k: nat :: floor <= k ==> (k in free <==> Free(d.cell, Stored(d.stored), k))
  }

  function Answers(d: Desk, qs: seq<Request>): seq<Option<nat>>
    decreases |qs|
  {
    if qs == [] then [] else [Serve(d, qs[0]).1] + Answers(Serve(d, qs[0]).0, qs[1..])
  }

  ghost function SimpleAnswers(free: iset<nat>, qs: seq<Request>): seq<Option<nat>>
    decreases |qs|
  {
    if qs == [] then [] else [ServeSimply(free, qs[0]).1] + SimpleAnswers(ServeSimply(free, qs[0]).0, qs[1..])
  }

  lemma LeastIs(free: iset<nat>, r: nat, n: nat)
    requires n in free && r <= n && forall k :: r <= k < n ==> k !in free
    ensures LeastFrom(free, r) == Some(n)
  {
    var m := LeastFrom(free, r).value;
    assert m == n;
  }

  lemma ServeMatches(d: Desk, free: iset<nat>, floor: nat, q: Request)
    requires Matches(d, free, floor) && Disciplined(d, floor, q)
    ensures Serve(d, q).1 == ServeSimply(free, q).1
    ensures Matches(Serve(d, q).0, ServeSimply(free, q).0, Floor(floor, q))
  {
    match q
    case Take(m, r) =>
      AcquireIsLeastFree(d.cell, m, r, Stored(d.stored));
      LeastIs(free, r, Serve(d, q).1.value);
    case Surrender(n) =>
      forall k ensures Free(Release(d.cell, n), Stored(d.stored), k) <==> Free(d.cell, Stored(d.stored), k) || k == n {
        ReleaseFrees(d.cell, n, Stored(d.stored), k);
      }
    case Publish(n) =>
  }

  /** Over whole runs the pair (last, claimed) with the store answers as the free set does. */
  lemma {:induction false} TrackerRefinesFreeSet(d: Desk, free: iset<nat>, floor: nat, qs: seq<Request>)
    requires Matches(d, free, floor) && DisciplinedAll(d, floor, qs)
    ensures Answers(d, qs) == SimpleAnswers(free, qs)
    decreases |qs|
  {
    if qs == [] {
    } else {
      ServeMatches(d, free, floor, qs[0]);
      TrackerRefinesFreeSet(Serve(d, qs[0]).0, ServeSimply(free, qs[0]).0, Floor(floor, qs[0]), qs[1..]);
    }
  }

  ghost function AllNonces(stored: set<nat>): (free: iset<nat>)
    ensures forall n: nat :: n in free
  {
    iset n: nat | Free(FRESH, Stored(stored), n)
  }

  /** A fresh tracker starts as the free set of all nonces, whatever the store holds. */
  lemma FreshIsAllFree(stored: set<nat>, qs: seq<Request>)
    ensures Matches(Desk(FRESH, stored), AllNonces(stored), 0)
    ensures DisciplinedAll(Desk(FRESH, stored), 0, qs) ==>
              Answers(Desk(FRESH, stored), qs) == SimpleAnswers(AllNonces(stored), qs)
  {
    if DisciplinedAll(Desk(FRESH, stored), 0, qs) {
      TrackerRefinesFreeSet(Desk(FRESH, stored), AllNonces(stored), 0, qs);
    }
  }

  /** Giving a nonce back keeps the two sides together exactly if it is below every later view, not
      published, the tip, or not used yet: the tracker forgets no published nonce below the tip. */
  lemma SurrenderMatchesIff(d: Desk, free: iset<nat>, floor: nat, n: nat)
    requires Matches(d, free, floor)
    ensures Matches(Serve(d, Surrender(n)).0, ServeSimply(free, Surrender(n)).0, floor)
       <==> n < floor || n !in d.stored || d.cell.last == Some(n) || n >= Next(d.cell)
  {
    ApplyKeepsValid(d.cell, DoRelease(n), None);
    var after, simple := Serve(d, Surrender(n)).0, ServeSimply(free, Surrender(n)).0;
    forall k: nat ensures Free(after.cell, Stored(d.stored), k) <==>
        Free(d.cell, Stored(d.stored), k) || (k == n && (d.cell.last == Some(n) || n !in d.stored))
    {
      ReleaseFrees(d.cell, n, Stored(d.stored), k);
    }
    assert n in simple;
    assert Free(after.cell, Stored(d.stored), n) <==> n !in d.stored || d.cell.last == Some(n) || n >= Next(d.cell);
  }

  // ---------------------------------------------------------------- resync heals

  function AcquireMany(c: Cell, m: nat, r: nat, finder: Option<Finder>, k: nat): seq<Option<nat>>
    decreases k
  {
    if k == 0 then [] else
      var o := Acquire(c, m, r, finder);
      [o.nonce] + AcquireMany(o.cell, m, r, finder, k - 1)
  }

  /** In step: every nonce of [r, Next) is claimed, so there is no gap to fill. */
  ghost predicate InStep(c: Cell, r: nat) {
    r <= Next(c) && forall n :: r <= n < Next(c) ==> n in c.claimed
  }

  lemma AcquireInStep(c: Cell, m: nat, r: nat, finder: Option<Finder>)
    requires InStep(c, r) && m <= r && Respects(finder)
    ensures Acquire(c, m, r, finder).nonce == Some(Next(c))
    ensures InStep(Acquire(c, m, r, finder).cell, r)
    ensures Next(Acquire(c, m, r, finder).cell) == Next(c) + 1
  {
    var seen := if Scans(c, r, finder) then Prune(c, r) else c;
    if Scans(c, r, finder) {
      assert finder.value(r, Next(c), seen.claimed).None?;
    }
  }

  lemma {:induction false} InStepCountsUp(c: Cell, m: nat, r: nat, finder: Option<Finder>, k: nat)
    requires InStep(c, r) && m <= r && Respects(finder)
    ensures AcquireMany(c, m, r, finder, k) == seq(k, i requires 0 <= i => Some(Next(c) + i))
    decreases k
  {
    if k == 0 {
    } else {
      AcquireInStep(c, m, r, finder);
      InStepCountsUp(Acquire(c, m, r, finder).cell, m, r, finder, k - 1);
    }
  }

  /** Whatever the tracker believed, after a resync it counts up from the chain's next nonce. */
  lemma ResyncHeals(c: Cell, m: nat, r: nat, finder: Option<Finder>, k: nat)
    requires m <= r && Respects(finder)
    ensures AcquireMany(Resync(c, m, r), m, r, finder, k) == seq(k, i requires 0 <= i => Some(r + i))
  {
    InStepCountsUp(Resync(c, m, r), m, r, finder, k);
  }

  // ---------------------------------------------------------------- release round trip

  /** Acquire k nonces from one remote view, then release them, the last one first. */
  function Churn(c: Cell, m: nat, r: nat, finder: Option<Finder>, k: nat): Cell
    decreases k
  {
    if k == 0 then c else
      var o := Acquire(c, m, r, finder);
      if o.nonce.None? then o.cell
      else Release(Churn(o.cell, m, r, finder, k - 1), o.nonce.value)
  }

  ghost predicate SameFree(a: Cell, b: Cell, r: nat, lookup: nat -> Lookup) {
    forall k :: r <= k ==> (Free(a, lookup, k) <==> Free(b, lookup, k))
  }

  ghost predicate SameAbove(a: Cell, b: Cell, r: nat) {
    Max(Next(a), r) == Max(Next(b), r) && forall k :: r <= k ==> (k in a.claimed <==> k in b.claimed)
  }

  ghost predicate NoGap(c: Cell, r: nat, lookup: nat -> Lookup) {
    forall k :: r <= k < Next(c) ==> !Gap(lookup, c.claimed, k)
  }

  /** Acquiring fills a gap, or takes the tip when there is none. */
  lemma AcquireGapOrTip(c: Cell, m: nat, r: nat, lookup: nat -> Lookup)
    requires Valid(c) && m <= r
    ensures var o := Acquire(c, m, r, Some(StoreFinder(lookup)));
            o.nonce.Some? && var n := o.nonce.value;
            if n < Next(c) then lookup(n) == Found(0)
            else
              && n == Max(Next(c), r) && n !in c.claimed && Next(o.cell) == n + 1
              && NoGap(c, r, lookup)
              && NoGap(o.cell, r, lookup)
              && forall j :: r <= j ==> (j in o.cell.claimed <==> j in c.claimed || j == n)
  {
    AcquireIsLeastFree(c, m, r, lookup);
    var o := Acquire(c, m, r, Some(StoreFinder(lookup)));
    var n := o.nonce.value;
    if n < Next(c) {
      assert Gap(lookup, c.claimed, n);
    } else {
      assert n == Max(Next(c), r);
      forall j | r <= j < Next(c) ensures !Gap(lookup, c.claimed, j) {
        assert !Free(c, lookup, j);
      }
      forall j | r <= j < Next(o.cell) ensures !Gap(lookup, o.cell.claimed, j) {
        assert j == n || !Gap(lookup, c.claimed, j);
      }
    }
  }

  /** Giving the tip back undoes taking it, above the remote view. */
  lemma ReleaseTip(c: Cell, taken: Cell, inner: Cell, r: nat, n: nat)
    requires n == Max(Next(c), r) && n !in c.claimed && Next(taken) == n + 1 && SameAbove(inner, taken, r)
    requires forall j :: r <= j ==> (j in taken.claimed <==> j in c.claimed || j == n)
    ensures inner.last == Some(n) && SameAbove(Release(inner, n), c, r)
  {
  }

  lemma {:induction false} ChurnRestores(c: Cell, m: nat, r: nat, lookup: nat -> Lookup, k: nat)
    requires Valid(c) && m <= r
    ensures Valid(Churn(c, m, r, Some(StoreFinder(lookup)), k))
    ensures SameFree(Churn(c, m, r, Some(StoreFinder(lookup)), k), c, r, lookup)
    ensures NoGap(c, r, lookup) ==> SameAbove(Churn(c, m, r, Some(StoreFinder(lookup)), k), c, r)
    decreases k
  {
    hide Acquire, Release, Gap, Free, NoGap, SameAbove, Valid;
    if k == 0 {
      ChurnNothing(c, m, r, lookup);
    } else {
      var o := Acquire(c, m, r, Some(StoreFinder(lookup)));
      AcquireIsLeastFree(c, m, r, lookup);
      AcquireGapOrTip(c, m, r, lookup);
      StoreFinderRespects(lookup);
      ApplyKeepsValid(c, DoAcquire(m, r), Some(StoreFinder(lookup)));
      var n := o.nonce.value;
      var inner := Churn(o.cell, m, r, Some(StoreFinder(lookup)), k - 1);
      ChurnRestores(o.cell, m, r, lookup, k - 1);
      ApplyKeepsValid(inner, DoRelease(n), None);
      if n >= Next(c) {
        ReleaseTip(c, o.cell, inner, r, n);
      } else {
        GapMeansNoGapFails(c, m, r, lookup);
      }
      forall j: nat ensures Free(Release(inner, n), lookup, j) <==> Free(inner, lookup, j) || j == n {
        ReleaseFrees(inner, n, lookup, j);
      }
    }
  }

  lemma ChurnNothing(c: Cell, m: nat, r: nat, lookup: nat -> Lookup)
    ensures Churn(c, m, r, Some(StoreFinder(lookup)), 0) == c && SameAbove(c, c, r)
  {
  }

  lemma GapMeansNoGapFails(c: Cell, m: nat, r: nat, lookup: nat -> Lookup)
    requires Valid(c) && m <= r
    requires var o := Acquire(c, m, r, Some(StoreFinder(lookup))); o.nonce.Some? && o.nonce.value < Next(c)
    ensures !NoGap(c, r, lookup)
  {
    AcquireIsLeastFree(c, m, r, lookup);
  }

  /** Acquiring k nonces and giving them back in reverse order leaves no trace: the next caller,
      with the same view or a later one, gets the nonce it would have got before. */
  lemma ReleaseRoundTrip(c: Cell, m: nat, r: nat, lookup: nat -> Lookup, k: nat, later: nat, pending: nat)
    requires Valid(c) && m <= r && later <= pending && r <= pending
    ensures Acquire(Churn(c, m, r, Some(StoreFinder(lookup)), k), later, pending, Some(StoreFinder(lookup))).nonce
         == Acquire(c, later, pending, Some(StoreFinder(lookup))).nonce
  {
    hide Acquire, Churn, Free;
    var d := Churn(c, m, r, Some(StoreFinder(lookup)), k);
    ChurnRestores(c, m, r, lookup, k);
    SameFreeSameNonce(c, d, later, pending, r, lookup);
  }

  lemma SameFreeSameNonce(c: Cell, d: Cell, m: nat, r: nat, floor: nat, lookup: nat -> Lookup)
    requires Valid(c) && Valid(d) && m <= r && floor <= r && SameFree(d, c, floor, lookup)
    ensures Acquire(d, m, r, Some(StoreFinder(lookup))).nonce == Acquire(c, m, r, Some(StoreFinder(lookup))).nonce
  {
    hide Acquire, Free;
    AcquireIsLeastFree(c, m, r, lookup);
    AcquireIsLeastFree(d, m, r, lookup);
    var a := Acquire(c, m, r, Some(StoreFinder(lookup))).nonce.value;
    var b := Acquire(d, m, r, Some(StoreFinder(lookup))).nonce.value;
    assert !(a < b) && !(b < a);
  }

  /** Without a gap finder the round trip only moves the tip, up to the view it was taken with. */
  lemma {:induction false} ChurnMovesTip(c: Cell, m: nat, r: nat, k: nat)
    requires m <= r
    ensures Max(Next(Churn(c, m, r, None, k)), r) == Max(Next(c), r)
    decreases k
  {
    if k == 0 {
    } else {
      var o, n := Acquire(c, m, r, None), Max(Next(c), r);
      assert o.nonce == Some(n) && Next(o.cell) == n + 1;
      ChurnMovesTip(o.cell, m, r, k - 1);
      assert Next(Churn(o.cell, m, r, None, k - 1)) == n + 1;
    }
  }

  lemma TipRoundTrip(c: Cell, m: nat, r: nat, k: nat, later: nat, pending: nat)
    requires m <= r <= pending && later <= pending
    ensures Acquire(Churn(c, m, r, None, k), later, pending, None).nonce == Acquire(c, later, pending, None).nonce
  {
    hide Churn;
    ChurnMovesTip(c, m, r, k);
    TakesTip(c, later, pending);
    TakesTip(Churn(c, m, r, None, k), later, pending);
  }

  lemma TakesTip(c: Cell, m: nat, r: nat)
    requires m <= r
    ensures Acquire(c, m, r, None).nonce == Some(Max(Next(c), r))
  {
  }

  lemma ReleaseTwice(c: Cell, n: nat)
    ensures Release(Release(c, n), n) == Release(c, n)
  {
  }
}
