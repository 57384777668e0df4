/** Many callers sharing one tracker cell. A caller reads the node first, without the lock, and
    enters the tracker later with whatever view it brought; every interleaving is a run here. */
module NonceCallers {
  import opened Options
  import opened NonceCells

  type Ticket = nat

  datatype View = View(mined: nat, pending: nat)

  /** `held` is ghost knowledge: who was given which nonce and has not given it back. `floor` is
      the highest pending view with which the gap finder has been allowed to run. */
  datatype System = System(cell: Cell, views: map<Ticket, View>, held: map<Ticket, nat>, floor: nat)

  datatype Step =
    | Fetch(t: Ticket, view: View)
    | Enter(t: Ticket, finder: Option<Finder>)
    | GiveBack(t: Ticket)
    | Register(n: nat)

  predicate Enabled(s: System, step: Step) {
    match step
    case Fetch(t, _) => true
    case Enter(t, _) => t in s.views && t !in s.held
    case GiveBack(t) => t in s.held
    case Register(n) => true
  }

  function Do(s: System, step: Step): System
    requires Enabled(s, step)
  {
    match step
    case Fetch(t, view) => s.(views := s.views[t := view])
    case Enter(t, finder) =>
      var view := s.views[t];
      var o := Acquire(s.cell, view.mined, view.pending, finder);
      s.(cell := o.cell,
         held := if o.nonce.Some? then s.held[t := o.nonce.value] else s.held,
         floor := if finder.Some? then Max(s.floor, view.pending) else s.floor)
    case GiveBack(t) => s.(cell := Release(s.cell, s.held[t]), held := s.held - {t})
    case Register(n) => s.(cell := SetPending(s.cell, n))
  }

  /** A run: every step is enabled, and every gap finder keeps its contract. */
  ghost predicate Possible(s: System, steps: seq<Step>)
    decreases |steps|
  {
    steps == [] || (
      && Enabled(s, steps[0])
      && (steps[0].Enter? ==> Respects(steps[0].finder))
      && Possible(Do(s, steps[0]), steps[1..]))
  }

  ghost function After(s: System, steps: seq<Step>): System
    requires Possible(s, steps)
    decreases |steps|
  {
    if steps == [] then s else After(Do(s, steps[0]), steps[1..])
  }

  /** The only thing asked of the nodes, and only when a gap finder runs: in the order in which
      callers enter, the pending nonce does not go back. */
  predicate InOrder(s: System, step: Step)
    requires Enabled(s, step)
  {
    step.Enter? && step.finder.Some? ==> s.floor <= s.views[step.t].pending
  }

  ghost predicate InOrderAll(s: System, steps: seq<Step>)
    requires Possible(s, steps)
    decreases |steps|
  {
    steps == [] || (InOrder(s, steps[0]) && InOrderAll(Do(s, steps[0]), steps[1..]))
  }

  predicate Unique(s: System) {
    forall a <- s.held, b <- s.held :: a != b ==> s.held[a] != s.held[b]
  }

  /** What makes uniqueness inductive: a held nonce is behind the tip, and either still claimed or
      below every view that may scan again. */
  ghost predicate Guarded(s: System) {
    && Valid(s.cell)
    && Unique(s)
    && forall t <- s.held :: s.held[t] < Next(s.cell) && (s.held[t] in s.cell.claimed || s.held[t] < s.floor)
  }

  /** An acquisition claims what it returns; apart from that, claims only go below the view. */
  lemma AcquireClaims(c: Cell, m: nat, r: nat, finder: Option<Finder>)
    requires Valid(c) && Respects(finder)
    ensures var o := Acquire(c, m, r, finder);
            && Valid(o.cell)
            && Next(c) <= Next(o.cell)
            && (forall n <- c.claimed :: n in o.cell.claimed || (finder.Some? && n < r))
            && (o.nonce.Some? ==>
                  && o.nonce.value in o.cell.claimed
                  && o.nonce.value < Next(o.cell)
                  && (o.nonce.value >= Next(c) || (finder.Some? && o.nonce.value >= r && o.nonce.value !in c.claimed)))
  {
    ApplyKeepsValid(c, DoAcquire(m, r), finder);
  }

  lemma EnterKeepsGuarded(s: System, t: Ticket, finder: Option<Finder>)
    requires Guarded(s) && Respects(finder) && Enabled(s, Enter(t, finder)) && InOrder(s, Enter(t, finder))
    ensures Guarded(Do(s, Enter(t, finder)))
  {
    hide Acquire, Valid, Next;
    var view := s.views[t];
    AcquireClaims(s.cell, view.mined, view.pending, finder);
  }

  lemma GiveBackKeepsGuarded(s: System, t: Ticket)
    requires Guarded(s) && t in s.held
    ensures Guarded(Do(s, GiveBack(t)))
  {
  }

  lemma StepKeepsGuarded(s: System, step: Step)
    requires Guarded(s) && (step.Enter? ==> Respects(step.finder)) && Enabled(s, step) && InOrder(s, step)
    ensures Guarded(Do(s, step))
  {
    match step
    case Enter(t, finder) => EnterKeepsGuarded(s, t, finder);
    case GiveBack(t) => GiveBackKeepsGuarded(s, t);
    case Fetch(_, _) =>
    case Register(n) =>
  }

  /** No two callers ever hold the same nonce. */
  lemma {:induction false} HeldNoncesAreUnique(s: System, steps: seq<Step>)
    requires Guarded(s) && Possible(s, steps) && InOrderAll(s, steps)
    ensures Unique(After(s, steps)) && Guarded(After(s, steps))
    decreases |steps|
  {
    if steps == [] {
    } else {
      StepKeepsGuarded(s, steps[0]);
      HeldNoncesAreUnique(Do(s, steps[0]), steps[1..]);
    }
  }

  // ---------------------------------------------------------------- where uniqueness ends

  /** A caller with an old view is given a held nonce exactly when that nonce has lost its claim,
      has no stored transaction yet, and is the first such nonce of the scanned range. */
  lemma OldViewTakesHeldIff(c: Cell, view: View, lookup: nat -> Lookup, h: nat)
    requires h < Next(c)
    ensures Acquire(c, view.mined, view.pending, Some(StoreFinder(lookup))).nonce == Some(h) <==>
            && view.pending <= h
            && Gap(lookup, c.claimed, h)
            && forall k :: view.pending <= k < h ==> !Gap(lookup, c.claimed, k)
  {
    var r := view.pending;
    if Scans(c, r, Some(StoreFinder(lookup))) {
      var seen := Prune(c, r);
      assert forall k: nat :: r <= k ==> (Gap(lookup, seen.claimed, k) <==> Gap(lookup, c.claimed, k));
      var gap := FirstGap(lookup, r, Next(c), seen.claimed);
      assert gap.Some? ==> Gap(lookup, c.claimed, gap.value);
    }
  }

  const NO_CALLERS := System(FRESH, map[], map[], 0)

  lemma PossibleStep(s: System, step: Step, rest: seq<Step>)
    requires Enabled(s, step) && (step.Enter? ==> Respects(step.finder)) && Possible(Do(s, step), rest)
    ensures Possible(s, [step] + rest) && After(s, [step] + rest) == After(Do(s, step), rest)
  {
    assert ([step] + rest)[1..] == rest;
  }

  function Unstored(): nat -> Lookup {
    n => Found(0)
  }

  lemma OldViewCells()
    ensures var finder := Some(StoreFinder(Unstored()));
            && Acquire(FRESH, 0, 0, finder) == Outcome(Cell(Some(0), {0}), Some(0))
            && Acquire(Cell(Some(0), {0}), 1, 1, finder) == Outcome(Cell(Some(1), {0, 1}), Some(1))
            && Acquire(Cell(Some(1), {0, 1}), 1, 1, finder) == Outcome(Cell(Some(2), {1, 2}), Some(2))
            && Acquire(Cell(Some(2), {1, 2}), 0, 0, finder).nonce == Some(0)
  {
    var finder := Some(StoreFinder(Unstored()));
    assert Acquire(Cell(Some(0), {0}), 1, 1, finder).cell.claimed == {0, 1};
    assert Prune(Cell(Some(1), {0, 1}), 1).claimed == {1};
    assert FirstGap(Unstored(), 1, 2, {1}) == None;
    OldViewTakesHeldIff(Cell(Some(2), {1, 2}), View(0, 0), Unstored(), 0);
  }

  /** Such a run exists: ticket 1 fetches early, enters last, and gets the nonce ticket 0 holds. */
  lemma OldViewBreaksUniqueness() returns (steps: seq<Step>)
    ensures Possible(NO_CALLERS, steps)
    ensures var held := After(NO_CALLERS, steps).held; 0 in held && 1 in held && held[0] == 0 == held[1]
    ensures !Unique(After(NO_CALLERS, steps))
  {
    hide Acquire, StoreFinder;
    OldViewCells();
    StoreFinderRespects(Unstored());
    var finder := Some(StoreFinder(Unstored()));
    var a0 := Do(NO_CALLERS, Fetch(0, View(0, 0)));
    var a1 := Do(a0, Fetch(1, View(0, 0)));
    var a2 := Do(a1, Enter(0, finder));
    var a3 := Do(a2, Fetch(2, View(1, 1)));
    var a4 := Do(a3, Enter(2, finder));
    var a5 := Do(a4, Fetch(3, View(1, 1)));
    var a6 := Do(a5, Enter(3, finder));
    PossibleStep(a6, Enter(1, finder), []);
    PossibleStep(a5, Enter(3, finder), [Enter(1, finder)]);
    steps := [Enter(3, finder)] + [Enter(1, finder)];
    PossibleStep(a4, Fetch(3, View(1, 1)), steps);
    steps := [Fetch(3, View(1, 1))] + steps;
    PossibleStep(a3, Enter(2, finder), steps);
    steps := [Enter(2, finder)] + steps;
    PossibleStep(a2, Fetch(2, View(1, 1)), steps);
    steps := [Fetch(2, View(1, 1))] + steps;
    PossibleStep(a1, Enter(0, finder), steps);
    steps := [Enter(0, finder)] + steps;
    PossibleStep(a0, Fetch(1, View(0, 0)), steps);
    steps := [Fetch(1, View(0, 0))] + steps;
    PossibleStep(NO_CALLERS, Fetch(0, View(0, 0)), steps);
    steps := [Fetch(0, View(0, 0))] + steps;
  }

  /** A resync keeps the callers safe exactly when every held nonce is below the chain's next. */
  lemma ResyncKeepsGuardedIff(s: System, m: nat, r: nat)
    requires Guarded(s)
    ensures Guarded(s.(cell := Resync(s.cell, m, r))) <==> forall t <- s.held :: s.held[t] < Max(m, r)
  {
    ApplyKeepsValid(s.cell, DoResync(m, r), None);
    assert Next(Resync(s.cell, m, r)) == Max(m, r);
  }

  /** Otherwise a held nonce is handed out again after a known number of acquisitions. */
  lemma ResyncReissues(s: System, t: Ticket, m: nat, r: nat, finder: Option<Finder>)
    requires t in s.held && s.held[t] >= Max(m, r) && Respects(finder)
    ensures var next := Max(m, r);
            var again := AcquireMany(Resync(s.cell, m, r), next, next, finder, s.held[t] - next + 1);
            again[|again| - 1] == Some(s.held[t])
  {
    var next := Max(m, r);
    assert Resync(s.cell, m, r) == Resync(s.cell, next, next);
    ResyncHeals(s.cell, next, next, finder, s.held[t] - next + 1);
  }

  /** Releasing twice is not harmless when someone else took the nonce in between: the second
      release takes the claim of the new holder away, and a third caller gets the same nonce. */
  lemma SecondReleaseBreaksUniqueness(c: Cell, r: nat, lookup: nat -> Lookup)
    requires Valid(c) && Next(c) == r
    ensures var finder := Some(StoreFinder(lookup));
            var first := Acquire(c, r, r, finder);
            var second := Acquire(Release(first.cell, r), r, r, finder);
            var third := Acquire(Release(second.cell, r), r, r, finder);
            first.nonce == second.nonce == third.nonce == Some(r)
  {
    var finder := Some(StoreFinder(lookup));
    var first := Acquire(c, r, r, finder);
    var second := Acquire(Release(first.cell, r), r, r, finder);
    assert first.nonce == Some(r) && first.cell.last == Some(r);
    assert Next(Release(first.cell, r)) == r;
    assert second.nonce == Some(r) && second.cell.last == Some(r);
  }
}
