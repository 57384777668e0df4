/** What interleaved requests with one key are answered. */
module IdempotentAnswers {
  import opened Options
  import opened Idempotency

  /** The requests together with what their executions came to: `results` holds the outcomes on the
      records that have one, `done` every outcome so far. A record without one is pending. */
  datatype Service = Service(sys: System, results: map<Key, Executed>, done: map<Begun, Executed>)

  /** A step of a request; the outcome is that of the execution it finishes, if it does. */
  datatype Turn = Turn(step: Step, outcome: Executed)

  function Serve(ttl: int, s: Service, turn: Turn): Service
    requires Enabled(ttl, s.sys, turn.step)
  {
    var after := Do(ttl, s.sys, turn.step);
    match turn.step.action
    case Look(_, _) => s.(sys := after)
    case TryCreate(t) =>
      s.(sys := after, results := if after.begun == s.sys.begun then s.results else s.results - {s.sys.missed[t]})
    case Finish(t) =>
      var b := s.sys.running[t];
      Service(after, if b.key in s.sys.store then s.results[b.key := turn.outcome] else s.results,
              s.done[b := turn.outcome])
    case Sweep => s.(sys := after, results := map key | key in s.results && key in after.store :: s.results[key])
  }

  /** What a request is answered from the record of its key; without one it is not answered yet. */
  function AnswerTo(ttl: int, s: Service, key: Key, now: Time): Option<Answer> {
    if !Found(ttl, s.sys.store, key, now) then None
    else if key !in s.results then Some(Answer(None, None, None, true))
    else
      var x := s.results[key];
      Some(Answer(x.tx, x.receipt, x.error, x.error.None? && x.receipt.None?))
  }

  /** The step is possible, and an execution that it finishes has not outlived its record. */
  predicate Punctual(ttl: int, s: Service, turn: Turn) {
    && Enabled(ttl, s.sys, turn.step)
    && (turn.step.action.Finish? && ttl > 0 ==> turn.step.at - s.sys.running[turn.step.action.t].at <= ttl)
  }

  predicate AllPunctual(ttl: int, s: Service, turns: seq<Turn>)
    decreases |turns|
  {
    turns == [] || (Punctual(ttl, s, turns[0]) && AllPunctual(ttl, Serve(ttl, s, turns[0]), turns[1..]))
  }

  function ServeAll(ttl: int, s: Service, turns: seq<Turn>): Service
    requires AllPunctual(ttl, s, turns)
    decreases |turns|
  {
    if turns == [] then s else ServeAll(ttl, Serve(ttl, s, turns[0]), turns[1..])
  }

  predicate Runs(s: System, b: Begun) {
    exists t <- s.running :: s.running[t] == b
  }

  /** An execution is either running, under one ticket, or done. */
  ghost predicate RunningOrDone(s: Service) {
    && (forall t <- s.sys.running, u <- s.sys.running :: s.sys.running[t] == s.sys.running[u] ==> t == u)
    && (forall t <- s.sys.running :: s.sys.running[t] in s.sys.begun)
    && (forall b <- s.done :: b in s.sys.begun)
    && (forall b <- s.sys.begun :: b in s.done <==> !Runs(s.sys, b))
  }

  /** The record of a key has the outcome of the execution that created it, once that is done. */
  predicate IsInformed(s: Service, key: Key)
    requires key in s.sys.store
  {
    var b := Begun(key, s.sys.store[key]);
    (key in s.results <==> b in s.done) && (key in s.results ==> s.results[key] == s.done[b])
  }

  ghost predicate RecordsInformed(s: Service) {
    && (forall key <- s.results :: key in s.sys.store)
    && (forall key <- s.sys.store :: IsInformed(s, key))
  }

  ghost predicate Informed(ttl: int, s: Service) {
    Remembers(ttl, s.sys) && RunningOrDone(s) && RecordsInformed(s)
  }

  lemma CreatedRunning(s: Service, after: Service, t: Ticket, b: Begun)
    requires RunningOrDone(s) && b !in s.sys.begun && t !in s.sys.running
    requires after.sys.running == s.sys.running[t := b] && after.sys.begun == s.sys.begun + [b] && after.done == s.done
    ensures RunningOrDone(after)
  {
    forall k <- after.sys.begun ensures k in after.done <==> !Runs(after.sys, k) {
      if k == b {
        assert after.sys.running[t] == b;
      } else {
        assert k in s.sys.begun;
        if u :| u in s.sys.running && s.sys.running[u] == k {
          assert after.sys.running[u] == k;
        }
      }
    }
  }

  lemma CreatedRecords(s: Service, after: Service, b: Begun)
    requires RecordsInformed(s) && b !in s.done
    requires after.sys.store == s.sys.store[b.key := b.at]
    requires after.results == s.results - {b.key} && after.done == s.done
    ensures RecordsInformed(after)
  {
    forall key <- after.sys.store ensures IsInformed(after, key) {
      if key != b.key {
        assert IsInformed(s, key);
      }
    }
  }

  lemma CreateInforms(ttl: int, s: Service, turn: Turn)
    requires ttl >= 0 && Informed(ttl, s) && Punctual(ttl, s, turn) && turn.step.action.TryCreate?
    ensures Informed(ttl, Serve(ttl, s, turn))
  {
    hide Remembers, RunningOrDone, RecordsInformed;
    var t, at, after := turn.step.action.t, turn.step.at, Serve(ttl, s, turn);
    var key := s.sys.missed[t];
    StepRemembers(ttl, s.sys, turn.step);
    if Taken(ttl, s.sys.store, key, at) {
      SameRunning(s, after);
    } else {
      FreeKeyIsOld(ttl, s.sys, key, at);
      assert Begun(key, at) !in s.sys.begun;
      DoneIsBegun(s, Begun(key, at));
      CreatedRunning(s, after, t, Begun(key, at));
      CreatedRecords(s, after, Begun(key, at));
    }
  }

  lemma DoneIsBegun(s: Service, b: Begun)
    requires RunningOrDone(s) && b !in s.sys.begun
    ensures b !in s.done
  {
  }

  lemma SameRunning(s: Service, after: Service)
    requires RunningOrDone(s) && RecordsInformed(s)
    requires after.sys.running == s.sys.running && after.sys.begun == s.sys.begun && after.done == s.done
    ensures RunningOrDone(after)
    ensures after.sys.store == s.sys.store && after.results == s.results ==> RecordsInformed(after)
  {
    assert forall b :: Runs(after.sys, b) <==> Runs(s.sys, b);
    assert forall key <- s.sys.store :: IsInformed(s, key);
  }

  lemma FinishedRunning(s: Service, after: Service, t: Ticket)
    requires RunningOrDone(s) && t in s.sys.running && after.done.Keys == s.done.Keys + {s.sys.running[t]}
    requires after.sys.running == s.sys.running - {t} && after.sys.begun == s.sys.begun
    ensures RunningOrDone(after)
  {
    forall b <- after.sys.begun ensures b in after.done <==> !Runs(after.sys, b) {
      if u :| u in s.sys.running && s.sys.running[u] == b {
        assert b != s.sys.running[t] ==> after.sys.running[u] == b;
      }
    }
  }

  lemma FinishedRecords(s: Service, after: Service, b: Begun)
    requires RecordsInformed(s) && b.key in s.sys.store && s.sys.store[b.key] == b.at
    requires after.sys.store == s.sys.store && b in after.done
    requires after.results == s.results[b.key := after.done[b]] && after.done == s.done[b := after.done[b]]
    ensures RecordsInformed(after)
  {
    forall key <- after.sys.store ensures IsInformed(after, key) {
      assert IsInformed(s, key);
    }
  }

  lemma FinishInforms(ttl: int, s: Service, turn: Turn)
    requires ttl >= 0 && Informed(ttl, s) && Punctual(ttl, s, turn) && turn.step.action.Finish?
    ensures Informed(ttl, Serve(ttl, s, turn))
  {
    hide Remembers, RunningOrDone, RecordsInformed, Overwrites;
    var t, after := turn.step.action.t, Serve(ttl, s, turn);
    var b := s.sys.running[t];
    RunningIsBegun(s, t);
    UnexpiredEntry(ttl, s.sys, b, turn.step.at);
    PunctualNeverOverwrites(ttl, s.sys, turn.step);
    StepRemembers(ttl, s.sys, turn.step);
    FinishedRunning(s, after, t);
    FinishedRecords(s, after, b);
  }

  lemma RunningIsBegun(s: Service, t: Ticket)
    requires RunningOrDone(s) && t in s.sys.running
    ensures s.sys.running[t] in s.sys.begun
  {
  }

  lemma SweepInforms(ttl: int, s: Service, turn: Turn)
    requires ttl >= 0 && Informed(ttl, s) && Punctual(ttl, s, turn) && turn.step.action.Sweep?
    ensures Informed(ttl, Serve(ttl, s, turn))
  {
    hide Remembers;
    var after := Serve(ttl, s, turn);
    StepRemembers(ttl, s.sys, turn.step);
    SameRunning(s, after);
    forall key <- after.sys.store ensures IsInformed(after, key) {
      assert IsInformed(s, key);
    }
  }

  lemma TurnInforms(ttl: int, s: Service, turn: Turn)
    requires ttl >= 0 && Informed(ttl, s) && Punctual(ttl, s, turn)
    ensures Informed(ttl, Serve(ttl, s, turn))
  {
    hide Remembers, RunningOrDone, RecordsInformed;
    match turn.step.action
    case Look(_, _) =>
      StepRemembers(ttl, s.sys, turn.step);
      SameRunning(s, Serve(ttl, s, turn));
    case TryCreate(_) => CreateInforms(ttl, s, turn);
    case Finish(_) => FinishInforms(ttl, s, turn);
    case Sweep => SweepInforms(ttl, s, turn);
  }

  lemma {:induction false} TurnsInform(ttl: int, s: Service, turns: seq<Turn>)
    requires ttl >= 0 && Informed(ttl, s) && AllPunctual(ttl, s, turns)
    ensures Informed(ttl, ServeAll(ttl, s, turns))
    decreases |turns|
  {
    hide Informed, Serve;
    if turns == [] {
    } else {
      TurnInforms(ttl, s, turns[0]);
      TurnsInform(ttl, Serve(ttl, s, turns[0]), turns[1..]);
    }
  }

  /** Over every interleaving: until the record of an execution expires, every request for its key is
      a duplicate while the execution is running, and is answered what it came to once it is done; no
      other execution of the key begins. */
  lemma RequestsSeeTheExecution(ttl: int, turns: seq<Turn>, b: Begun, now: Time)
    requires ttl >= 0 && AllPunctual(ttl, Service(NO_REQUESTS, map[], map[]), turns)
    ensures var s := ServeAll(ttl, Service(NO_REQUESTS, map[], map[]), turns);
            b in s.sys.begun && s.sys.now <= now && (ttl > 0 ==> now - b.at <= ttl) ==>
              && ((exists t <- s.sys.running :: s.sys.running[t] == b) <==> b !in s.done)
              && (b !in s.done ==> AnswerTo(ttl, s, b.key, now) == Some(Answer(None, None, None, true)))
              && (b in s.done ==>
                    var x := s.done[b];
                    AnswerTo(ttl, s, b.key, now)
                    == Some(Answer(x.tx, x.receipt, x.error, x.error.None? && x.receipt.None?)))
              && forall t <- s.sys.missed ::
                   s.sys.missed[t] == b.key && t !in s.sys.running ==>
                     Do(ttl, s.sys, Step(TryCreate(t), now)).begun == s.sys.begun
  {
    hide ServeAll, Serve;
    TurnsInform(ttl, Service(NO_REQUESTS, map[], map[]), turns);
    var s := ServeAll(ttl, Service(NO_REQUESTS, map[], map[]), turns);
    if b in s.sys.begun && s.sys.now <= now && (ttl > 0 ==> now - b.at <= ttl) {
      UnexpiredEntry(ttl, s.sys, b, now);
      assert IsInformed(s, b.key);
    }
  }
}
