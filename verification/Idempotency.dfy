/** The in-memory idempotency store and the request path over it. Time is an input. */
module Idempotency {
  import opened Options
  import opened TxMonitor
  import opened RunHistory
  import opened RetrySpec

  type Key = string
  type Time = int
  type Ticket = nat

  // ---------------------------------------------------------------- the store, by creation times

  type Entries = map<Key, Time>

  /** What Get accepts as a record that still exists. */
  predicate Found(ttl: int, m: Entries, key: Key, now: Time) {
    key in m && !(ttl > 0 && now - m[key] > ttl)
  }

  /** What Create takes for a duplicate. */
  predicate Taken(ttl: int, m: Entries, key: Key, now: Time) {
    key in m && (ttl == 0 || now - m[key] <= ttl)
  }

  function Written(m: Entries, key: Key, created: Time): Entries {
    if key in m then m[key := created] else m
  }

  function Swept(ttl: int, m: Entries, now: Time): Entries {
    map key | key in m && now - m[key] <= ttl :: m[key]
  }

  // ---------------------------------------------------------------- interleaved requests

  datatype Begun = Begun(key: Key, at: Time)

  /** `missed` holds requests whose Get found nothing, `running` those that created a record and
      are executing, `begun` every execution so far, oldest first. */
  datatype System = System(
    store: Entries, now: Time, missed: map<Ticket, Key>, running: map<Ticket, Begun>, begun: seq<Begun>)

  datatype Action =
    | Look(t: Ticket, key: Key)
    | TryCreate(t: Ticket)
    | Finish(t: Ticket)
    | Sweep

  datatype Step = Step(action: Action, at: Time)

  predicate Enabled(ttl: int, s: System, step: Step) {
    && s.now <= step.at
    && match step.action
       case Look(t, key) => true
       case TryCreate(t) => t in s.missed && t !in s.running
       case Finish(t) => t in s.running
       case Sweep => ttl > 0
  }

  function Do(ttl: int, s: System, step: Step): System
    requires Enabled(ttl, s, step)
  {
    var later := s.(now := step.at);
    match step.action
    case Look(t, key) =>
      if Found(ttl, s.store, key, step.at) then later else later.(missed := s.missed[t := key])
    case TryCreate(t) =>
      var key := s.missed[t];
      var tried := later.(missed := s.missed - {t});
      if Taken(ttl, s.store, key, step.at) then tried
      else
        var b := Begun(key, step.at);
        tried.(store := s.store[key := step.at], running := s.running[t := b], begun := s.begun + [b])
    case Finish(t) =>
      later.(store := Written(s.store, s.running[t].key, s.running[t].at), running := s.running - {t})
    case Sweep => later.(store := Swept(ttl, s.store, step.at))
  }

  predicate Possible(ttl: int, s: System, steps: seq<Step>)
    decreases |steps|
  {
    steps == [] || (Enabled(ttl, s, steps[0]) && Possible(ttl, Do(ttl, s, steps[0]), steps[1..]))
  }

  function After(ttl: int, s: System, steps: seq<Step>): System
    requires Possible(ttl, s, steps)
    decreases |steps|
  {
    if steps == [] then s else After(ttl, Do(ttl, s, steps[0]), steps[1..])
  }

  /** Every execution writes its result back before its record expires. */
  predicate OnTime(ttl: int, s: System, steps: seq<Step>)
    requires Possible(ttl, s, steps)
    decreases |steps|
  {
    steps == [] || (
      && (steps[0].action.Finish? && ttl > 0 ==> steps[0].at - s.running[steps[0].action.t].at <= ttl)
      && OnTime(ttl, Do(ttl, s, steps[0]), steps[1..]))
  }

  /** Two executions of one key do not happen without expiry, and start more than ttl apart with it. */
  predicate Spaced(ttl: int, begun: seq<Begun>) {
    forall i, j :: 0 <= i < j < |begun| && begun[i].key == begun[j].key ==>
      ttl > 0 && begun[j].at - begun[i].at > ttl
  }

  predicate IsCovered(ttl: int, s: System, b: Begun) {
    || (b.key in s.store && b.at <= s.store[b.key])
    || (ttl > 0 && s.now - b.at > ttl)
  }

  /** The store knows the latest execution of every key, unless that one has expired. */
  ghost predicate Remembers(ttl: int, s: System) {
    && Spaced(ttl, s.begun)
    && (forall b <- s.begun :: b.at <= s.now && IsCovered(ttl, s, b))
    && (forall key <- s.store :: Begun(key, s.store[key]) in s.begun)
    && (forall t <- s.running :: s.running[t] in s.begun)
  }

  /** A key that can be taken again has no execution within the last ttl. */
  lemma FreeKeyIsOld(ttl: int, s: System, key: Key, now: Time)
    requires ttl >= 0 && Remembers(ttl, s) && s.now <= now && !Taken(ttl, s.store, key, now)
    ensures forall i :: 0 <= i < |s.begun| && s.begun[i].key == key ==> ttl > 0 && now - s.begun[i].at > ttl
  {
  }

  lemma OneMoreSpaced(ttl: int, begun: seq<Begun>, b: Begun)
    requires Spaced(ttl, begun)
    requires forall i :: 0 <= i < |begun| && begun[i].key == b.key ==> ttl > 0 && b.at - begun[i].at > ttl
    ensures Spaced(ttl, begun + [b])
  {
  }

  /** Time passing, and a newer entry for some key, leave an execution covered. */
  lemma StaysCovered(ttl: int, s: System, after: System, b: Begun, key: Key)
    requires IsCovered(ttl, s, b) && b.at <= s.now <= after.now
    requires after.store == s.store || after.store == s.store[key := after.now]
    ensures IsCovered(ttl, after, b)
  {
  }

  lemma CreateRemembers(ttl: int, s: System, step: Step)
    requires ttl >= 0 && Remembers(ttl, s) && Enabled(ttl, s, step) && step.action.TryCreate?
    ensures Remembers(ttl, Do(ttl, s, step))
  {
    hide Spaced, IsCovered;
    var key, after := s.missed[step.action.t], Do(ttl, s, step);
    forall b <- s.begun ensures IsCovered(ttl, after, b) {
      StaysCovered(ttl, s, after, b, key);
    }
    if !Taken(ttl, s.store, key, step.at) {
      FreeKeyIsOld(ttl, s, key, step.at);
      OneMoreSpaced(ttl, s.begun, Begun(key, step.at));
      NewIsCovered(ttl, after, key);
      CreatedEntries(s, after, key, step.at, step.action.t);
    }
  }

  lemma NewIsCovered(ttl: int, s: System, key: Key)
    requires key in s.store && s.store[key] == s.now
    ensures IsCovered(ttl, s, Begun(key, s.now))
  {
  }

  lemma CreatedEntries(s: System, after: System, key: Key, at: Time, t: Ticket)
    requires forall k <- s.store :: Begun(k, s.store[k]) in s.begun
    requires forall u <- s.running :: s.running[u] in s.begun
    requires after.begun == s.begun + [Begun(key, at)]
    requires after.store == s.store[key := at] && after.running == s.running[t := Begun(key, at)]
    ensures forall k <- after.store :: Begun(k, after.store[k]) in after.begun
    ensures forall u <- after.running :: after.running[u] in after.begun
  {
    assert after.begun[|s.begun|] == Begun(key, at);
    assert forall b <- s.begun :: b in after.begun;
  }

  /** The entry of an execution that has not expired is its own. */
  lemma UnexpiredEntry(ttl: int, s: System, b: Begun, now: Time)
    requires ttl >= 0 && Remembers(ttl, s) && b in s.begun && s.now <= now && (ttl > 0 ==> now - b.at <= ttl)
    ensures b.key in s.store && s.store[b.key] == b.at
  {
    var i :| 0 <= i < |s.begun| && s.begun[i] == b;
    assert b.key in s.store && b.at <= s.store[b.key];
    var latest := Begun(b.key, s.store[b.key]);
    assert latest in s.begun;
    var j :| 0 <= j < |s.begun| && s.begun[j] == latest;
    assert s.begun[j].at <= s.now;
  }

  /** The update of an execution whose record was replaced by one that is still alive. */
  predicate Overwrites(ttl: int, s: System, step: Step)
    requires Enabled(ttl, s, step) && step.action.Finish?
  {
    var b := s.running[step.action.t];
    b.key in s.store && s.store[b.key] != b.at && (ttl > 0 ==> step.at - s.store[b.key] <= ttl)
  }

  /** An update is harmless exactly when it does not overwrite a live record of a later execution. */
  lemma FinishRemembersIff(ttl: int, s: System, step: Step)
    requires ttl >= 0 && Remembers(ttl, s) && Enabled(ttl, s, step) && step.action.Finish?
    ensures Remembers(ttl, Do(ttl, s, step)) <==> !Overwrites(ttl, s, step)
  {
    hide Spaced;
    var b, after := s.running[step.action.t], Do(ttl, s, step);
    if b.key in s.store && s.store[b.key] != b.at {
      OlderThanEntry(ttl, s, b);
      var latest := Begun(b.key, s.store[b.key]);
      assert latest in after.begun && after.store[b.key] == b.at;
    } else {
      assert after.store == s.store && after.begun == s.begun;
    }
  }

  /** An execution whose entry was replaced started before the one that replaced it, or expired
      before now. */
  lemma OlderThanEntry(ttl: int, s: System, b: Begun)
    requires ttl >= 0 && Remembers(ttl, s) && b in s.begun && b.key in s.store && s.store[b.key] != b.at
    ensures ttl > 0 && (b.at < s.store[b.key] || s.now - b.at > ttl)
  {
    var i :| 0 <= i < |s.begun| && s.begun[i] == b;
    var latest := Begun(b.key, s.store[b.key]);
    assert latest in s.begun;
    var j :| 0 <= j < |s.begun| && s.begun[j] == latest;
    assert i != j;
  }

  /** A punctual update rewrites the entry it created. */
  lemma PunctualNeverOverwrites(ttl: int, s: System, step: Step)
    requires ttl >= 0 && Remembers(ttl, s) && Enabled(ttl, s, step) && step.action.Finish?
    requires ttl > 0 ==> step.at - s.running[step.action.t].at <= ttl
    ensures !Overwrites(ttl, s, step)
  {
    UnexpiredEntry(ttl, s, s.running[step.action.t], step.at);
  }

  lemma StepRemembers(ttl: int, s: System, step: Step)
    requires ttl >= 0 && Remembers(ttl, s) && Enabled(ttl, s, step)
    requires step.action.Finish? ==> !Overwrites(ttl, s, step)
    ensures Remembers(ttl, Do(ttl, s, step))
  {
    match step.action
    case Look(t, key) =>
    case TryCreate(t) => CreateRemembers(ttl, s, step);
    case Finish(t) => FinishRemembersIff(ttl, s, step);
    case Sweep =>
  }

  lemma {:induction false} RunRemembers(ttl: int, s: System, steps: seq<Step>)
    requires ttl >= 0 && Remembers(ttl, s) && Possible(ttl, s, steps) && OnTime(ttl, s, steps)
    ensures Remembers(ttl, After(ttl, s, steps))
    decreases |steps|
  {
    if steps == [] {
    } else {
      if steps[0].action.Finish? {
        PunctualNeverOverwrites(ttl, s, steps[0]);
      }
      StepRemembers(ttl, s, steps[0]);
      RunRemembers(ttl, Do(ttl, s, steps[0]), steps[1..]);
    }
  }

  /** And an update that overwrites does harm: one more request, at the right time, is executed too
      soon after the execution whose record was lost. */
  lemma OverwritingBreaksSpacing(ttl: int, s: System, step: Step, t: Ticket) returns (more: seq<Step>)
    requires ttl >= 0 && Remembers(ttl, s) && Enabled(ttl, s, step) && step.action.Finish?
    requires Overwrites(ttl, s, step) && t !in s.running
    ensures |more| == 2 && Possible(ttl, Do(ttl, s, step), more)
    ensures !Spaced(ttl, After(ttl, Do(ttl, s, step), more).begun)
  {
    hide Spaced, Possible, After;
    var b, after := s.running[step.action.t], Do(ttl, s, step);
    OlderThanEntry(ttl, s, b);
    var latest := Begun(b.key, s.store[b.key]);
    assert latest in s.begun;
    var i :| 0 <= i < |s.begun| && s.begun[i] == latest;
    var at := if step.at > b.at + ttl then step.at else b.at + ttl + 1;
    more := ExpiredKeyIsTaken(ttl, after, b.key, at, t);
    TooClose(ttl, After(ttl, after, more).begun, i, |s.begun|);
  }

  /** A request that comes when the record has expired is executed. */
  lemma ExpiredKeyIsTaken(ttl: int, s: System, key: Key, at: Time, t: Ticket) returns (more: seq<Step>)
    requires ttl > 0 && key in s.store && at - s.store[key] > ttl && s.now <= at && t !in s.running
    ensures |more| == 2 && Possible(ttl, s, more) && After(ttl, s, more).begun == s.begun + [Begun(key, at)]
  {
    hide Possible, After;
    more := [Step(Look(t, key), at), Step(TryCreate(t), at)];
    var looked := Do(ttl, s, more[0]);
    var created := Do(ttl, looked, more[1]);
    ChainIsRun(ttl, [s, looked, created], more);
  }

  const NO_REQUESTS := System(map[], 0, map[], map[], [])

  /** At most one execution per key when records never expire, whatever the interleaving. */
  lemma AtMostOnce(steps: seq<Step>, i: nat, j: nat)
    requires Possible(0, NO_REQUESTS, steps)
    requires var begun := After(0, NO_REQUESTS, steps).begun; i < |begun| && j < |begun| && begun[i].key == begun[j].key
    ensures i == j
  {
    AlwaysOnTime(NO_REQUESTS, steps);
    RunRemembers(0, NO_REQUESTS, steps);
    assert Spaced(0, After(0, NO_REQUESTS, steps).begun);
  }

  lemma {:induction false} AlwaysOnTime(s: System, steps: seq<Step>)
    requires Possible(0, s, steps)
    ensures OnTime(0, s, steps)
    decreases |steps|
  {
    if steps == [] {
    } else {
      AlwaysOnTime(Do(0, s, steps[0]), steps[1..]);
    }
  }

  /** With expiry, executions of one key start more than ttl apart if every update is on time. */
  lemma ExecutionsAreSpaced(ttl: int, steps: seq<Step>)
    requires ttl >= 0 && Possible(ttl, NO_REQUESTS, steps) && OnTime(ttl, NO_REQUESTS, steps)
    ensures Spaced(ttl, After(ttl, NO_REQUESTS, steps).begun)
  {
    RunRemembers(ttl, NO_REQUESTS, steps);
  }

  /** A late update puts the old creation time back, and a third execution follows the second
      after two time units of a ten-unit ttl. */
  lemma LateUpdateBreaksSpacing(key: Key) returns (steps: seq<Step>)
    ensures Possible(10, NO_REQUESTS, steps)
    ensures After(10, NO_REQUESTS, steps).begun == [Begun(key, 0), Begun(key, 11), Begun(key, 13)]
    ensures !Spaced(10, After(10, NO_REQUESTS, steps).begun)
  {
    hide Possible, After, Spaced;
    var states;
    states, steps := LateUpdateStates(key);
    ChainIsRun(10, states, steps);
    TooClose(10, states[7].begun, 1, 2);
  }

  predicate Goes(ttl: int, s: System, action: Action, at: Time, after: System) {
    Enabled(ttl, s, Step(action, at)) && after == Do(ttl, s, Step(action, at))
  }

  /** Request 0 executes, its record expires, and request 1 executes. */
  lemma ExpiryStates(key: Key) returns (s1: System, s2: System, s3: System, s4: System)
    ensures Goes(10, NO_REQUESTS, Look(0, key), 0, s1) && Goes(10, s1, TryCreate(0), 0, s2)
    ensures Goes(10, s2, Look(1, key), 11, s3) && Goes(10, s3, TryCreate(1), 11, s4)
    ensures s4.store == map[key := 11] && s4.running.Keys == {0, 1} && s4.running[0] == Begun(key, 0)
    ensures s4.begun == [Begun(key, 0), Begun(key, 11)] && s4.now == 11
  {
    s1 := Do(10, NO_REQUESTS, Step(Look(0, key), 0));
    s2 := Do(10, s1, Step(TryCreate(0), 0));
    s3 := Do(10, s2, Step(Look(1, key), 11));
    s4 := Do(10, s3, Step(TryCreate(1), 11));
  }

  /** Request 0 writes its result back, and request 2 takes the record for expired. */
  lemma OverwriteStates(key: Key, s4: System) returns (s5: System, s6: System, s7: System)
    requires s4.store == map[key := 11] && s4.running.Keys == {0, 1} && s4.running[0] == Begun(key, 0)
    requires s4.begun == [Begun(key, 0), Begun(key, 11)] && s4.now == 11
    ensures Goes(10, s4, Finish(0), 12, s5) && Goes(10, s5, Look(2, key), 13, s6) && Goes(10, s6, TryCreate(2), 13, s7)
    ensures s7.begun == [Begun(key, 0), Begun(key, 11), Begun(key, 13)]
  {
    s5 := Do(10, s4, Step(Finish(0), 12));
    assert s5.store[key] == 0;
    s6 := Do(10, s5, Step(Look(2, key), 13));
    s7 := Do(10, s6, Step(TryCreate(2), 13));
  }

  lemma LateUpdateStates(key: Key) returns (states: seq<System>, steps: seq<Step>)
    ensures |steps| == 7 && Chain(10, states, steps) && states[0] == NO_REQUESTS
    ensures states[7].begun == [Begun(key, 0), Begun(key, 11), Begun(key, 13)]
  {
    hide Do, Enabled;
    var s1, s2, s3, s4 := ExpiryStates(key);
    var s5, s6, s7 := OverwriteStates(key, s4);
    states := [NO_REQUESTS, s1, s2, s3, s4, s5, s6, s7];
    steps := [Step(Look(0, key), 0), Step(TryCreate(0), 0), Step(Look(1, key), 11), Step(TryCreate(1), 11),
              Step(Finish(0), 12), Step(Look(2, key), 13), Step(TryCreate(2), 13)];
  }

  lemma TooClose(ttl: int, begun: seq<Begun>, i: nat, j: nat)
    requires i < j < |begun| && begun[i].key == begun[j].key && begun[j].at - begun[i].at <= ttl
    ensures !Spaced(ttl, begun)
  {
  }

  ghost predicate Chain(ttl: int, states: seq<System>, steps: seq<Step>) {
    && |states| == |steps| + 1
    && forall i :: 0 <= i < |steps| ==>
         Enabled(ttl, states[i], steps[i]) && states[i + 1] == Do(ttl, states[i], steps[i])
  }

  lemma {:induction false} ChainIsRun(ttl: int, states: seq<System>, steps: seq<Step>)
    requires Chain(ttl, states, steps)
    ensures Possible(ttl, states[0], steps) && After(ttl, states[0], steps) == states[|steps|]
    decreases |steps|
  {
    if steps == [] {
    } else {
      ChainIsRun(ttl, states[1..], steps[1..]);
    }
  }

  // ---------------------------------------------------------------- the store object

  datatype Status = Pending | Submitted | Confirmed | Failed

  class Record {
    const key: Key
    const createdAt: Time
    var status: Status
    var tx: Option<Tx>
    var receipt: Option<Receipt>
    var error: Option<Error>
    var updatedAt: Time

    constructor (key: Key, now: Time)
      ensures this.key == key && createdAt == now && updatedAt == now && status == Pending
      ensures tx == None && receipt == None && error == None
    {
      this.key, createdAt, updatedAt, status := key, now, now, Pending;
      tx, receipt, error := None, None, None;
    }
  }

  class InMemoryStore {
    const ttl: int
    var records: map<Key, Record>

    ghost predicate Valid()
      reads this
    {
      forall key <- records :: records[key].key == key
    }

    ghost function View(): Entries
      reads this
    {
      map key | key in records :: records[key].createdAt
    }

    constructor (ttl: int)
      ensures Valid() && this.ttl == ttl && View() == map[]
    {
      this.ttl, records := ttl, map[];
    }

    method Get(key: Key, now: Time) returns (record: Record?)
      ensures record != null <==> Found(ttl, View(), key, now)
      ensures record != null <==> key in records && (ttl <= 0 || now - records[key].createdAt <= ttl)
      ensures record != null ==> record == records[key]
    {
      if key !in records {
        return null;
      }
      if ttl > 0 && now - records[key].createdAt > ttl {
        return null;
      }
      return records[key];
    }

    /** The second result is ErrDuplicateKey. */
    method Create(key: Key, now: Time) returns (record: Record, duplicate: bool)
      requires Valid()
      modifies this`records
      ensures Valid()
      ensures duplicate <==> Taken(ttl, old(View()), key, now)
      ensures duplicate <==> key in old(records) && (ttl == 0 || now - old(records)[key].createdAt <= ttl)
      ensures duplicate ==> records == old(records) && key in records && record == records[key]
      ensures !duplicate ==> fresh(record) && record.key == key && record.createdAt == now && record.status == Pending
                             && record.tx == None && record.receipt == None && record.error == None
                             && records == old(records)[key := record]
                             && View() == old(View())[key := now]
    {
      if key in records {
        if ttl == 0 || now - records[key].createdAt <= ttl {
          return records[key], true;
        }
      }
      record := new Record(key, now);
      records := records[key := record];
      duplicate := false;
    }

    /** False is ErrKeyNotFound. */
    method Update(record: Record, now: Time) returns (ok: bool)
      requires Valid()
      modifies this`records, record`updatedAt
      ensures Valid()
      ensures ok <==> record.key in old(records)
      ensures View() == Written(old(View()), record.key, record.createdAt)
      ensures ok ==> records == old(records)[record.key := record] && record.updatedAt == now
      ensures !ok ==> records == old(records) && record.updatedAt == old(record.updatedAt)
    {
      if record.key !in records {
        return false;
      }
      record.updatedAt := now;
      records := records[record.key := record];
      return true;
    }

    method Delete(key: Key)
      requires Valid()
      modifies this`records
      ensures Valid() && records == old(records) - {key}
    {
      records := records - {key};
    }

    method Cleanup(now: Time)
      requires Valid()
      modifies this`records
      ensures Valid()
      ensures View() == Swept(ttl, old(View()), now)
      ensures forall key <- records :: key in old(records) && records[key] == old(records)[key]
    {
      var todo := records.Keys;
      while todo != {}
        invariant todo <= records.Keys <= old(records.Keys)
        invariant forall key <- records :: records[key] == old(records)[key]
        invariant forall key <- old(records) ::
                    key in records <==> key in todo || now - old(records)[key].createdAt <= ttl
        decreases todo
      {
        var key :| key in todo;
        todo := todo - {key};
        if now - records[key].createdAt > ttl {
          records := records - {key};
        }
      }
      assert View() == Swept(ttl, old(View()), now);
    }
  }

  /** What one call of the internal execution came to. */
  datatype Executed = Executed(tx: Option<Tx>, receipt: Option<Receipt>, error: Option<Error>)

  datatype Answer = Answer(tx: Option<Tx>, receipt: Option<Receipt>, error: Option<Error>, duplicate: bool)

  /** What the execution came to is on the record. */
  ghost predicate Holds(r: Record, x: Executed)
    reads r
  {
    && r.tx == x.tx && r.receipt == x.receipt && r.error == x.error
    && (r.status == Failed <==> x.error.Some?)
    && (r.status == Confirmed <==> x.error.None? && x.receipt.Some?)
    && (r.status == Submitted <==> x.error.None? && x.receipt.None?)
  }

  method KeepOutcome(record: Record, executed: Executed)
    modifies record
    ensures Holds(record, executed)
  {
    record.tx := executed.tx;
    record.receipt := executed.receipt;
    record.error := executed.error;
    if executed.error.Some? {
      record.status := Failed;
    } else if executed.receipt.Some? {
      record.status := Confirmed;
    } else {
      record.status := Submitted;
    }
  }

  /** One request, alone on the store; `executed` is what the execution would come to, and `ran` says
      whether it was started. A record that is still there is answered from: its error only if it
      failed, and as a duplicate while it is pending or only submitted. */
  method ExecuteWithIdempotency(
    store: InMemoryStore, key: Key, executed: Executed, lookAt: Time, createAt: Time, updateAt: Time)
    returns (answer: Answer, ran: bool)
    requires store.Valid()
    modifies store`records
    ensures store.Valid()
    ensures ran <==>
            !Found(store.ttl, old(store.View()), key, lookAt) && !Taken(store.ttl, old(store.View()), key, createAt)
    ensures !ran ==> store.records == old(store.records) && key in store.records
    ensures !ran ==> answer.tx == store.records[key].tx && answer.receipt == store.records[key].receipt
    ensures Found(store.ttl, old(store.View()), key, lookAt) ==>
              var r := store.records[key];
              && (answer.duplicate <==> r.status == Pending || r.status == Submitted)
              && answer.error == (if r.status == Failed then r.error else None)
    ensures !Found(store.ttl, old(store.View()), key, lookAt) && !ran ==> answer.duplicate && answer.error == None
    ensures ran ==> answer == Answer(executed.tx, executed.receipt, executed.error, false)
    ensures ran ==> key in store.records && store.View() == old(store.View())[key := createAt]
    ensures ran ==> Holds(store.records[key], executed)
    ensures ran ==> store.records - {key} == old(store.records) - {key}
  {
    var existing := store.Get(key, lookAt);
    if existing != null {
      match existing.status {
        case Confirmed => return Answer(existing.tx, existing.receipt, None, false), false;
        case Failed => return Answer(existing.tx, existing.receipt, existing.error, false), false;
        case Pending => return Answer(existing.tx, existing.receipt, None, true), false;
        case Submitted => return Answer(existing.tx, existing.receipt, None, true), false;
      }
    }
    var record, duplicate := store.Create(key, createAt);
    if duplicate {
      return Answer(record.tx, record.receipt, None, true), false;
    }
    KeepOutcome(record, executed);
    var _ := store.Update(record, updateAt);
    return Answer(executed.tx, executed.receipt, executed.error, false), true;
  }
}
