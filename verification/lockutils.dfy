/**
 * Named, time-bounded locks kept in a key-value table (`LockerClient`).
 *
 * The table is a map from lock name to record. Time is an integer number of
 * seconds. A fresh guid is passed in by the caller. A `StoreFault` says whether
 * one call's read or its write raises. `get_lock` reads the record, then either
 * inserts it conditionally, refuses, or overwrites an expired record. Every
 * exception makes it answer "not acquired". `release_lock` deletes and never raises.
 */
module Locks {
  import opened Python

  /** Default lifetime of a lock and of its table entry: six hours, in seconds. */
  const LockTtl: int := 6 * 60 * 60

  /** One row of the lock table (its key, the lock name, is the map key). */
  datatype LockRecord = LockRecord(guid: string, requestedAt: int, expiresOn: int, ttl: int)

  type Store = map<string, LockRecord>

  /** Whether the read or the write of one call raises (an outage, a lost race, a missing table). */
  datatype StoreFault = Healthy | ReadFails | WriteFails

  /** A record is still held at `now` while its expiry lies strictly in the future. */
  predicate Held(r: LockRecord, now: int) {
    r.expiresOn > now
  }

  /** The record `get_lock` writes: requested now, table expiry six hours on, lock expiry as asked or the same six hours. */
  function NewRecord(now: int, expiresOn: Option<int>, guid: string): (r: LockRecord)
    ensures r.guid == guid && r.requestedAt == now && r.ttl == now + LockTtl
    ensures expiresOn.None? ==> r.expiresOn == r.ttl
    ensures expiresOn.Some? ==> r.expiresOn == expiresOn.value
  {
    var ttl := now + LockTtl;
    LockRecord(guid, now, if expiresOn.Some? then expiresOn.value else ttl, ttl)
  }

  // ---------------------------------------------------------------------
  // The two phases of get_lock: read, then put
  // ---------------------------------------------------------------------

  /** What the consistent read sees. */
  datatype ReadView = Unreadable | Absent | Found(record: LockRecord)

  function ReadLock(store: Store, name: string, fault: StoreFault): ReadView {
    if fault == ReadFails then Unreadable
    else if name in store then Found(store[name])
    else Absent
  }

  /** Condition attached to the put. */
  datatype PutCondition =
    | Always                  // no ConditionExpression
    | IfAbsent                // attribute_not_exists(guid)
    | IfGuid(guid: string)    // the record still carries the guid that was read

  /** What get_lock decides to do after reading. */
  datatype Plan = GiveUp | Put(record: LockRecord, condition: PutCondition)

  /** The result of one acquisition attempt and the table after it. */
  datatype Attempt = Attempt(acquired: bool, store: Store)

  /** The decision as the code makes it: an expired record is overwritten with no condition. */
  function PlanAsWritten(view: ReadView, now: int, record: LockRecord): Plan {
    match view
    case Unreadable => GiveUp
    case Absent => Put(record, IfAbsent)
    case Found(r) => if Held(r, now) then GiveUp else Put(record, Always)
  }

  /** The decision the takeover of an expired record needs: overwrite only the record that was read. */
  function PlanGuarded(view: ReadView, now: int, record: LockRecord): Plan {
    match view
    case Unreadable => GiveUp
    case Absent => Put(record, IfAbsent)
    case Found(r) => if Held(r, now) then GiveUp else Put(record, IfGuid(r.guid))
  }

  predicate ConditionHolds(store: Store, name: string, condition: PutCondition) {
    match condition
    case Always => true
    case IfAbsent => name !in store
    case IfGuid(g) => name in store && store[name].guid == g
  }

  /** The put, checked against the table as it is when the put arrives. */
  function ApplyPlan(store: Store, name: string, plan: Plan, fault: StoreFault): (r: Attempt)
    ensures r.acquired <==> plan.Put? && fault != WriteFails && ConditionHolds(store, name, plan.condition)
    ensures r.acquired ==> r.store == store[name := plan.record]
    ensures !r.acquired ==> r.store == store
  {
    match plan
    case GiveUp => Attempt(false, store)
    case Put(record, condition) =>
      if fault == WriteFails || !ConditionHolds(store, name, condition) then Attempt(false, store)
      else Attempt(true, store[name := record])
  }

  // ---------------------------------------------------------------------
  // get_lock and release_lock as one sequential step each
  // ---------------------------------------------------------------------

  /**
   * `get_lock(name, expiresOn)` when nothing else touches the table between its
   * read and its put. It succeeds exactly when no call raises and the record is
   * absent or expired. It then stores a fresh record. Otherwise the table is unchanged.
   */
  function Acquire(store: Store, name: string, expiresOn: Option<int>, now: int, guid: string, fault: StoreFault): (r: Attempt)
    ensures r.acquired <==> fault == Healthy && (name !in store || !Held(store[name], now))
    ensures r.acquired ==> r.store == store[name := NewRecord(now, expiresOn, guid)]
    ensures !r.acquired ==> r.store == store
  {
    var view := ReadLock(store, name, fault);
    ApplyPlan(store, name, PlanAsWritten(view, now, NewRecord(now, expiresOn, guid)), fault)
  }

  /** `release_lock(name)`: the record is gone unless the delete raised; nothing else changes. */
  function Release(store: Store, name: string, fault: StoreFault): (r: Store)
    ensures fault != WriteFails ==> name !in r
    ensures fault == WriteFails ==> r == store
    ensures forall n | n != name :: (n in r <==> n in store) && (n in r ==> r[n] == store[n])
  {
    if fault == WriteFails then store else store - {name}
  }

  /** Absent record: the put is the conditional insert, and on success the new record is stored. */
  lemma AbsentIsConditionalInsert(store: Store, name: string, expiresOn: Option<int>, now: int, guid: string)
    requires name !in store
    ensures PlanAsWritten(ReadLock(store, name, Healthy), now, NewRecord(now, expiresOn, guid)).condition == IfAbsent
    ensures Acquire(store, name, expiresOn, now, guid, Healthy) == Attempt(true, store[name := NewRecord(now, expiresOn, guid)])
  {
  }

  /** Sequential mutual exclusion: right after a success, a second request before the expiry is refused and writes nothing. */
  lemma SecondAcquireRefused(store: Store, name: string, expiresOn: Option<int>, now: int, guid: string,
                             later: int, guid2: string, expiresOn2: Option<int>, fault2: StoreFault)
    requires Acquire(store, name, expiresOn, now, guid, Healthy).acquired
    requires later < NewRecord(now, expiresOn, guid).expiresOn
    ensures var s1 := Acquire(store, name, expiresOn, now, guid, Healthy).store;
            Acquire(s1, name, expiresOn2, later, guid2, fault2) == Attempt(false, s1)
  {
  }

  /** Once released, the name can be acquired again (if the store does not fail). */
  lemma ReleaseThenAcquire(store: Store, name: string, expiresOn: Option<int>, now: int, guid: string)
    ensures Acquire(Release(store, name, Healthy), name, expiresOn, now, guid, Healthy).acquired
  {
  }

  /** Releasing twice is the same as releasing once, and releasing an absent name changes nothing. */
  lemma ReleaseIdempotent(store: Store, name: string, fault: StoreFault)
    ensures Release(Release(store, name, Healthy), name, fault) == Release(store, name, Healthy)
    ensures name !in store ==> Release(store, name, fault) == store
  {
  }

  /** Run sequentially, the code's plan and the guarded plan give the same outcome. */
  lemma SequentialPlansAgree(store: Store, name: string, now: int, record: LockRecord, fault: StoreFault)
    ensures var view := ReadLock(store, name, fault);
            ApplyPlan(store, name, PlanAsWritten(view, now, record), fault)
            == ApplyPlan(store, name, PlanGuarded(view, now, record), fault)
  {
  }

  // ---------------------------------------------------------------------
  // Two callers interleaved: both read, then both put
  // ---------------------------------------------------------------------

  /**
   * Callers A and B both read `name` from the same table. A's put then lands,
   * then B's put lands on the table A left. `guarded` chooses the plan. The
   * result is whether A and whether B believe they hold the lock.
   */
  function Race(guarded: bool, store: Store, name: string, now: int, recordA: LockRecord, recordB: LockRecord): (bool, bool) {
    var view := ReadLock(store, name, Healthy);
    var planA := if guarded then PlanGuarded(view, now, recordA) else PlanAsWritten(view, now, recordA);
    var planB := if guarded then PlanGuarded(view, now, recordB) else PlanAsWritten(view, now, recordB);
    var afterA := ApplyPlan(store, name, planA, Healthy);
    var afterB := ApplyPlan(afterA.store, name, planB, Healthy);
    (afterA.acquired, afterB.acquired)
  }

  /** As written: two late callers racing for the same expired lock both report success. */
  lemma ExpiredTakeoverRaceAsWritten()
    ensures var store := map["emrsteps:main:PE" := LockRecord("old", 0, 100, 21600)];
            Race(false, store, "emrsteps:main:PE", 200, NewRecord(200, None, "a"), NewRecord(200, None, "b")) == (true, true)
  {
  }

  /**
   * As written, two interleaved callers can both win only by taking over the
   * same record that was present and already expired when both read it.
   */
  lemma {:induction false} RaceBothWinAsWritten(store: Store, name: string, now: int, recordA: LockRecord, recordB: LockRecord)
    requires Race(false, store, name, now, recordA, recordB) == (true, true)
    ensures name in store && !Held(store[name], now)
  {
    if name !in store {
      AbsentRaceHasOneWinner(store, name, now, recordA, recordB);
    }
  }

  /** The code's plan already excludes a second winner when the record was absent. */
  lemma {:induction false} AbsentRaceHasOneWinner(store: Store, name: string, now: int, recordA: LockRecord, recordB: LockRecord)
    requires name !in store
    ensures !(Race(false, store, name, now, recordA, recordB).0 && Race(false, store, name, now, recordA, recordB).1)
  {
    assert ReadLock(store, name, Healthy) == Absent;
  }

  /**
   * With the guarded plan, at most one of two interleaved callers wins, whatever
   * the record's state. The only assumption is that A's fresh guid differs from
   * the guid both callers read.
   */
  lemma {:induction false} GuardedRaceHasOneWinner(store: Store, name: string, now: int, recordA: LockRecord, recordB: LockRecord)
    requires name in store ==> recordA.guid != store[name].guid
    ensures !(Race(true, store, name, now, recordA, recordB).0 && Race(true, store, name, now, recordA, recordB).1)
  {
    var view := ReadLock(store, name, Healthy);
    var afterA := ApplyPlan(store, name, PlanGuarded(view, now, recordA), Healthy);
    if afterA.acquired {
      assert afterA.store[name] == recordA;
    }
  }

  // ---------------------------------------------------------------------
  // The client object
  // ---------------------------------------------------------------------

  /** `LockerClient`: a handle on one lock table, whose rows it reads, writes and deletes. */
  class LockerClient {
    const tableName: string
    var store: Store

    constructor (tableName: string, store: Store)
      ensures this.tableName == tableName && this.store == store
    {
      this.tableName := tableName;
      this.store := store;
    }

    /** `get_lock`: read, then insert conditionally, refuse, or overwrite an expired record; any exception means false. */
    method GetLock(name: string, expiresOn: Option<int>, now: int, guid: string, fault: StoreFault) returns (acquired: bool)
      modifies this
      ensures Attempt(acquired, store) == Acquire(old(store), name, expiresOn, now, guid, fault)
    {
      var ttl := now + LockTtl;
      var expires := if expiresOn.Some? then expiresOn.value else ttl;
      var item := LockRecord(guid, now, expires, ttl);
      var condition := Always;
      // get_item with a consistent read
      if fault == ReadFails {
        return false;
      }
      if name !in store {
        condition := IfAbsent;
      } else if store[name].expiresOn > now {
        return false;
      }
      // put_item, honouring the condition if there is one
      if fault == WriteFails || (condition == IfAbsent && name in store) {
        return false;
      }
      store := store[name := item];
      return true;
    }

    /** `release_lock`: delete the record; a failing delete is swallowed. */
    method ReleaseLock(name: string, fault: StoreFault)
      modifies this
      ensures store == Release(old(store), name, fault)
    {
      if fault != WriteFails {
        store := store - {name};
      }
    }
  }
}
