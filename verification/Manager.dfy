// The calls of the cluster manager, each a sequence of critical sections that others may overtake.
module Manager {
  import opened PolicyModel
  import opened Fleet

  /** What the steps of others do to a state, those that are steps of `t` or cannot happen passed over. */
  function Overtake(s: State, t: nat, steps: seq<Action>): State
    decreases |steps|
  {
    if steps == [] then s
    else Overtake(if Caller(steps[0]) != Some(t) && Enabled(s, steps[0]) then Apply(s, steps[0]) else s, t, steps[1..])
  }

  /** What nobody but the call itself can change, or only in one direction. */
  predicate StaysPut(s: State, u: State, t: nat) {
    && t in s.calls && t in u.calls && u.calls[t] == s.calls[t]
    && s.units.Keys <= u.units.Keys && u.version >= s.version
    && (forall id | id in s.units && s.units[id].stopped :: u.units[id].stopped)
    && (s.calls[t].WakingAll? ==> u.collectors == s.collectors)
  }

  lemma {:induction false} OthersLeaveCall(s: State, a: Action, t: nat)
    requires Enabled(s, a) && Caller(a) != Some(t) && t in s.calls
    ensures StaysPut(s, Apply(s, a), t)
  {}

  lemma {:induction false} OvertakeStays(s: State, t: nat, steps: seq<Action>)
    requires t in s.calls
    ensures StaysPut(s, Overtake(s, t, steps), t)
    decreases |steps|
  {
    hide Enabled, Apply;
    if steps != [] {
      if Caller(steps[0]) != Some(t) && Enabled(s, steps[0]) {
        OthersLeaveCall(s, steps[0], t);
        OvertakeStays(Apply(s, steps[0]), t, steps[1..]);
      } else {
        OvertakeStays(s, t, steps[1..]);
      }
    }
  }

  lemma {:induction false} LeftToWake(s: State, t: nat, id: nat)
    requires Inv(s) && t in s.calls && s.calls[t].WakingAll? && id in s.calls[t].todo
    ensures id in s.units
  {}

  lemma {:induction false} CallTargets(s: State, t: nat)
    requires Inv(s) && t in s.calls
    ensures s.calls[t].EngageDuplicate? || s.calls[t].EngageWaking? || s.calls[t].DisengageStopping? ==>
              s.calls[t].id in s.units
  {}

  /**
   * How an Engage ends: an existing collector kept, a new one inserted, a new one stopped for another, or none built.
   */
  datatype Engaged = Kept(existing: nat) | Inserted(id: nat) | Duplicate(id: nat, existing: nat) | NotBuilt

  class ClusterManager {
    /**
     * What everyone else does at each point where a call can be overtaken; steps not possible there are passed over.
     */
    const schedule: nat -> seq<Action>

    var collectors: map<string, nat>
    var units: map<nat, Unit>
    var calls: map<nat, Call>
    var version: nat
    var tick: nat
    ghost var log: seq<Action>

    function Now(): State
      reads `collectors, `units, `calls, `version
    {
      State(version, units, collectors, calls)
    }

    /** The manager is where its interleaving of steps leads. */
    ghost predicate Follows()
      reads `collectors, `units, `calls, `version, `log
    {
      LeadsTo(log, Now())
    }

    constructor (schedule: nat -> seq<Action>)
      ensures Follows() && Now() == INITIAL
    {
      this.schedule := schedule;
      collectors, units, calls, version, tick, log := map[], map[], map[], 0, 0, [];
    }

    lemma {:induction false} Holds()
      requires Follows()
      ensures Inv(Now())
    {
      hide Inv, Legal, After;
      InitialInv();
      RunKeepsInv(INITIAL, log);
    }

    ghost method Record(before: State, a: Action)
      requires LeadsTo(log, before) && Enabled(before, a) && Apply(before, a) == Now()
      modifies `log
      ensures Follows() && log == old(log) + [a] && Took(log, |old(log)|, before, a)
    {
      hide Enabled, Apply, Took;
      OneMore(INITIAL, log, a);
      TookLast(log, |log|, before, a);
      log := log + [a];
    }

    // ---- Everyone else ----

    /** One step of someone else. */
    method OtherStep(a: Action)
      requires Follows() && Enabled(Now(), a)
      modifies `collectors, `units, `calls, `version, `log
      ensures Follows() && Now() == Apply(old(Now()), a) && log == old(log) + [a]
    {
      hide LeadsTo, Enabled, Apply, Took;
      ghost var before := Now();
      var next := Apply(Now(), a);
      version, units, collectors, calls := next.version, next.units, next.collectors, next.calls;
      Record(before, a);
    }

    /** The others run. The call `t` stays where it is, and while it reads the map nobody writes it. */
    method Others(t: nat)
      requires Follows() && t in calls
      modifies `collectors, `units, `calls, `version, `log, `tick
      ensures Follows() && Now() == Overtake(old(Now()), t, schedule(old(tick))) && old(log) <= log
      ensures StaysPut(old(Now()), Now(), t)
    {
      hide LeadsTo, Enabled, Apply, StaysPut;
      var steps := schedule(tick);
      OvertakeStays(Now(), t, steps);
      tick := tick + 1;
      assert steps[0..] == steps;
      for i := 0 to |steps|
        invariant Follows() && Overtake(Now(), t, steps[i..]) == Overtake(old(Now()), t, steps) && old(log) <= log
      {
        assert steps[i..][0] == steps[i] && steps[i..][1..] == steps[i + 1..];
        if Caller(steps[i]) != Some(t) && Enabled(Now(), steps[i]) {
          OtherStep(steps[i]);
        }
      }
    }

    /** The registry changes, by the caller `t`, who has yet to wake the collectors. */
    method ChangeRegistry(t: nat)
      requires Follows() && t !in calls
      modifies `calls, `version, `log
      ensures Follows() && Now() == Apply(old(Now()), Fleet.ChangeRegistry(t))
      ensures log == old(log) + [Fleet.ChangeRegistry(t)] && Took(log, |old(log)|, old(Now()), Fleet.ChangeRegistry(t))
    {
      hide LeadsTo, Took;
      ghost var before := Now();
      version := version + 1;
      calls := calls[t := Changed];
      Record(before, Fleet.ChangeRegistry(t));
    }

    // ---- Critical sections ----

    method EnterCall(t: nat, call: Call)
      requires Follows() && t !in calls && (call.EngageEntered? || call.DisengageEntered?)
      modifies `calls, `log
      ensures Follows() && calls == old(calls)[t := call] && log == old(log) + [Enter(t, call)]
    {
      hide LeadsTo, Took;
      ghost var before := Now();
      calls := calls[t := call];
      Record(before, Enter(t, call));
    }

    /** Engage, first section: is there a collector already? */
    method Check(t: nat, name: string) returns (existing: Option<nat>)
      requires Follows() && t in calls && calls[t] == EngageEntered(name) && NoReader(Now())
      modifies `calls, `log
      ensures Follows() && existing == if name in collectors then Some(collectors[name]) else None
      ensures calls == old(calls)[t := if existing.Some? then EngageWaking(existing.value) else EngageBuilding(name)]
      ensures old(log) <= log && Took(log, |old(log)|, old(Now()), EngageCheck(t))
    {
      hide LeadsTo, Took;
      ghost var before := Now();
      if name in collectors {
        existing := Some(collectors[name]);
        calls := calls[t := EngageWaking(collectors[name])];
      } else {
        existing := None;
        calls := calls[t := EngageBuilding(name)];
      }
      Record(before, EngageCheck(t));
    }

    method Fail(t: nat)
      requires Follows() && t in calls && calls[t].EngageBuilding?
      modifies `calls, `log
      ensures Follows() && calls == old(calls) - {t}
      ensures old(log) <= log && Took(log, |old(log)|, old(Now()), EngageFail(t))
    {
      hide LeadsTo, Took;
      ghost var before := Now();
      calls := calls - {t};
      Record(before, EngageFail(t));
    }

    /** An identity no collector has had. */
    method FreshId() returns (id: nat)
      ensures id !in units
    {
      id := 0;
      var todo := units.Keys;
      while todo != {}
        invariant todo <= units.Keys && forall k | k in units && k !in todo :: k < id
        decreases todo
      {
        var k :| k in todo;
        todo := todo - {k};
        if k >= id {
          id := k + 1;
        }
      }
    }

    /** Engage: a collector is built, and started with one wake. */
    method StartUnit(t: nat, name: string) returns (id: nat)
      requires Follows() && t in calls && calls[t] == EngageBuilding(name)
      modifies `units, `calls, `log
      ensures Follows() && id !in old(units) && units == old(units)[id := Unit(name, true, Idle, None, false)]
      ensures calls == old(calls)[t := EngageStarted(name, id)] && old(log) <= log
    {
      hide LeadsTo, Took;
      ghost var before := Now();
      id := FreshId();
      units := units[id := Unit(name, true, Idle, None, false)];
      calls := calls[t := EngageStarted(name, id)];
      Record(before, EngageStart(t, id));
    }

    /** Engage, second section: insert the collector, unless another call was first. */
    method InsertUnit(t: nat, name: string, id: nat) returns (existing: Option<nat>)
      requires Follows() && t in calls && calls[t] == EngageStarted(name, id) && NoReader(Now())
      modifies `collectors, `calls, `log
      ensures Follows() && existing == if name in old(collectors) then Some(old(collectors)[name]) else None
      ensures collectors == if existing.Some? then old(collectors) else old(collectors)[name := id]
      ensures calls == old(calls)[t := if existing.Some? then EngageDuplicate(id, existing.value) else EngageWaking(id)]
      ensures old(log) <= log && Took(log, |old(log)|, old(Now()), EngageInsert(t))
    {
      hide LeadsTo, Took;
      ghost var before := Now();
      if name in collectors {
        existing := Some(collectors[name]);
        calls := calls[t := EngageDuplicate(id, collectors[name])];
      } else {
        existing := None;
        collectors := collectors[name := id];
        calls := calls[t := EngageWaking(id)];
      }
      Record(before, EngageInsert(t));
    }

    /** Engage: the duplicate is stopped. */
    method StopDuplicate(t: nat, id: nat, existing: nat)
      requires Follows() && t in calls && calls[t] == EngageDuplicate(id, existing) && id in units
      modifies `units, `calls, `log
      ensures Follows() && units == old(units)[id := old(units)[id].(stopped := true)]
      ensures calls == old(calls)[t := EngageWaking(existing)] && old(log) <= log
    {
      hide LeadsTo, Took;
      ghost var before := Now();
      units := units[id := units[id].(stopped := true)];
      calls := calls[t := EngageWaking(existing)];
      Record(before, EngageStop(t));
    }

    /** Engage: the collector of the map is woken, and the call is over. */
    method WakeUnit(t: nat, id: nat)
      requires Follows() && t in calls && calls[t] == EngageWaking(id) && id in units
      modifies `units, `calls, `log
      ensures Follows() && units == old(units)[id := old(units)[id].(token := true)] && calls == old(calls) - {t}
      ensures old(log) <= log && Woke(log, |old(log)|, t, id)
    {
      hide LeadsTo, Took;
      ghost var before := Now();
      units := units[id := units[id].(token := true)];
      calls := calls - {t};
      Record(before, EngageWake(t));
    }

    /** Disengage, its section: the collector is taken out of the map. */
    method RemoveUnit(t: nat, name: string) returns (found: Option<nat>)
      requires Follows() && t in calls && calls[t] == DisengageEntered(name) && NoReader(Now())
      modifies `collectors, `calls, `log
      ensures Follows() && found == if name in old(collectors) then Some(old(collectors)[name]) else None
      ensures collectors == old(collectors) - {name}
      ensures calls == if found.Some? then old(calls)[t := DisengageStopping(found.value)] else old(calls) - {t}
      ensures old(log) <= log && Took(log, |old(log)|, old(Now()), DisengageRemove(t))
    {
      hide LeadsTo, Took;
      ghost var before := Now();
      if name in collectors {
        found := Some(collectors[name]);
        collectors := collectors - {name};
        calls := calls[t := DisengageStopping(found.value)];
      } else {
        found := None;
        assert collectors - {name} == collectors;
        calls := calls - {t};
      }
      Record(before, DisengageRemove(t));
    }

    /** Disengage: the collector is stopped, and the call is over. */
    method StopUnit(t: nat, id: nat)
      requires Follows() && t in calls && calls[t] == DisengageStopping(id) && id in units
      modifies `units, `calls, `log
      ensures Follows() && units == old(units)[id := old(units)[id].(stopped := true)] && calls == old(calls) - {t}
      ensures old(log) <= log
    {
      hide LeadsTo, Took;
      ghost var before := Now();
      units := units[id := units[id].(stopped := true)];
      calls := calls - {t};
      Record(before, DisengageStop(t));
    }

    /** WakeAll: the read lock is taken. */
    method TakeReadLock(t: nat) returns (todo: set<nat>)
      requires Follows() && t in calls && calls[t] == Changed
      modifies `calls, `log
      ensures Follows() && todo == collectors.Values && calls == old(calls)[t := WakingAll(todo)]
      ensures old(log) <= log && Took(log, |old(log)|, old(Now()), WakeLock(t))
    {
      hide LeadsTo, Took;
      ghost var before := Now();
      todo := collectors.Values;
      calls := calls[t := WakingAll(todo)];
      Record(before, WakeLock(t));
    }

    method WakeNext(t: nat, id: nat)
      requires Follows() && t in calls && calls[t].WakingAll? && id in calls[t].todo && id in units
      modifies `units, `calls, `log
      ensures Follows() && units == old(units)[id := old(units)[id].(token := true)]
      ensures calls == old(calls)[t := WakingAll(old(calls)[t].todo - {id})]
      ensures old(log) <= log && WokeOne(log, |old(log)|, t, id)
    {
      hide LeadsTo, Took;
      ghost var before := Now();
      units := units[id := units[id].(token := true)];
      calls := calls[t := WakingAll(calls[t].todo - {id})];
      Record(before, WakeOne(t, id));
    }

    method ReleaseReadLock(t: nat)
      requires Follows() && t in calls && calls[t] == WakingAll({})
      modifies `calls, `log
      ensures Follows() && calls == old(calls) - {t} && old(log) <= log
    {
      hide LeadsTo, Took;
      ghost var before := Now();
      calls := calls - {t};
      Record(before, WakeUnlock(t));
    }

    // ---- Waiting for the write lock ----

    /** One reader finishes: it wakes what it has left and releases the lock. */
    method FinishReader(r: nat, t: nat)
      requires Follows() && r in calls && calls[r].WakingAll? && t in calls && t != r
      modifies `units, `calls, `log
      ensures Follows() && calls == old(calls) - {r} && old(log) <= log && StaysPut(old(Now()), Now(), t)
    {
      hide LeadsTo, Inv, Took;
      ghost var others := calls - {r};
      var todo := calls[r].todo;
      while todo != {}
        invariant Follows() && r in calls && calls[r] == WakingAll(todo) && calls - {r} == others && old(log) <= log
        invariant t in calls && calls[t] == old(calls)[t] && old(units).Keys <= units.Keys
        invariant forall id | id in old(units) && old(units)[id].stopped :: units[id].stopped
        decreases todo
      {
        var id :| id in todo;
        Holds();
        LeftToWake(Now(), r, id);
        WakeNext(r, id);
        todo := todo - {id};
      }
      ReleaseReadLock(r);
      assert calls == others;
    }

    /** The write lock: the others run, and then whoever still reads the map finishes. */
    method Lock(t: nat)
      requires Follows() && t in calls && !calls[t].WakingAll?
      modifies `collectors, `units, `calls, `version, `log, `tick
      ensures Follows() && NoReader(Now()) && StaysPut(old(Now()), Now(), t) && old(log) <= log
    {
      hide LeadsTo;
      Others(t);
      var readers := set r | r in calls && calls[r].WakingAll?;
      while readers != {}
        invariant Follows() && t in calls && StaysPut(old(Now()), Now(), t) && old(log) <= log
        invariant readers == set r | r in calls && calls[r].WakingAll?
        decreases readers
      {
        var r :| r in readers;
        FinishReader(r, t);
        readers := readers - {r};
      }
      forall r | r in calls
        ensures !calls[r].WakingAll?
      {
        assert r !in readers;
      }
    }

    // ---- The calls ----

    /** The last step of Engage: wake the collector of the map. */
    method WakeLast(t: nat, id: nat, ghost from: nat)
      requires Follows() && t in calls && calls[t] == EngageWaking(id) && from <= |log|
      modifies `collectors, `units, `calls, `version, `log, `tick
      ensures Follows() && t !in calls && old(log) <= log && Woke(log, from, t, id)
      ensures forall k | k in old(units) && old(units)[k].stopped :: k in units && units[k].stopped
    {
      hide LeadsTo, Inv, NoReader, Took, Overtake, Woke;
      Others(t);
      Holds();
      CallTargets(Now(), t);
      ghost var reached := |log|;
      WakeUnit(t, id);
      WokeFrom(log, reached, from, t, id);
    }

    /** The second half of Engage: insert the started collector, or stop it because another call was first. */
    method Insert(t: nat, name: string, id: nat, ghost from: nat) returns (outcome: Engaged, ghost seen: State)
      requires Follows() && t in calls && calls[t] == EngageStarted(name, id) && from <= |log|
      modifies `collectors, `units, `calls, `version, `log, `tick
      ensures Follows() && t !in calls && old(log) <= log
      ensures Took(log, from, seen, EngageInsert(t)) && t in seen.calls && seen.calls[t] == EngageStarted(name, id)
      ensures if name in seen.collectors
              then outcome == Duplicate(id, seen.collectors[name]) && id in units && units[id].stopped &&
                   Woke(log, from, t, seen.collectors[name])
              else outcome == Inserted(id) && Woke(log, from, t, id)
    {
      hide LeadsTo, Inv, NoReader, Took, Overtake, Woke;
      Lock(t);
      seen := Now();
      ghost var reached := log;
      var existing := InsertUnit(t, name, id);
      TookFrom(log, |reached|, from, seen, EngageInsert(t));
      reached := log;
      if existing.Some? {
        Others(t);
        Holds();
        CallTargets(Now(), t);
        StopDuplicate(t, id, existing.value);
        WakeLast(t, existing.value, from);
        outcome := Duplicate(id, existing.value);
      } else {
        WakeLast(t, id, from);
        outcome := Inserted(id);
      }
      TookLater(reached, log, from, seen, EngageInsert(t));
    }

    /**
     * Engages a cluster. `builds` says whether the collector can be constructed. `seen` is the state in which the
     * decisive section found the map: the check when there was a collector, and otherwise the insertion.
     */
    method Engage(t: nat, name: string, builds: bool) returns (outcome: Engaged, ghost seen: State)
      requires Follows() && t !in calls
      modifies `collectors, `units, `calls, `version, `log, `tick
      ensures Follows() && t !in calls && old(log) <= log
      ensures outcome.Inserted? || outcome.Duplicate? ==> builds
      ensures match outcome
              case Kept(existing) =>
                && Took(log, |old(log)|, seen, EngageCheck(t))
                && name in seen.collectors && seen.collectors[name] == existing && Woke(log, |old(log)|, t, existing)
              case NotBuilt => !builds && Took(log, |old(log)|, seen, EngageFail(t))
              case Inserted(id) =>
                && Took(log, |old(log)|, seen, EngageInsert(t))
                && t in seen.calls && seen.calls[t] == EngageStarted(name, id)
                && name !in seen.collectors && Woke(log, |old(log)|, t, id)
              case Duplicate(id, existing) =>
                && Took(log, |old(log)|, seen, EngageInsert(t))
                && t in seen.calls && seen.calls[t] == EngageStarted(name, id)
                && name in seen.collectors && seen.collectors[name] == existing
                && id in units && units[id].stopped && Woke(log, |old(log)|, t, existing)
    {
      hide LeadsTo, Inv, NoReader, Took, Overtake, Woke;
      ghost var from := |log|;
      EnterCall(t, EngageEntered(name));
      Lock(t);
      seen := Now();
      ghost var reached := log;
      var found := Check(t, name);
      TookFrom(log, |reached|, from, seen, EngageCheck(t));
      if found.Some? {
        reached := log;
        WakeLast(t, found.value, from);
        TookLater(reached, log, from, seen, EngageCheck(t));
        return Kept(found.value), seen;
      }
      Others(t);
      if !builds {
        seen := Now();
        reached := log;
        Fail(t);
        TookFrom(log, |reached|, from, seen, EngageFail(t));
        return NotBuilt, seen;
      }
      var id := StartUnit(t, name);
      outcome, seen := Insert(t, name, id, from);
    }

    /** `seen` is the state in which the section found the map. */
    method Disengage(t: nat, name: string) returns (found: Option<nat>, ghost seen: State)
      requires Follows() && t !in calls
      modifies `collectors, `units, `calls, `version, `log, `tick
      ensures Follows() && t !in calls && old(log) <= log
      ensures Took(log, |old(log)|, seen, DisengageRemove(t)) && t in seen.calls &&
          seen.calls[t] == DisengageEntered(name)
      ensures found == if name in seen.collectors then Some(seen.collectors[name]) else None
      ensures found.Some? ==> found.value in units && units[found.value].stopped
    {
      hide LeadsTo, Inv, NoReader, Took, Overtake;
      ghost var from := |log|;
      EnterCall(t, DisengageEntered(name));
      Lock(t);
      seen := Now();
      ghost var reached := log;
      found := RemoveUnit(t, name);
      TookFrom(log, |reached|, from, seen, DisengageRemove(t));
      if found.None? {
        return;
      }
      reached := log;
      Others(t);
      Holds();
      CallTargets(Now(), t);
      StopUnit(t, found.value);
      TookLater(reached, log, from, seen, DisengageRemove(t));
    }

    /**
     * Wakes every collector of the map, holding the read lock, after a registry change of the same caller. `seen` is
     * the state in which the lock was taken.
     */
    method WakeAll(t: nat) returns (ghost seen: State)
      requires Follows() && t in calls && calls[t] == Changed
      modifies `collectors, `units, `calls, `version, `log, `tick
      ensures Follows() && t !in calls && old(log) <= log
      ensures Took(log, |old(log)|, seen, WakeLock(t)) && seen.version >= old(version)
      ensures forall name | name in seen.collectors :: WokeOne(log, |old(log)|, t, seen.collectors[name])
    {
      hide LeadsTo, Inv, NoReader, Took, Overtake, WokeOne;
      ghost var from := |log|;
      Others(t);
      seen := Now();
      ghost var reached := log;
      var todo := TakeReadLock(t);
      TookFrom(log, |reached|, from, seen, WakeLock(t));
      ghost var all := todo;
      while todo != {}
        invariant Follows() && t in calls && calls[t] == WakingAll(todo) && todo <= all
        invariant old(log) <= log && Took(log, from, seen, WakeLock(t))
        invariant forall id | id in all && id !in todo :: WokeOne(log, from, t, id)
        decreases todo
      {
        var id :| id in todo;
        reached := log;
        Others(t);
        Holds();
        LeftToWake(Now(), t, id);
        ghost var before := |log|;
        WakeNext(t, id);
        WokeOneFrom(log, before, from, t);
        WokeOneLater(reached, log, from, t);
        TookLater(reached, log, from, seen, WakeLock(t));
        todo := todo - {id};
      }
      reached := log;
      ReleaseReadLock(t);
      WokeOneLater(reached, log, from, t);
      TookLater(reached, log, from, seen, WakeLock(t));
      assert forall name | name in seen.collectors :: seen.collectors[name] in all;
    }
  }
}
