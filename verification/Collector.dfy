// The reconcile pass of one control plane's collector, overtaken by watch events between any two of its steps.
module Collector {
  import opened PolicyModel
  import opened StringOrder
  import opened Desired
  import opened BuildPushdown
  import opened Informers

  /** How an attempt to start an informer ends: synced, denied by the preflight or after a failed sync, or neither. */
  datatype Attempt = Syncs | DeniedEarly | DeniedLate | GivesUp

  // ---- What a pass does to one resource ----

  /** The two states have the same entry for the resource, publishing the same fields. */
  predicate SameAt(s: State, t: State, gvr: GVR) {
    && (gvr in t.entries <==> gvr in s.entries)
    && (gvr in s.entries ==> t.entries[gvr] == s.entries[gvr])
    && (LiveAt(s, gvr) ==> LiveAt(t, gvr) && FieldsAt(t, gvr) == FieldsAt(s, gvr))
  }

  predicate Serves(t: State, gvr: GVR, fields: seq<string>) {
    LiveAt(t, gvr) && FieldsAt(t, gvr) == fields
  }

  /** A narrower field set is published in place; nothing else changes yet. */
  predicate Planned(s: State, desired: Fields, t: State, gvr: GVR)
    requires gvr in desired
  {
    if LiveAt(s, gvr) && Sublist(desired[gvr], FieldsAt(s, gvr))
    then Serves(t, gvr, desired[gvr]) && t.entries[gvr] == s.entries[gvr]
    else SameAt(s, t, gvr)
  }

  predicate Rebuilds(s: State, desired: Fields, gvr: GVR)
    requires gvr in desired
  {
    LiveAt(s, gvr) && !Sublist(desired[gvr], FieldsAt(s, gvr))
  }

  predicate ServesFresh(s: State, t: State, gvr: GVR, fields: seq<string>) {
    Serves(t, gvr, fields) && t.entries[gvr].id >= s.nextId
  }

  /** What the whole pass leaves. */
  predicate Settled(s: State, desired: Fields, attempt: Attempt, t: State, gvr: GVR)
    requires gvr in desired
  {
    if gvr !in s.entries then
      match attempt
      case Syncs => ServesFresh(s, t, gvr, desired[gvr])
      case GivesUp => gvr !in t.entries
      case _ => gvr in t.entries && t.entries[gvr] == Denied
    else if Rebuilds(s, desired, gvr) && attempt == Syncs then ServesFresh(s, t, gvr, desired[gvr])
    else Planned(s, desired, t, gvr)
  }

  lemma {:induction false} SameKeeps(s: State, desired: Fields, attempt: Attempt, t: State, u: State, gvr: GVR)
    requires gvr in desired && SameAt(t, u, gvr)
    ensures SameAt(s, t, gvr) ==> SameAt(s, u, gvr)
    ensures Planned(s, desired, t, gvr) ==> Planned(s, desired, u, gvr)
    ensures Settled(s, desired, attempt, t, gvr) ==> Settled(s, desired, attempt, u, gvr)
  {}

  // ---- What the contract of a pass means ----

  /** Once a resource is served with what is desired, or denied, the same snapshot leaves it alone. */
  lemma {:induction false} SecondPassChangesNothing(
    s: State, desired: Fields, attempt: Attempt, t: State, again: Attempt, u: State, gvr: GVR)
    requires gvr in desired
    requires Settled(s, desired, attempt, t, gvr) && Settled(t, desired, again, u, gvr)
    requires Serves(t, gvr, desired[gvr]) || (gvr in t.entries && t.entries[gvr] == Denied)
    ensures SameAt(t, u, gvr)
  {}

  /**
   * After a pass a resource in the map is served with exactly what is desired, unless it is denied or its rebuild
   * failed.
   */
  lemma {:induction false} ServedUnlessFailed(s: State, desired: Fields, attempt: Attempt, t: State, gvr: GVR)
    requires Inv(s) && gvr in desired && Settled(s, desired, attempt, t, gvr)
    ensures Serves(t, gvr, desired[gvr])
       <==> (gvr in s.entries && LiveAt(s, gvr) && Sublist(desired[gvr], FieldsAt(s, gvr))) ||
            (attempt == Syncs && (gvr !in s.entries || s.entries[gvr].Live?)) ||
            (LiveAt(s, gvr) && FieldsAt(s, gvr) == desired[gvr])
  {}

  // ---- What a step leaves alone ----

  /** The resource whose entry or published fields the step may change. */
  function Subject(s: State, a: Action): Option<GVR> {
    match a
    case Publish(gvr) => Some(gvr)
    case Remove(gvr) => Some(gvr)
    case Deny(gvr) => Some(gvr)
    case Install =>
      if s.pending.Some? && s.pending.value in s.running then Some(s.running[s.pending.value].gvr) else None
    case _ => None
  }

  lemma {:induction false} StepElsewhere(s: State, a: Action, gvr: GVR)
    requires Inv(s) && Enabled(s, a) && Subject(s, a) != Some(gvr)
    ensures SameAt(s, Apply(s, a), gvr)
  {
    hide SortedFields, AllFaithful, StrictlySorted, Sublist, Trim.TrimObject;
  }

  lemma {:induction false} StepsElsewhere(s: State, a: Action)
    requires Inv(s) && Enabled(s, a)
    ensures forall gvr | Subject(s, a) != Some(gvr) :: SameAt(s, Apply(s, a), gvr)
  {
    hide *;
    forall gvr | Subject(s, a) != Some(gvr)
      ensures SameAt(s, Apply(s, a), gvr)
    {
      StepElsewhere(s, a, gvr);
    }
  }

  /** Only caches differ. */
  ghost predicate WatchOnly(s: State, t: State) {
    && t.(running := s.running) == s && t.running.Keys == s.running.Keys
    && forall id | id in s.running ::
        t.running[id].gvr == s.running[id].gvr && t.running[id].fields == s.running[id].fields
  }

  lemma {:induction false} WatchStep(s: State, a: Action)
    requires Enabled(s, a) && IsWatch(a)
    ensures WatchOnly(s, Apply(s, a))
  {}

  /**
   * Each event of the list happens, in order, if it is a watch event that can happen then, and is passed over if not.
   */
  ghost predicate Arrive(events: seq<Action>, states: seq<State>, logs: seq<seq<Action>>) {
    && |states| == |logs| == |events| + 1
    && forall i | 0 <= i < |events| ::
         if IsWatch(events[i]) && Enabled(states[i], events[i])
         then states[i + 1] == Apply(states[i], events[i]) && logs[i + 1] == logs[i] + [events[i]]
         else states[i + 1] == states[i] && logs[i + 1] == logs[i]
  }

  lemma {:induction false} ArriveNext(
    events: seq<Action>, i: nat, states: seq<State>, logs: seq<seq<Action>>, s: State, log: seq<Action>)
    requires i < |events| && Arrive(events[..i], states, logs)
    requires if IsWatch(events[i]) && Enabled(states[i], events[i])
             then s == Apply(states[i], events[i]) && log == logs[i] + [events[i]]
             else s == states[i] && log == logs[i]
    ensures Arrive(events[..i + 1], states + [s], logs + [log])
  {
    hide Enabled, Apply;
    var more, all, written := events[..i + 1], states + [s], logs + [log];
    forall j | 0 <= j < |more|
      ensures if IsWatch(more[j]) && Enabled(all[j], more[j])
              then all[j + 1] == Apply(all[j], more[j]) && written[j + 1] == written[j] + [more[j]]
              else all[j + 1] == all[j] && written[j + 1] == written[j]
    {
      if j < i {
        assert more[j] == events[..i][j] && all[j] == states[j] && written[j] == logs[j];
      }
    }
  }

  /** The watch events of a list, those that cannot happen passed over. */
  ghost function Absorb(s: State, events: seq<Action>): State
    decreases |events|
  {
    if events == [] then s
    else Absorb(if IsWatch(events[0]) && Enabled(s, events[0]) then Apply(s, events[0]) else s, events[1..])
  }

  lemma {:induction false} AbsorbWatchOnly(s: State, events: seq<Action>)
    ensures WatchOnly(s, Absorb(s, events))
    decreases |events|
  {
    hide Enabled, Apply;
    if events != [] {
      if IsWatch(events[0]) && Enabled(s, events[0]) {
        WatchStep(s, events[0]);
        AbsorbWatchOnly(Apply(s, events[0]), events[1..]);
      } else {
        AbsorbWatchOnly(s, events[1..]);
      }
    }
  }

  lemma {:induction false} WatchOnlySame(s: State, t: State)
    requires WatchOnly(s, t)
    ensures forall gvr :: SameAt(s, t, gvr)
  {}

  // ---- How the parts of a pass fit together ----

  lemma {:induction false} Quiet(s: State)
    requires Inv(s) && s.desired == None
    ensures s.pending == None && s.retiring == None
  {}

  lemma {:induction false} DesiredSorted(policies: seq<Option<CompiledPolicy>>, desired: Fields)
    requires IsDesired(policies, desired)
    ensures forall gvr | gvr in desired :: StrictlySorted(desired[gvr])
  {}

  lemma {:induction false} AbsentStays(s: State, desired: Fields, t: State, gvr: GVR)
    requires gvr in desired && gvr !in s.entries && Planned(s, desired, t, gvr)
    ensures gvr !in t.entries
  {}

  lemma {:induction false} SettledLater(s: State, desired: Fields, attempt: Attempt, t: State, u: State, gvr: GVR)
    requires gvr in desired && gvr !in s.entries && gvr !in t.entries && t.nextId >= s.nextId
    requires Settled(t, desired, attempt, u, gvr)
    ensures Settled(s, desired, attempt, u, gvr)
  {}

  lemma {:induction false} PlannedSettles(s: State, desired: Fields, attempt: Attempt, t: State, gvr: GVR)
    requires gvr in desired && gvr in s.entries && Planned(s, desired, t, gvr) && !Rebuilds(s, desired, gvr)
    ensures Settled(s, desired, attempt, t, gvr)
  {}

  lemma {:induction false} RebuildsPresent(s: State, desired: Fields, gvr: GVR)
    requires gvr in desired && Rebuilds(s, desired, gvr)
    ensures gvr in s.entries
  {}

  lemma {:induction false} StillRebuilds(s: State, desired: Fields, t: State, gvr: GVR)
    requires gvr in desired && Rebuilds(s, desired, gvr) && Planned(s, desired, t, gvr)
    ensures Rebuilds(t, desired, gvr)
  {}

  lemma {:induction false} RebuildSettles(s: State, desired: Fields, attempt: Attempt, t: State, u: State, gvr: GVR)
    requires gvr in desired && Rebuilds(s, desired, gvr) && Planned(s, desired, t, gvr) && t.nextId >= s.nextId
    requires if attempt == Syncs then ServesFresh(t, u, gvr, desired[gvr]) else SameAt(t, u, gvr)
    ensures Settled(s, desired, attempt, u, gvr)
  {}

  lemma {:induction false} SettledFrom(s: State, begun: State, desired: Fields, attempt: Attempt, t: State, gvr: GVR)
    requires gvr in desired && Settled(begun, desired, attempt, t, gvr)
    requires begun.entries == s.entries && begun.running == s.running && begun.nextId == s.nextId
    ensures Settled(s, desired, attempt, t, gvr)
  {}

  lemma {:induction false} AllLive(s: State)
    requires Inv(s)
    ensures forall gvr | gvr in s.entries && s.entries[gvr].Live? :: LiveAt(s, gvr)
  {}

  lemma {:induction false} SameReflexive(s: State)
    ensures forall gvr :: SameAt(s, s, gvr)
  {}

  lemma {:induction false} SameTransitive(s: State, t: State, u: State)
    requires forall gvr :: SameAt(s, t, gvr)
    requires forall gvr :: SameAt(t, u, gvr)
    ensures forall gvr :: SameAt(s, u, gvr)
  {
    forall gvr
      ensures SameAt(s, u, gvr)
    {
      assert SameAt(s, t, gvr) && SameAt(t, u, gvr);
    }
  }

  /** Two stretches that leave every other resource alone. */
  lemma {:induction false} SameButOne(s: State, t: State, u: State, gvr: GVR)
    requires forall g | g != gvr :: SameAt(s, t, g)
    requires forall g | g != gvr :: SameAt(t, u, g)
    ensures forall g | g != gvr :: SameAt(s, u, g)
  {
    forall g | g != gvr
      ensures SameAt(s, u, g)
    {
      assert SameAt(s, t, g) && SameAt(t, u, g);
    }
  }

  lemma {:induction false} SameMeans(s: State, t: State, gvr: GVR)
    requires SameAt(s, t, gvr)
    ensures gvr in t.entries <==> gvr in s.entries
    ensures gvr in s.entries ==> t.entries[gvr] == s.entries[gvr]
    ensures LiveAt(s, gvr) ==> LiveAt(t, gvr) && FieldsAt(t, gvr) == FieldsAt(s, gvr)
  {}

  lemma {:induction false} SublistIs(a: seq<string>, b: seq<string>)
    ensures Sublist(a, b) <==> forall x | x in a :: x in b
  {}

  lemma {:induction false} SortedAt(s: State, gvr: GVR)
    requires Inv(s) && gvr in s.entries && s.entries[gvr].Live?
    ensures LiveAt(s, gvr) && Sorted(FieldsAt(s, gvr))
  {
    StrictlySortedIsSorted(FieldsAt(s, gvr));
  }

  /** What the plan does with a resource that is still as it was, in each of its branches. */
  lemma {:induction false} PlanCases(s: State, desired: Fields, t: State, gvr: GVR)
    requires Inv(t) && gvr in desired && SameAt(s, t, gvr) && t.desired == Some(desired)
    requires gvr in s.entries && s.entries[gvr].Live? ==> LiveAt(s, gvr)
    ensures gvr !in t.entries ==> Planned(s, desired, t, gvr) && !Rebuilds(s, desired, gvr)
    ensures gvr in t.entries && t.entries[gvr] == Denied ==> Planned(s, desired, t, gvr) && !Rebuilds(s, desired, gvr)
    ensures gvr in t.entries && t.entries[gvr].Live? ==> LiveAt(t, gvr)
    ensures LiveAt(t, gvr) && Sublist(desired[gvr], FieldsAt(t, gvr)) ==>
              && !Rebuilds(s, desired, gvr) && Enabled(t, Publish(gvr))
              && Planned(s, desired, Apply(t, Publish(gvr)), gvr)
    ensures LiveAt(t, gvr) && !Sublist(desired[gvr], FieldsAt(t, gvr)) ==>
              Planned(s, desired, t, gvr) && Rebuilds(s, desired, gvr)
  {
    hide SortedFields, AllFaithful, Sublist, StrictlySorted;
  }

  // ---- The collector ----

  class Collector {
    /** The watch events that arrive at each point where they can; those that cannot happen are passed over. */
    const schedule: nat -> seq<Action>

    var informers: map<GVR, Entry>
    var running: map<nat, Informer>
    var nextId: nat
    var tick: nat

    ghost var pass: Option<Fields>
    ghost var pending: Option<nat>
    ghost var retiring: Option<nat>
    ghost var log: seq<Action>

    ghost function Now(): State
      reads `informers, `running, `nextId, `pass, `pending, `retiring
    {
      State(running, informers, nextId, pass, pending, retiring)
    }

    /** The collector is where its run of steps leads. */
    ghost predicate Follows()
      reads `informers, `running, `nextId, `pass, `pending, `retiring, `log
    {
      Legal(INITIAL, log) && After(INITIAL, log) == Now()
    }

    constructor (schedule: nat -> seq<Action>)
      ensures Follows() && Now() == INITIAL
    {
      this.schedule := schedule;
      informers, running, nextId, tick := map[], map[], 0, 0;
      pass, pending, retiring, log := None, None, None, [];
    }

    lemma {:induction false} Holds()
      requires Follows()
      ensures Inv(Now())
    {
      hide Inv, Legal, After;
      InitialInv();
      RunKeepsInv(INITIAL, log);
    }

    // ---- Steps ----

    method Watch(e: Action)
      requires Follows() && IsWatch(e) && Enabled(Now(), e)
      modifies `running, `log
      ensures Follows() && Now() == Apply(old(Now()), e) && log == old(log) + [e]
    {
      OneMore(INITIAL, log, e);
      hide Legal, After;
      match e {
        case Observe(id, key, source) =>
          running := running[id := running[id].(
            transit := running[id].transit + [Transit(key, source, running[id].fields)])];
        case Store(id) =>
          var t := running[id].transit[0];
          running := running[id := running[id].(
            cache := running[id].cache[t.key := Cached(t.source, t.used, Trim.TrimObject(t.source, t.used))],
            transit := running[id].transit[1..])];
        case Forget(id, key) =>
          running := running[id := running[id].(cache := running[id].cache - {key})];
      }
      log := log + [e];
    }

    /** The event happens if it can. */
    method Offer(e: Action)
      requires Follows()
      modifies `running, `log
      ensures Follows()
      ensures if IsWatch(e) && Enabled(old(Now()), e) then Now() == Apply(old(Now()), e) && log == old(log) + [e]
              else Now() == old(Now()) && log == old(log)
    {
      var possible := match e
        case Observe(id, _, _) => id in running
        case Store(id) => id in running && running[id].transit != []
        case Forget(id, _) => id in running
        case _ => false;
      assert possible == (IsWatch(e) && Enabled(Now(), e));
      hide Follows, Apply, Enabled;
      if possible {
        Watch(e);
      }
    }

    /** Before the first event. */
    static lemma {:induction false} NothingArrives(events: seq<Action>, s: State, log: seq<Action>)
      ensures Arrive(events[..0], [s], [log])
    {}

    method Interleave()
      requires Follows()
      modifies `running, `log, `tick
      ensures Follows() && Now() == Absorb(old(Now()), schedule(old(tick))) && WatchOnly(old(Now()), Now())
      ensures exists states, logs ::
                && Arrive(schedule(old(tick)), states, logs) && states[0] == old(Now()) && logs[0] == old(log)
                && states[|states| - 1] == Now() && logs[|logs| - 1] == log
    {
      hide Follows, Apply, Enabled, WatchOnly, Arrive;
      var events := schedule(tick);
      ghost var states, logs := [Now()], [log];
      NothingArrives(events, Now(), log);
      AbsorbWatchOnly(Now(), events);
      tick := tick + 1;
      assert events[0..] == events;
      for i := 0 to |events|
        invariant Follows() && Absorb(Now(), events[i..]) == Absorb(old(Now()), events)
        invariant |states| == |logs| == i + 1 && Arrive(events[..i], states, logs)
        invariant states[0] == old(Now()) && logs[0] == old(log) && states[i] == Now() && logs[i] == log
      {
        assert events[i..][0] == events[i] && events[i..][1..] == events[i + 1..];
        Offer(events[i]);
        ArriveNext(events, i, states, logs, Now(), log);
        states, logs := states + [Now()], logs + [log];
      }
      assert events[..|events|] == events;
    }

    ghost method Record(a: Action)
      requires Legal(INITIAL, log) && Enabled(After(INITIAL, log), a) && Apply(After(INITIAL, log), a) == Now()
      modifies `log
      ensures Follows()
    {
      OneMore(INITIAL, log, a);
      log := log + [a];
    }

    /** Publishes a narrower field set in place. */
    method PublishFields(gvr: GVR, fields: seq<string>)
      requires Follows() && Enabled(Now(), Publish(gvr)) && fields == pass.value[gvr]
      modifies `running, `log
      ensures Follows() && Now() == Apply(old(Now()), Publish(gvr))
    {
      hide Legal, After, StrictlySorted, Sublist;
      var id := informers[gvr].id;
      running := running[id := running[id].(fields := fields)];
      Record(Publish(gvr));
    }

    /** Stops the informer, if there is one, and drops the entry. */
    method RemoveEntry(gvr: GVR)
      requires Follows() && Enabled(Now(), Remove(gvr))
      modifies `running, `informers, `log
      ensures Follows() && Now() == Apply(old(Now()), Remove(gvr))
    {
      hide Legal, After, StrictlySorted, Sublist;
      if informers[gvr].Live? {
        running := running - {informers[gvr].id};
      }
      informers := informers - {gvr};
      Record(Remove(gvr));
    }

    /** Launches the goroutine of a fresh informer. */
    method Launch(gvr: GVR, fields: seq<string>) returns (id: nat)
      requires Follows() && Enabled(Now(), Start(gvr)) && fields == pass.value[gvr]
      modifies `running, `nextId, `pending, `log
      ensures Follows() && id == old(nextId) && Now() == Apply(old(Now()), Start(gvr))
    {
      hide Legal, After, StrictlySorted, Sublist;
      id := nextId;
      running := running[id := Informer(gvr, fields, map[], [])];
      nextId := nextId + 1;
      pending := Some(id);
      Record(Start(gvr));
    }

    /** Stops an informer that never got into the map. */
    method Cancel(id: nat)
      requires Follows() && pending == Some(id)
      modifies `running, `pending, `log
      ensures Follows() && Now() == Apply(old(Now()), Abandon)
    {
      hide Legal, After, StrictlySorted, Sublist;
      running := running - {id};
      pending := None;
      Record(Abandon);
    }

    /** Puts the synced informer in the map. The one it replaces, if any, still runs. */
    method InstallEntry(gvr: GVR, id: nat)
      requires Follows() && Enabled(Now(), Install) && pending == Some(id) && running[id].gvr == gvr
      modifies `informers, `pending, `retiring, `log
      ensures Follows() && Now() == Apply(old(Now()), Install)
    {
      hide Legal, After, StrictlySorted, Sublist;
      retiring := if gvr in informers && informers[gvr].Live? then Some(informers[gvr].id) else None;
      informers := informers[gvr := Live(id)];
      pending := None;
      Record(Install);
    }

    method DenyEntry(gvr: GVR)
      requires Follows() && Enabled(Now(), Deny(gvr))
      modifies `informers, `log
      ensures Follows() && Now() == Apply(old(Now()), Deny(gvr))
    {
      hide Legal, After, StrictlySorted, Sublist;
      informers := informers[gvr := Denied];
      Record(Deny(gvr));
    }

    method StopOld(id: nat)
      requires Follows() && retiring == Some(id)
      modifies `running, `retiring, `log
      ensures Follows() && Now() == Apply(old(Now()), StopRetired)
    {
      hide Legal, After, StrictlySorted, Sublist;
      running := running - {id};
      retiring := None;
      Record(StopRetired);
    }

    // ---- The pass ----

    /** Starts an informer and lets it take its first list. */
    method LaunchAndWait(gvr: GVR, fields: seq<string>) returns (id: nat)
      requires Follows() && Enabled(Now(), Start(gvr)) && fields == pass.value[gvr] && retiring == None
      modifies this
      ensures Follows() && informers == old(informers) && pass == old(pass) && retiring == None && nextId > old(nextId)
      ensures id == old(nextId) && pending == Some(id) && id in running
      ensures running[id].gvr == gvr && running[id].fields == fields
      ensures forall g :: SameAt(old(Now()), Now(), g)
    {
      Holds();
      hide Follows, Inv, Sublist, StrictlySorted, SameAt, Absorb;
      ghost var before := Now();
      StepsElsewhere(before, Start(gvr));
      id := Launch(gvr, fields);
      ghost var launched := Now();
      Interleave();
      WatchOnlySame(launched, Now());
      SameTransitive(before, launched, Now());
    }

    /** One attempt: preflight, start, wait for the first list, and undo what was started when it fails. */
    method StartInformer(gvr: GVR, fields: seq<string>, attempt: Attempt) returns (entry: Option<Entry>)
      requires Follows() && Enabled(Now(), Start(gvr)) && fields == pass.value[gvr] && retiring == None
      modifies this
      ensures Follows() && informers == old(informers) && pass == old(pass) && retiring == None && nextId >= old(nextId)
      ensures forall g :: SameAt(old(Now()), Now(), g)
      ensures match attempt
              case Syncs =>
                && entry.Some? && entry.value.Live? && pending == Some(entry.value.id)
                && entry.value.id in running && entry.value.id >= old(nextId)
                && running[entry.value.id].gvr == gvr && running[entry.value.id].fields == fields
              case GivesUp => entry == None && pending == None
              case _ => entry == Some(Denied) && pending == None
    {
      hide Follows, Inv, Sublist, StrictlySorted, SameAt, Absorb;
      ghost var before := Now();
      SameReflexive(before);
      if attempt == DeniedEarly {
        return Some(Denied);
      }
      var id := LaunchAndWait(gvr, fields);
      if attempt == Syncs {
        return Some(Live(id));
      }
      ghost var ready := Now();
      Holds();
      StepsElsewhere(ready, Abandon);
      Cancel(id);
      SameTransitive(before, ready, Now());
      entry := if attempt == DeniedLate then Some(Denied) else None;
    }

    /** First loop: publishes what only narrowed, and lists what to add and what to rebuild. */
    method Plan(desired: Fields) returns (toAdd: set<GVR>, toRebuild: set<GVR>)
      requires Follows() && pass == Some(desired) && pending == None && retiring == None
      modifies this
      ensures Follows() && Now() == old(Now()).(running := running)
      ensures forall gvr | gvr in desired :: Planned(old(Now()), desired, Now(), gvr)
      ensures forall gvr :: gvr in toAdd <==> gvr in desired && gvr !in old(Now()).entries
      ensures forall gvr :: gvr in toRebuild <==> gvr in desired && Rebuilds(old(Now()), desired, gvr)
    {
      ghost var start := Now();
      hide Follows, Inv, Planned, Rebuilds, Sublist, StrictlySorted, Absorb;
      Holds();
      AllLive(start);
      toAdd, toRebuild := {}, {};
      var todo := desired.Keys;
      while todo != {}
        invariant Follows() && Now() == start.(running := running) && todo <= desired.Keys
        invariant forall gvr | gvr in todo :: SameAt(start, Now(), gvr)
        invariant forall gvr | gvr in desired && gvr !in todo :: Planned(start, desired, Now(), gvr)
        invariant forall gvr :: gvr in toAdd <==> gvr in desired && gvr !in todo && gvr !in start.entries
        invariant forall gvr :: gvr in toRebuild <==> gvr in desired && gvr !in todo && Rebuilds(start, desired, gvr)
        decreases todo
      {
        var gvr :| gvr in todo;
        ghost var before := Now();
        Holds();
        PlanCases(start, desired, before, gvr);
        todo := todo - {gvr};
        if gvr !in informers {
          toAdd := toAdd + {gvr};
        } else if informers[gvr].Live? {
          SortedAt(before, gvr);
          var narrower := Subset(desired[gvr], running[informers[gvr].id].fields);
          SublistIs(desired[gvr], running[informers[gvr].id].fields);
          if narrower {
            StepsElsewhere(before, Publish(gvr));
            PublishFields(gvr, desired[gvr]);
          } else {
            toRebuild := toRebuild + {gvr};
          }
        }
        ghost var between := Now();
        assert forall g | g != gvr :: SameAt(before, between, g);
        Interleave();
        WatchOnlySame(between, Now());
        forall g | g in desired && g != gvr
          ensures g in todo ==> SameAt(start, Now(), g)
          ensures g !in todo ==> Planned(start, desired, Now(), g)
        {
          SameKeeps(start, desired, GivesUp, before, between, g);
          SameKeeps(start, desired, GivesUp, between, Now(), g);
        }
        SameKeeps(start, desired, GivesUp, between, Now(), gvr);
      }
    }

    /** Removals, under one lock: entries that nothing desires any more. */
    method RemoveStale(desired: Fields)
      requires Follows() && pass == Some(desired) && pending == None && retiring == None
      modifies this
      ensures Follows() && pass == Some(desired) && pending == None && retiring == None && nextId == old(nextId)
      ensures informers.Keys <= desired.Keys
      ensures forall gvr | gvr in desired :: SameAt(old(Now()), Now(), gvr)
    {
      ghost var start := Now();
      hide Follows, Inv, StrictlySorted, Sublist, Absorb;
      var toRemove := informers.Keys - desired.Keys;
      while toRemove != {}
        invariant Follows() && pass == Some(desired) && pending == None && retiring == None && nextId == old(nextId)
        invariant toRemove == informers.Keys - desired.Keys
        invariant forall gvr | gvr in desired :: SameAt(start, Now(), gvr)
        decreases toRemove
      {
        var gvr :| gvr in toRemove;
        ghost var before := Now();
        Holds();
        StepsElsewhere(before, Remove(gvr));
        RemoveEntry(gvr);
        ghost var removed := Now();
        Interleave();
        WatchOnlySame(removed, Now());
        forall g | g in desired
          ensures SameAt(start, Now(), g)
        {
          assert SameAt(before, removed, g) && SameAt(removed, Now(), g);
        }
        toRemove := toRemove - {gvr};
      }
      assert informers.Keys == (informers.Keys - desired.Keys) + informers.Keys * desired.Keys;
    }

    /** One addition. */
    method Add(desired: Fields, gvr: GVR, attempt: Attempt)
      requires Follows() && pass == Some(desired) && pending == None && retiring == None
      requires gvr in desired && gvr !in informers
      modifies this
      ensures Follows() && pass == Some(desired) && pending == None && retiring == None && nextId >= old(nextId)
      ensures informers.Keys <= old(informers).Keys + {gvr}
      ensures forall g | g != gvr :: SameAt(old(Now()), Now(), g)
      ensures Settled(old(Now()), desired, attempt, Now(), gvr)
    {
      ghost var start := Now();
      hide Follows, Inv, StrictlySorted, Sublist, SameAt, Rebuilds, Planned;
      var entry := StartInformer(gvr, desired[gvr], attempt);
      ghost var ready := Now();
      SameMeans(start, ready, gvr);
      if entry == None {
        return;
      }
      Holds();
      if entry.value.Live? {
        StepsElsewhere(ready, Install);
        InstallEntry(gvr, entry.value.id);
      } else {
        StepsElsewhere(ready, Deny(gvr));
        DenyEntry(gvr);
      }
      SameButOne(start, ready, Now(), gvr);
    }

    /** Puts the synced informer in the place of the old one, and then stops the old one. */
    method Swap(gvr: GVR, id: nat)
      requires Follows() && pass.Some? && pending == Some(id) && retiring == None
      requires id in running && running[id].gvr == gvr && gvr in informers && informers[gvr].Live?
      modifies this
      ensures Follows() && pass == old(pass) && pending == None && retiring == None && nextId == old(nextId)
      ensures informers == old(informers)[gvr := Live(id)]
      ensures forall g | g != gvr :: SameAt(old(Now()), Now(), g)
      ensures Serves(Now(), gvr, old(running)[id].fields)
    {
      ghost var ready := Now();
      hide Follows, Inv, StrictlySorted, Sublist, SameAt, Absorb;
      var oldId := informers[gvr].id;
      Holds();
      StepsElsewhere(ready, Install);
      InstallEntry(gvr, id);
      ghost var installed := Now();
      Interleave();
      ghost var overtaken := Now();
      WatchOnlySame(installed, overtaken);
      SameButOne(ready, installed, overtaken, gvr);
      Holds();
      StepsElsewhere(overtaken, StopRetired);
      StopOld(oldId);
      SameButOne(ready, overtaken, Now(), gvr);
      SameMeans(installed, overtaken, gvr);
      SameMeans(overtaken, Now(), gvr);
    }

    /** One rebuild: the old informer serves until the new one is in the map, and is stopped after that. */
    method Rebuild(desired: Fields, gvr: GVR, attempt: Attempt)
      requires Follows() && pass == Some(desired) && pending == None && retiring == None
      requires gvr in desired && Rebuilds(Now(), desired, gvr)
      modifies this
      ensures Follows() && pass == Some(desired) && pending == None && retiring == None && nextId >= old(nextId)
      ensures informers.Keys == old(informers).Keys
      ensures forall g | g != gvr :: SameAt(old(Now()), Now(), g)
      ensures if attempt == Syncs then ServesFresh(old(Now()), Now(), gvr, desired[gvr])
          else SameAt(old(Now()), Now(), gvr)
    {
      ghost var start := Now();
      hide Follows, Inv, StrictlySorted, Sublist, SameAt, Absorb;
      var entry := StartInformer(gvr, desired[gvr], attempt);
      if entry == None || !entry.value.Live? {
        return;
      }
      ghost var ready := Now();
      Swap(gvr, entry.value.id);
      SameButOne(start, ready, Now(), gvr);
    }

    method BeginPass(desired: Fields)
      requires Follows() && Enabled(Now(), Begin(desired))
      modifies `pass, `log
      ensures Follows() && Now() == Apply(old(Now()), Begin(desired))
    {
      hide Legal, After, StrictlySorted;
      pass := Some(desired);
      Record(Begin(desired));
    }

    method EndPass()
      requires Follows() && Enabled(Now(), Finish)
      modifies `pass, `log
      ensures Follows() && Now() == Apply(old(Now()), Finish)
    {
      hide Legal, After;
      pass := None;
      Record(Finish);
    }

    /** Second loop: additions. */
    method AddAll(desired: Fields, toAdd: set<GVR>, attempts: GVR -> Attempt, ghost start: State)
      requires Follows() && pass == Some(desired) && pending == None && retiring == None && nextId >= start.nextId
      requires informers.Keys <= desired.Keys
      requires forall gvr :: gvr in toAdd <==> gvr in desired && gvr !in start.entries
      requires forall gvr | gvr in desired :: Planned(start, desired, Now(), gvr)
      modifies this
      ensures Follows() && pass == Some(desired) && pending == None && retiring == None && nextId >= start.nextId
      ensures informers.Keys <= desired.Keys
      ensures forall gvr | gvr in desired && gvr !in toAdd :: Planned(start, desired, Now(), gvr)
      ensures forall gvr | gvr in toAdd :: Settled(start, desired, attempts(gvr), Now(), gvr)
    {
      hide Follows, Inv, StrictlySorted, Sublist, SameAt, Rebuilds, Settled, Planned;
      var todo := toAdd;
      while todo != {}
        invariant Follows() && pass == Some(desired) && pending == None && retiring == None && nextId >= start.nextId
        invariant informers.Keys <= desired.Keys && todo <= toAdd
        invariant forall gvr | gvr in desired && (gvr !in toAdd || gvr in todo) :: Planned(start, desired, Now(), gvr)
        invariant forall gvr | gvr in toAdd && gvr !in todo :: Settled(start, desired, attempts(gvr), Now(), gvr)
        decreases todo
      {
        var gvr :| gvr in todo;
        todo := todo - {gvr};
        ghost var before := Now();
        AbsentStays(start, desired, before, gvr);
        Add(desired, gvr, attempts(gvr));
        SettledLater(start, desired, attempts(gvr), before, Now(), gvr);
        forall g | g in desired && g != gvr
          ensures Planned(start, desired, before, g) ==> Planned(start, desired, Now(), g)
          ensures Settled(start, desired, attempts(g), before, g) ==> Settled(start, desired, attempts(g), Now(), g)
        {
          SameKeeps(start, desired, attempts(g), before, Now(), g);
        }
      }
    }

    /** Third loop: rebuilds. */
    method RebuildAll(desired: Fields, toRebuild: set<GVR>, attempts: GVR -> Attempt, ghost start: State)
      requires Follows() && pass == Some(desired) && pending == None && retiring == None && nextId >= start.nextId
      requires informers.Keys <= desired.Keys
      requires forall gvr :: gvr in toRebuild <==> gvr in desired && Rebuilds(start, desired, gvr)
      requires forall gvr | gvr in desired && gvr in start.entries :: Planned(start, desired, Now(), gvr)
      requires forall gvr | gvr in desired && gvr !in start.entries ::
          Settled(start, desired, attempts(gvr), Now(), gvr)
      modifies this
      ensures Follows() && pass == Some(desired) && pending == None && retiring == None
      ensures informers.Keys <= desired.Keys
      ensures forall gvr | gvr in desired :: Settled(start, desired, attempts(gvr), Now(), gvr)
    {
      hide Follows, Inv, StrictlySorted, Sublist, SameAt, Rebuilds, Settled, Planned, ServesFresh;
      var todo := toRebuild;
      forall gvr | gvr in todo
        ensures gvr in start.entries
      {
        RebuildsPresent(start, desired, gvr);
      }
      forall gvr | gvr in desired && gvr in start.entries && gvr !in todo
        ensures Settled(start, desired, attempts(gvr), Now(), gvr)
      {
        PlannedSettles(start, desired, attempts(gvr), Now(), gvr);
      }
      while todo != {}
        invariant Follows() && pass == Some(desired) && pending == None && retiring == None && nextId >= start.nextId
        invariant informers.Keys <= desired.Keys && todo <= toRebuild
        invariant forall gvr | gvr in todo :: Planned(start, desired, Now(), gvr)
        invariant forall gvr | gvr in desired && gvr !in todo :: Settled(start, desired, attempts(gvr), Now(), gvr)
        decreases todo
      {
        var gvr :| gvr in todo;
        todo := todo - {gvr};
        ghost var before := Now();
        StillRebuilds(start, desired, before, gvr);
        Rebuild(desired, gvr, attempts(gvr));
        RebuildSettles(start, desired, attempts(gvr), before, Now(), gvr);
        forall g | g in desired && g != gvr
          ensures Planned(start, desired, before, g) ==> Planned(start, desired, Now(), g)
          ensures Settled(start, desired, attempts(g), before, g) ==> Settled(start, desired, attempts(g), Now(), g)
        {
          SameKeeps(start, desired, attempts(g), before, Now(), g);
        }
      }
    }

    /** The plan, and everything it calls for. */
    method CarryOut(desired: Fields, attempts: GVR -> Attempt)
      requires Follows() && pass == Some(desired) && pending == None && retiring == None
      modifies this
      ensures Follows() && pass == Some(desired) && pending == None && retiring == None
      ensures informers.Keys <= desired.Keys
      ensures forall gvr | gvr in desired :: Settled(old(Now()), desired, attempts(gvr), Now(), gvr)
    {
      ghost var start := Now();
      hide Follows, Inv, StrictlySorted, Sublist, SameAt, Settled, Planned, Rebuilds;
      var toAdd, toRebuild := Plan(desired);
      ghost var planned := Now();
      RemoveStale(desired);
      forall gvr | gvr in desired
        ensures Planned(start, desired, Now(), gvr)
      {
        SameKeeps(start, desired, attempts(gvr), planned, Now(), gvr);
      }
      AddAll(desired, toAdd, attempts, start);
      RebuildAll(desired, toRebuild, attempts, start);
    }

    /** One pass, from the snapshot it reads to the map it leaves. */
    method Reconcile(policies: seq<Option<CompiledPolicy>>, attempts: GVR -> Attempt) returns (desired: Fields)
      requires Follows() && pass == None
      modifies this
      ensures Follows() && pass == None
      ensures IsDesired(policies, desired) && informers.Keys <= desired.Keys
      ensures forall gvr | gvr in desired :: Settled(old(Now()), desired, attempts(gvr), Now(), gvr)
    {
      ghost var start := Now();
      Holds();
      hide Follows, Inv, StrictlySorted, Sublist, SameAt, Settled, IsDesired;
      Quiet(start);
      desired := DesiredGVRs(policies);
      DesiredSorted(policies, desired);
      BeginPass(desired);
      ghost var begun := Now();
      CarryOut(desired, attempts);
      ghost var done := Now();
      Holds();
      StepsElsewhere(done, Finish);
      EndPass();
      forall gvr | gvr in desired
        ensures Settled(start, desired, attempts(gvr), Now(), gvr)
      {
        SettledFrom(start, begun, desired, attempts(gvr), done, gvr);
        SameKeeps(start, desired, attempts(gvr), done, Now(), gvr);
      }
    }
  }
}
