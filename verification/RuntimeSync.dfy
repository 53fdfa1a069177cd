// Reconciling the live instruments and callbacks with the families a snapshot asks for.
module RuntimeSync {
  import opened PolicyModel
  import opened Families

  /** A callback registration, and the help text its instrument was created with. */
  datatype FamilyEntry = FamilyEntry(registration: nat, description: string)

  /** What the meter answers to the creation of one instrument. */
  datatype Creation = Created | GaugeFailed | RegisterFailed

  /** What a registered callback does: the up/down gauge's, or that of a family name. */
  datatype Callback = ObserveProjectUp | ObserveFamily(name: string)

  /** `live` holds the callbacks the meter still calls. */
  datatype State = State(
    families: map<string, FamilyEntry>, live: map<nat, Callback>, nextId: nat, projectUp: Option<nat>)

  predicate OwnedByFamily(s: State, r: nat) {
    exists name | name in s.families :: s.families[name].registration == r
  }

  predicate Owned(s: State, r: nat) {
    OwnedByFamily(s, r) || s.projectUp == Some(r)
  }

  /** Every entry has its own live callback, for its own name. */
  ghost predicate Consistent(s: State) {
    && (forall name | name in s.families ::
          s.families[name].registration in s.live && s.live[s.families[name].registration] == ObserveFamily(name))
    && (s.projectUp.Some? ==>
          s.projectUp.value in s.live && s.live[s.projectUp.value] == ObserveProjectUp &&
              !OwnedByFamily(s, s.projectUp.value))
    && (forall r | r in s.live :: r < s.nextId)
  }

  /** The instrument has to be made: the name is new, or its help text changed. */
  predicate NeedsCreation(s: State, desired: map<string, string>, name: string) {
    name in desired && (name in s.families ==> s.families[name].description != desired[name])
  }

  predicate Failing(s: State, desired: map<string, string>, create: string -> Creation, name: string) {
    NeedsCreation(s, desired, name) && create(name) != Created
  }

  /** What one synchronisation makes of a state. */
  ghost predicate Synced(
    s: State, desired: map<string, string>, create: string -> Creation, unregisterFails: nat -> bool, t: State)
  {
    && (forall name :: name in t.families <==> name in desired && !Failing(s, desired, create, name))
    && (forall name | name in t.families :: t.families[name].description == desired[name])
    && (forall name | name in t.families && !NeedsCreation(s, desired, name) :: t.families[name] == s.families[name])
    && (forall name | name in t.families && NeedsCreation(s, desired, name) ::
        t.families[name].registration >= s.nextId)
    && t.projectUp == s.projectUp
    && (forall r :: r in t.live <==> Owned(t, r) || (r in s.live && (Owned(s, r) ==> unregisterFails(r))))
    && (forall r | r in t.live && r in s.live :: t.live[r] == s.live[r])
  }

  // ---- What the contract means ----

  /** When every callback unregisters and none had leaked, the live ones are those of the entries and project_up. */
  lemma {:induction false} SyncedCallbacks(
    s: State, desired: map<string, string>, create: string -> Creation, unregisterFails: nat -> bool, t: State)
    requires Synced(s, desired, create, unregisterFails, t)
    requires (forall r | r in s.live :: Owned(s, r)) && (forall r | r in s.live :: !unregisterFails(r))
    ensures forall r :: r in t.live <==> Owned(t, r)
  {}

  lemma {:induction false} SameFamilies(
    s: State, desired: map<string, string>, create: string -> Creation, unregisterFails: nat -> bool, t: State,
    createAgain: string -> Creation, unregisterFailsAgain: nat -> bool, u: State)
    requires Synced(s, desired, create, unregisterFails, t) && forall name :: !Failing(s, desired, create, name)
    requires Synced(t, desired, createAgain, unregisterFailsAgain, u)
    ensures u.families == t.families
  {
    hide Owned;
    assert forall name :: !NeedsCreation(t, desired, name);
    assert u.families.Keys == t.families.Keys;
  }

  lemma {:induction false} SameCallbacks(
    t: State, desired: map<string, string>, create: string -> Creation, unregisterFails: nat -> bool, u: State)
    requires Consistent(t) && Synced(t, desired, create, unregisterFails, u) && u.families == t.families
    requires forall r | Owned(t, r) :: !unregisterFails(r)
    ensures u.live == t.live
  {
    assert forall r :: Owned(u, r) <==> Owned(t, r);
    assert forall r | Owned(t, r) :: r in t.live;
    assert u.live.Keys == t.live.Keys;
  }

  /** After a successful synchronisation the same snapshot has nothing left to do, whatever the meter would answer. */
  lemma {:induction false} SecondSyncChangesNothing(
    s: State, desired: map<string, string>, create: string -> Creation, unregisterFails: nat -> bool, t: State,
    createAgain: string -> Creation, unregisterFailsAgain: nat -> bool, u: State)
    requires Consistent(t)
    requires Synced(s, desired, create, unregisterFails, t) && forall name :: !Failing(s, desired, create, name)
    requires Synced(t, desired, createAgain, unregisterFailsAgain, u)
    requires forall r | Owned(t, r) :: !unregisterFailsAgain(r)
    ensures u.families == t.families && u.projectUp == t.projectUp && u.live == t.live
  {
    SameFamilies(s, desired, create, unregisterFails, t, createAgain, unregisterFailsAgain, u);
    SameCallbacks(t, desired, createAgain, unregisterFailsAgain, u);
  }

  // ---- Runs of synchronisations ----

  /** One synchronisation: the families asked for, and how the meter behaves. */
  datatype Round = Round(desired: map<string, string>, create: string -> Creation, unregisterFails: nat -> bool)

  /** A runtime as it is constructed. */
  const FRESH := State(map[], map[0 := ObserveProjectUp], 1, Some(0))

  ghost predicate SyncRun(states: seq<State>, rounds: seq<Round>) {
    && |states| == |rounds| + 1 && states[0] == FRESH
    && (forall k | 0 <= k < |rounds| ::
          Synced(states[k], rounds[k].desired, rounds[k].create, rounds[k].unregisterFails, states[k + 1]))
    && (forall k | 0 <= k < |states| :: Consistent(states[k]))
  }

  /** Round `j` made the instrument, and every round from there to `k` wanted it with the same help text. */
  predicate MadeAndKept(rounds: seq<Round>, k: nat, name: string, j: nat)
    requires k < |rounds|
  {
    && j <= k && rounds[j].create(name) == Created && name in rounds[k].desired
    && forall i | j <= i <= k :: name in rounds[i].desired && rounds[i].desired[name] == rounds[k].desired[name]
  }

  /**
   * After any round of any run, a family has an entry if and only if some round could make its instrument and all since
   * have wanted it unchanged; and the entry has the help text that is wanted now.
   */
  lemma {:induction false} FamiliesOverRuns(states: seq<State>, rounds: seq<Round>, k: nat, name: string)
    requires SyncRun(states, rounds) && k < |rounds|
    ensures name in states[k + 1].families <==> exists j: nat :: MadeAndKept(rounds, k, name, j)
    ensures name in states[k + 1].families ==>
              name in rounds[k].desired && states[k + 1].families[name].description == rounds[k].desired[name]
  {
    hide Owned, Consistent;
    var s, t := states[k], states[k + 1];
    var round := rounds[k];
    assert Synced(s, round.desired, round.create, round.unregisterFails, t);
    if k > 0 {
      FamiliesOverRuns(states, rounds, k - 1, name);
    }
    if name in t.families {
      if NeedsCreation(s, round.desired, name) {
        assert MadeAndKept(rounds, k, name, k);
      } else {
        var j: nat :| MadeAndKept(rounds, k - 1, name, j);
        assert MadeAndKept(rounds, k, name, j);
      }
    }
    if j: nat :| MadeAndKept(rounds, k, name, j) {
      if j < k {
        assert rounds[k - 1].desired[name] == round.desired[name];
        assert MadeAndKept(rounds, k - 1, name, j);
      }
    }
  }

  lemma {:induction false} UpIsOwned()
    ensures forall r | r in FRESH.live :: Owned(FRESH, r)
  {}

  /**
   * At any point of any run, a live callback without an owner was given up by a round in which it did not unregister.
   */
  lemma {:induction false} LeaksOverRuns(states: seq<State>, rounds: seq<Round>, k: nat, r: nat)
    requires SyncRun(states, rounds) && k <= |rounds| && r in states[k].live && !Owned(states[k], r)
    ensures exists j | 0 <= j < k :: Owned(states[j], r) && !Owned(states[j + 1], r) && rounds[j].unregisterFails(r)
  {
    hide Owned, Consistent, OwnedByFamily;
    if k == 0 {
      UpIsOwned();
      assert false;
    } else {
      var round := rounds[k - 1];
      assert Synced(states[k - 1], round.desired, round.create, round.unregisterFails, states[k]);
      if !Owned(states[k - 1], r) {
        LeaksOverRuns(states, rounds, k - 1, r);
      } else {
        assert Owned(states[k - 1], r) && !Owned(states[k - 1 + 1], r);
      }
    }
  }

  lemma {:induction false} LeakStays(
    s: State, desired: map<string, string>, create: string -> Creation, unregisterFails: nat -> bool, t: State, r: nat)
    requires Consistent(s) && Synced(s, desired, create, unregisterFails, t) && r in s.live && !Owned(s, r)
    ensures r in t.live && !Owned(t, r) && t.live[r] == s.live[r]
  {
    assert forall name | name in t.families :: t.families[name].registration == r ==> name in s.families;
  }

  /** Round `j` gave up the callback `r`, which did not unregister. */
  ghost predicate GivenUp(states: seq<State>, rounds: seq<Round>, j: nat, r: nat, callback: Callback)
    requires |states| == |rounds| + 1 && j < |rounds|
  {
    && r in states[j].live && states[j].live[r] == callback
    && Owned(states[j], r) && !Owned(states[j + 1], r) && rounds[j].unregisterFails(r)
  }

  /** Such a callback stays live for good. */
  lemma {:induction false} GivenUpStays(
    states: seq<State>, rounds: seq<Round>, j: nat, k: nat, r: nat, callback: Callback)
    requires SyncRun(states, rounds) && j < k <= |rounds| && GivenUp(states, rounds, j, r, callback)
    ensures r in states[k].live && !Owned(states[k], r) && states[k].live[r] == callback
  {
    var round := rounds[k - 1];
    assert Synced(states[k - 1], round.desired, round.create, round.unregisterFails, states[k]);
    hide Owned, Consistent;
    if j < k - 1 {
      GivenUpStays(states, rounds, j, k - 1, r, callback);
      LeakStays(states[k - 1], round.desired, round.create, round.unregisterFails, states[k], r);
    }
  }

  /** So while everything unregisters, the live callbacks are those of the entries and of the up/down gauge. */
  lemma {:induction false} CallbacksOverRuns(states: seq<State>, rounds: seq<Round>, k: nat)
    requires SyncRun(states, rounds) && k <= |rounds|
    requires forall j, r | 0 <= j < k && Owned(states[j], r) && !Owned(states[j + 1], r) ::
        !rounds[j].unregisterFails(r)
    ensures forall r :: r in states[k].live <==> Owned(states[k], r)
  {
    assert Consistent(states[k]);
    assert forall r | Owned(states[k], r) :: r in states[k].live;
    hide Owned, Consistent;
    forall r | r in states[k].live
      ensures Owned(states[k], r)
    {
      if !Owned(states[k], r) {
        LeaksOverRuns(states, rounds, k, r);
      }
    }
  }

  // ---- Steps ----

  ghost function AfterDrop(s: State, name: string, unregisterFails: nat -> bool): State
    requires name in s.families
  {
    var r := s.families[name].registration;
    s.(families := s.families - {name}, live := if unregisterFails(r) then s.live else s.live - {r})
  }

  ghost function AfterAdd(s: State, name: string, description: string): State {
    State(
      s.families[name := FamilyEntry(s.nextId, description)], s.live[s.nextId := ObserveFamily(name)], s.nextId + 1,
      s.projectUp)
  }

  lemma {:induction false} DropKeepsConsistent(s: State, name: string, unregisterFails: nat -> bool)
    requires Consistent(s) && name in s.families
    ensures Consistent(AfterDrop(s, name, unregisterFails))
  {}

  lemma {:induction false} AddKeepsConsistent(s: State, name: string, description: string)
    requires Consistent(s) && name !in s.families
    ensures Consistent(AfterAdd(s, name, description))
  {}

  /** First loop, with the names of `todo` still to look at: the families. */
  ghost predicate KeptFamilies(s: State, desired: map<string, string>, t: State, todo: set<string>) {
    && (forall name :: name in t.families <==> name in s.families && (name in desired || name in todo))
    && (forall name | name in t.families :: t.families[name] == s.families[name])
  }

  lemma {:induction false} KeepNext(
    s: State, desired: map<string, string>, unregisterFails: nat -> bool, t: State, todo: set<string>, name: string)
    requires KeptFamilies(s, desired, t, todo) && name in todo && name in t.families
    ensures name in s.families && t.families[name] == s.families[name]
    ensures AfterDrop(t, name, unregisterFails).families == t.families - {name}
    ensures AfterDrop(t, name, unregisterFails).nextId == t.nextId
    ensures KeptFamilies(s, desired, if name in desired then t else AfterDrop(t, name, unregisterFails), todo - {name})
  {}

  /** The callbacks of the families given up are gone, except those that would not unregister. */
  ghost predicate Released(s: State, unregisterFails: nat -> bool, t: State) {
    && t.nextId == s.nextId && t.projectUp == s.projectUp
    && (forall r :: r in t.live <==> r in s.live && (Owned(s, r) && !Owned(t, r) ==> unregisterFails(r)))
    && (forall r | r in t.live :: t.live[r] == s.live[r])
  }

  lemma {:induction false} OwnershipAfterDrop(s: State, name: string, unregisterFails: nat -> bool)
    requires Consistent(s) && name in s.families
    ensures var t := AfterDrop(s, name, unregisterFails);
            && (forall r :: Owned(s, r) <==> Owned(t, r) || r == s.families[name].registration)
            && (forall r :: OwnedByFamily(s, r) <==> OwnedByFamily(t, r) || r == s.families[name].registration)
            && !Owned(t, s.families[name].registration)
  {
    var t := AfterDrop(s, name, unregisterFails);
    forall r | OwnedByFamily(s, r)
      ensures OwnedByFamily(t, r) || r == s.families[name].registration
    {
      var n :| n in s.families && s.families[n].registration == r;
      assert n != name ==> n in t.families;
    }
  }

  lemma {:induction false} DropReleases(s: State, unregisterFails: nat -> bool, t: State, name: string)
    requires Consistent(t) && Released(s, unregisterFails, t)
    requires name in t.families && name in s.families && t.families[name] == s.families[name]
    ensures Released(s, unregisterFails, AfterDrop(t, name, unregisterFails))
  {
    OwnershipAfterDrop(t, name, unregisterFails);
    assert OwnedByFamily(s, s.families[name].registration);
    hide Owned, Consistent;
  }

  /** Second loop, with the names of `todo` still to do: the families. */
  ghost predicate PartialFamilies(
    s: State, desired: map<string, string>, create: string -> Creation, t: State, todo: set<string>)
  {
    && (forall name | name !in todo :: name in t.families <==> name in desired && !Failing(s, desired, create, name))
    && (forall name | name !in todo && name in t.families :: t.families[name].description == desired[name])
    && (forall name | name in todo :: name in t.families <==> name in s.families)
    && (forall name | name in todo && name in t.families :: t.families[name] == s.families[name])
    && (forall name | name in t.families && !NeedsCreation(s, desired, name) ::
          name in s.families && t.families[name] == s.families[name])
    && (forall name | name !in todo && name in t.families && NeedsCreation(s, desired, name) ::
          t.families[name].registration >= s.nextId)
  }

  /** Second loop: the callbacks. */
  ghost predicate PartialCallbacks(s: State, unregisterFails: nat -> bool, t: State) {
    && t.projectUp == s.projectUp && t.nextId >= s.nextId
    && (forall r: nat | Owned(t, r) :: Owned(s, r) || r >= s.nextId)
    && (forall r :: r in t.live <==> Owned(t, r) || (r in s.live && (Owned(s, r) ==> unregisterFails(r))))
    && (forall r | r in t.live && r in s.live :: t.live[r] == s.live[r])
  }

  lemma {:induction false} DropKeepsCallbacks(s: State, unregisterFails: nat -> bool, t: State, name: string)
    requires Consistent(s) && Consistent(t) && PartialCallbacks(s, unregisterFails, t)
    requires name in t.families && name in s.families && t.families[name] == s.families[name]
    ensures PartialCallbacks(s, unregisterFails, AfterDrop(t, name, unregisterFails))
  {
    OwnershipAfterDrop(t, name, unregisterFails);
    var r := s.families[name].registration;
    assert OwnedByFamily(s, r) && r in s.live;
    assert Owned(t, r) by { assert OwnedByFamily(t, r); }
    hide Owned, Consistent;
  }

  lemma {:induction false} OwnershipAfterAdd(s: State, name: string, description: string)
    requires name !in s.families
    ensures forall r :: Owned(AfterAdd(s, name, description), r) <==> Owned(s, r) || r == s.nextId
  {
    var t := AfterAdd(s, name, description);
    assert t.families[name].registration == s.nextId;
    forall r | OwnedByFamily(s, r)
      ensures OwnedByFamily(t, r)
    {
      var n :| n in s.families && s.families[n].registration == r;
      assert n in t.families && t.families[n] == s.families[n];
    }
  }

  lemma {:induction false} AddKeepsCallbacks(
    s: State, unregisterFails: nat -> bool, t: State, name: string, description: string)
    requires Consistent(s) && PartialCallbacks(s, unregisterFails, t) && name !in t.families
    ensures PartialCallbacks(s, unregisterFails, AfterAdd(t, name, description))
  {
    OwnershipAfterAdd(t, name, description);
    assert forall r | r in s.live :: r < s.nextId;
    hide Owned, Consistent;
  }

  lemma {:induction false} SyncedFromParts(
    s: State, desired: map<string, string>, create: string -> Creation, unregisterFails: nat -> bool, t: State)
    requires PartialFamilies(s, desired, create, t, {}) && PartialCallbacks(s, unregisterFails, t)
    ensures Synced(s, desired, create, unregisterFails, t)
  {
    hide Owned, Failing, NeedsCreation;
  }

  /** The two loops together: the families. */
  lemma {:induction false} ComposeFamilies(
    s: State, desired: map<string, string>, create: string -> Creation, mid: State, t: State)
    requires KeptFamilies(s, desired, mid, {}) && mid.nextId == s.nextId
    requires PartialFamilies(mid, desired, create, t, {})
    ensures PartialFamilies(s, desired, create, t, {})
    ensures forall name :: Failing(s, desired, create, name) <==> Failing(mid, desired, create, name)
  {
    assert forall name :: NeedsCreation(s, desired, name) <==> NeedsCreation(mid, desired, name);
  }

  lemma {:induction false} ComposeCallbacks(
    s: State, desired: map<string, string>, unregisterFails: nat -> bool, mid: State, t: State)
    requires Consistent(s) && Consistent(mid) && KeptFamilies(s, desired, mid, {})
    requires Released(s, unregisterFails, mid) && PartialCallbacks(mid, unregisterFails, t)
    ensures PartialCallbacks(s, unregisterFails, t)
  {
    forall r | Owned(mid, r)
      ensures Owned(s, r) && r in s.live && r in mid.live
    {
      if OwnedByFamily(mid, r) {
        var n :| n in mid.families && mid.families[n].registration == r;
        assert n in s.families && s.families[n].registration == r;
      }
    }
    hide Owned, Consistent;
  }

  lemma {:induction false} StartOfCreation(
    s: State, desired: map<string, string>, create: string -> Creation, unregisterFails: nat -> bool)
    requires Consistent(s) && s.families.Keys <= desired.Keys
    ensures PartialFamilies(s, desired, create, s, desired.Keys) && PartialCallbacks(s, unregisterFails, s)
  {
    assert forall r | Owned(s, r) :: r in s.live;
    forall name | name in s.families && !NeedsCreation(s, desired, name)
      ensures name in s.families
    {}
  }

  /** What one turn of the second loop does to the families. */
  lemma {:induction false} NextFamily(
    s: State, desired: map<string, string>, create: string -> Creation, unregisterFails: nat -> bool, t: State,
    todo: set<string>, name: string)
    requires PartialFamilies(s, desired, create, t, todo) && t.nextId >= s.nextId && name in todo && name in desired
    ensures name in t.families <==> name in s.families
    ensures name in t.families ==> t.families[name] == s.families[name]
    ensures var without := if name in t.families then AfterDrop(t, name, unregisterFails) else t;
            && (!NeedsCreation(s, desired, name) ==> PartialFamilies(s, desired, create, t, todo - {name}))
            && (Failing(s, desired, create, name) ==> PartialFamilies(s, desired, create, without, todo - {name}))
            && (NeedsCreation(s, desired, name) && create(name) == Created ==>
                  PartialFamilies(s, desired, create, AfterAdd(without, name, desired[name]), todo - {name}))
  {}

  ghost predicate ShuttingDown(s: State, unregisterFails: nat -> bool, t: State, failed: bool) {
    && (forall name | name in t.families :: name in s.families && t.families[name] == s.families[name])
    && (forall r :: r in t.live <==> r in s.live && (Owned(s, r) && !OwnedByFamily(t, r) ==> unregisterFails(r)))
    && (failed <==> exists r :: Owned(s, r) && !OwnedByFamily(t, r) && unregisterFails(r))
  }

  lemma {:induction false} StartOfShutdown(s: State, unregisterFails: nat -> bool, t: State)
    requires Consistent(s) && t.families == s.families && t.nextId == s.nextId && t.projectUp == None
    requires t.live == if s.projectUp.Some? &&
        !unregisterFails(s.projectUp.value) then s.live - {s.projectUp.value} else s.live
    ensures Consistent(t)
    ensures ShuttingDown(s, unregisterFails, t, s.projectUp.Some? && unregisterFails(s.projectUp.value))
  {
    assert forall r :: OwnedByFamily(t, r) <==> OwnedByFamily(s, r);
    assert s.projectUp.Some? ==> Owned(s, s.projectUp.value) && !OwnedByFamily(t, s.projectUp.value);
    hide OwnedByFamily;
  }

  lemma {:induction false} DropShutsDown(s: State, unregisterFails: nat -> bool, t: State, failed: bool, name: string)
    requires Consistent(t) && ShuttingDown(s, unregisterFails, t, failed) && name in t.families
    ensures AfterDrop(t, name, unregisterFails).families == t.families - {name}
    ensures ShuttingDown(s, unregisterFails, AfterDrop(t, name, unregisterFails),
                         failed || unregisterFails(t.families[name].registration))
  {
    OwnershipAfterDrop(t, name, unregisterFails);
    var u := AfterDrop(t, name, unregisterFails);
    var r := t.families[name].registration;
    assert OwnedByFamily(s, r);
    assert !OwnedByFamily(u, r) && Owned(s, r);
    hide Owned, OwnedByFamily, Consistent;
    if failed {
      var q :| Owned(s, q) && !OwnedByFamily(t, q) && unregisterFails(q);
      assert !OwnedByFamily(u, q);
    }
  }

  lemma {:induction false} EndOfShutdown(s: State, unregisterFails: nat -> bool, t: State, failed: bool)
    requires ShuttingDown(s, unregisterFails, t, failed) && t.families == map[]
    ensures forall r :: r in t.live <==> r in s.live && (Owned(s, r) ==> unregisterFails(r))
    ensures failed <==> exists r :: Owned(s, r) && unregisterFails(r)
  {
    assert forall r :: !OwnedByFamily(t, r);
    hide Owned, OwnedByFamily;
  }

  // ---- The runtime ----

  class Runtime {
    const defaultPrefix: string
    var families: map<string, FamilyEntry>
    var live: map<nat, Callback>
    var nextId: nat
    var projectUp: Option<nat>

    ghost function Now(): State
      reads this
    {
      State(families, live, nextId, projectUp)
    }

    /** The runtime starts with the callback of its own up/down gauge. */
    constructor (defaultPrefix: string)
      ensures Consistent(Now()) && Now() == FRESH
      ensures this.defaultPrefix == defaultPrefix
    {
      this.defaultPrefix := defaultPrefix;
      families := map[];
      live := map[0 := ObserveProjectUp];
      nextId := 1;
      projectUp := Some(0);
    }

    method Unregister(r: nat, unregisterFails: nat -> bool) returns (failed: bool)
      modifies `live
      ensures failed == unregisterFails(r)
      ensures live == if failed then old(live) else old(live) - {r}
    {
      failed := unregisterFails(r);
      if !failed {
        live := live - {r};
      }
    }

    /** Drops the entry of `name` and its callback. */
    method DropFamily(name: string, unregisterFails: nat -> bool) returns (failed: bool)
      requires Consistent(Now()) && name in families
      modifies `families, `live
      ensures Consistent(Now()) && Now() == AfterDrop(old(Now()), name, unregisterFails)
      ensures failed == unregisterFails(old(families)[name].registration)
    {
      DropKeepsConsistent(Now(), name, unregisterFails);
      hide Consistent;
      failed := Unregister(families[name].registration, unregisterFails);
      families := families - {name};
    }

    method AddFamily(name: string, description: string)
      requires Consistent(Now()) && name !in families
      modifies `families, `live, `nextId
      ensures Consistent(Now()) && Now() == AfterAdd(old(Now()), name, description)
    {
      AddKeepsConsistent(Now(), name, description);
      hide Consistent;
      families := families[name := FamilyEntry(nextId, description)];
      live := live[nextId := ObserveFamily(name)];
      nextId := nextId + 1;
    }

    /** First loop: families that no policy declares any more. */
    method DropStale(desired: map<string, string>, unregisterFails: nat -> bool)
      requires Consistent(Now())
      modifies this
      ensures Consistent(Now()) && KeptFamilies(old(Now()), desired, Now(), {})
      ensures Released(old(Now()), unregisterFails, Now())
      ensures nextId == old(nextId)
    {
      ghost var start := Now();
      var todo := families.Keys;
      assert Released(start, unregisterFails, Now()) && KeptFamilies(start, desired, Now(), todo);
      hide Consistent, Released, Owned, KeptFamilies, AfterDrop;
      while todo != {}
        invariant Consistent(Now()) && nextId == start.nextId
        invariant KeptFamilies(start, desired, Now(), todo) && todo <= families.Keys
        invariant Released(start, unregisterFails, Now())
        decreases todo
      {
        var name :| name in todo;
        KeepNext(start, desired, unregisterFails, Now(), todo, name);
        todo := todo - {name};
        if name in desired {
          continue;
        }
        DropReleases(start, unregisterFails, Now(), name);
        var _ := DropFamily(name, unregisterFails);
      }
    }

    /** Second loop: new families, and families whose help text drifted. */
    method CreateMissing(desired: map<string, string>, create: string -> Creation, unregisterFails: nat -> bool)
      returns (firstError: Option<string>)
      requires Consistent(Now()) && families.Keys <= desired.Keys
      modifies this
      ensures Consistent(Now()) && PartialFamilies(old(Now()), desired, create, Now(), {})
      ensures PartialCallbacks(old(Now()), unregisterFails, Now())
      ensures firstError == None <==> forall name :: !Failing(old(Now()), desired, create, name)
      ensures firstError.Some? ==> Failing(old(Now()), desired, create, firstError.value)
    {
      firstError := None;
      ghost var start := Now();
      var todo := desired.Keys;
      StartOfCreation(start, desired, create, unregisterFails);
      hide Consistent, PartialCallbacks, PartialFamilies, Owned;
      while todo != {}
        invariant Consistent(Now()) && todo <= desired.Keys
        invariant PartialFamilies(start, desired, create, Now(), todo)
        invariant PartialCallbacks(start, unregisterFails, Now())
        invariant firstError == None <==> forall name | name !in todo :: !Failing(start, desired, create, name)
        invariant firstError.Some? ==> Failing(start, desired, create, firstError.value)
        decreases todo
      {
        var name :| name in todo;
        NextFamily(start, desired, create, unregisterFails, Now(), todo, name);
        todo := todo - {name};
        if name in families && families[name].description == desired[name] {
          continue;
        }
        if name in families {
          DropKeepsCallbacks(start, unregisterFails, Now(), name);
          var _ := DropFamily(name, unregisterFails);
        }
        if create(name) != Created {
          if firstError == None {
            firstError := Some(name);
          }
          continue;
        }
        AddKeepsCallbacks(start, unregisterFails, Now(), name, desired[name]);
        AddFamily(name, desired[name]);
      }
    }

    method Sync(policies: Families.Snapshot, create: string -> Creation, unregisterFails: nat -> bool)
      returns (firstError: Option<string>)
      requires Consistent(Now())
      modifies this
      ensures Consistent(Now())
      ensures var desired := KeepFirst(Declares(defaultPrefix, policies), map[]);
              && Synced(old(Now()), desired, create, unregisterFails, Now())
              && (firstError == None <==> forall name :: !Failing(old(Now()), desired, create, name))
              && (firstError.Some? ==> Failing(old(Now()), desired, create, firstError.value))
    {
      hide KeepFirst, Declares, Consistent, Synced, Failing, NeedsCreation, Released, PartialCallbacks, PartialFamilies;
      ghost var start := Now();
      var desired := ComputeDesired(defaultPrefix, policies);
      DropStale(desired, unregisterFails);
      ghost var mid := Now();
      firstError := CreateMissing(desired, create, unregisterFails);
      ComposeFamilies(start, desired, create, mid, Now());
      ComposeCallbacks(start, desired, unregisterFails, mid, Now());
      SyncedFromParts(start, desired, create, unregisterFails, Now());
    }

    /** Unregisters everything. */
    method Shutdown(unregisterFails: nat -> bool) returns (failed: bool)
      requires Consistent(Now())
      modifies this
      ensures Consistent(Now()) && families == map[] && projectUp == None
      ensures forall r :: r in live <==> r in old(live) && (old(Owned(Now(), r)) ==> unregisterFails(r))
      ensures failed <==> exists r :: old(Owned(Now(), r)) && unregisterFails(r)
    {
      failed := false;
      ghost var start := Now();
      if projectUp.Some? {
        failed := Unregister(projectUp.value, unregisterFails);
        projectUp := None;
      }
      var todo := families.Keys;
      StartOfShutdown(start, unregisterFails, Now());
      hide Consistent, ShuttingDown, Owned, OwnedByFamily, AfterDrop;
      while todo != {}
        invariant Consistent(Now()) && todo == families.Keys && projectUp == None
        invariant ShuttingDown(start, unregisterFails, Now(), failed)
        decreases todo
      {
        var name :| name in todo;
        DropShutsDown(start, unregisterFails, Now(), failed, name);
        var notRemoved := DropFamily(name, unregisterFails);
        failed := failed || notRemoved;
        todo := todo - {name};
      }
      EndOfShutdown(start, unregisterFails, Now(), failed);
    }
  }
}
