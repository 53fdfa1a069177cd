// The informers of one control plane: watch events and reconcile steps in any interleaving.
module Informers {
  import opened Paths
  import opened Trim
  import opened PolicyModel
  import opened StringOrder
  import opened Desired
  import opened BuildPushdown

  /** A cached object, the object it came from, and the fields it was trimmed to. */
  datatype Cached = Cached(source: Value, used: seq<string>, stored: Value)

  /** An object between the read of the published fields and its arrival in the cache; they arrive in order. */
  datatype Transit = Transit(key: string, source: Value, used: seq<string>)

  datatype Informer = Informer(gvr: GVR, fields: seq<string>, cache: map<string, Cached>, transit: seq<Transit>)

  /** What the collector's map holds: a synced informer, or the record of a denial. */
  datatype Entry = Live(id: nat) | Denied

  /**
   * `desired` is the pass under way; `pending` is started but not yet in the map; `retiring` was replaced but not yet
   * stopped.
   */
  datatype State = State(
    running: map<nat, Informer>, entries: map<GVR, Entry>, nextId: nat,
    desired: Option<Fields>, pending: Option<nat>, retiring: Option<nat>)

  const INITIAL := State(map[], map[], 0, None, None, None)

  datatype Action =
    | Observe(id: nat, key: string, source: Value)
    | Store(id: nat)
    | Forget(id: nat, key: string)
    | Begin(desired: Fields)
    | Publish(gvr: GVR)
    | Remove(gvr: GVR)
    | Start(gvr: GVR)
    | Install
    | Abandon
    | Deny(gvr: GVR)
    | StopRetired
    | Finish

  predicate IsWatch(a: Action) {
    a.Observe? || a.Store? || a.Forget?
  }

  predicate Wanted(s: State, gvr: GVR) {
    s.desired.Some? && gvr in s.desired.value
  }

  predicate LiveAt(s: State, gvr: GVR) {
    gvr in s.entries && s.entries[gvr].Live? && s.entries[gvr].id in s.running
  }

  function FieldsAt(s: State, gvr: GVR): seq<string>
    requires LiveAt(s, gvr)
  {
    s.running[s.entries[gvr].id].fields
  }

  ghost predicate Enabled(s: State, a: Action) {
    match a
    case Observe(id, _, _) => id in s.running
    case Store(id) => id in s.running && s.running[id].transit != []
    case Forget(id, _) => id in s.running
    case Begin(desired) => s.desired.None? && forall gvr | gvr in desired :: StrictlySorted(desired[gvr])
    case Publish(gvr) => Wanted(s, gvr) && LiveAt(s, gvr) && Sublist(s.desired.value[gvr], FieldsAt(s, gvr))
    case Remove(gvr) => s.desired.Some? && gvr in s.entries && !Wanted(s, gvr)
    case Start(gvr) =>
      && Wanted(s, gvr) && s.pending.None?
      && (gvr in s.entries ==> LiveAt(s, gvr) && !Sublist(s.desired.value[gvr], FieldsAt(s, gvr)))
    case Install => s.pending.Some? && s.retiring.None? && s.pending.value in s.running
    case Abandon => s.pending.Some?
    case Deny(gvr) => Wanted(s, gvr) && s.pending.None? && gvr !in s.entries
    case StopRetired => s.retiring.Some?
    case Finish => s.desired.Some? && s.pending.None? && s.retiring.None? && s.entries.Keys <= s.desired.value.Keys
  }

  ghost function Apply(s: State, a: Action): State
    requires Enabled(s, a)
  {
    match a
    case Observe(id, key, source) =>
      var i := s.running[id];
      s.(running := s.running[id := i.(transit := i.transit + [Transit(key, source, i.fields)])])
    case Store(id) =>
      var i := s.running[id];
      var t := i.transit[0];
      s.(running := s.running[id := i.(
           cache := i.cache[t.key := Cached(t.source, t.used, TrimObject(t.source, t.used))],
           transit := i.transit[1..])])
    case Forget(id, key) =>
      var i := s.running[id];
      s.(running := s.running[id := i.(cache := i.cache - {key})])
    case Begin(desired) => s.(desired := Some(desired))
    case Publish(gvr) =>
      var id := s.entries[gvr].id;
      s.(running := s.running[id := s.running[id].(fields := s.desired.value[gvr])])
    case Remove(gvr) =>
      s.(entries := s.entries - {gvr},
         running := if s.entries[gvr].Live? then s.running - {s.entries[gvr].id} else s.running)
    case Start(gvr) =>
      s.(running := s.running[s.nextId := Informer(gvr, s.desired.value[gvr], map[], [])],
         pending := Some(s.nextId), nextId := s.nextId + 1)
    case Install =>
      var gvr := s.running[s.pending.value].gvr;
      s.(entries := s.entries[gvr := Live(s.pending.value)], pending := None,
         retiring := if gvr in s.entries && s.entries[gvr].Live? then Some(s.entries[gvr].id) else None)
    case Abandon => s.(running := s.running - {s.pending.value}, pending := None)
    case Deny(gvr) => s.(entries := s.entries[gvr := Denied])
    case StopRetired => s.(running := s.running - {s.retiring.value}, retiring := None)
    case Finish => s.(desired := None)
  }

  // ---- Runs ----

  ghost predicate Legal(s: State, run: seq<Action>)
    decreases |run|, 0
  {
    run == [] || (Legal(s, run[..|run| - 1]) && Enabled(After(s, run[..|run| - 1]), run[|run| - 1]))
  }

  ghost function After(s: State, run: seq<Action>): State
    requires Legal(s, run)
    decreases |run|, 1
  {
    if run == [] then s else Apply(After(s, run[..|run| - 1]), run[|run| - 1])
  }

  lemma {:induction false} OneMore(s: State, run: seq<Action>, a: Action)
    requires Legal(s, run) && Enabled(After(s, run), a)
    ensures Legal(s, run + [a]) && After(s, run + [a]) == Apply(After(s, run), a)
  {
    assert (run + [a])[..|run + [a]| - 1] == run;
    hide Enabled, Apply;
  }

  // ---- The invariant ----

  /** Everything cached, or on its way, was trimmed to no less than the fields now published. */
  predicate Faithful(i: Informer) {
    && (forall key | key in i.cache ::
          i.cache[key].stored == TrimObject(i.cache[key].source, i.cache[key].used) &&
              Sublist(i.fields, i.cache[key].used))
    && (forall t | t in i.transit :: Sublist(i.fields, t.used))
  }

  predicate Installed(s: State, id: nat)
    requires id in s.running
  {
    s.running[id].gvr in s.entries && s.entries[s.running[id].gvr] == Live(id)
  }

  /** Every running informer has exactly one owner: the map, the attempt under way, or the swap under way. */
  predicate Ownership(s: State) {
    && (forall gvr | gvr in s.entries && s.entries[gvr].Live? ::
        LiveAt(s, gvr) && s.running[s.entries[gvr].id].gvr == gvr)
    && (forall id | id in s.running ::
        id < s.nextId && (Installed(s, id) || s.pending == Some(id) || s.retiring == Some(id)))
    && (s.pending.Some? ==> s.pending.value in s.running && !Installed(s, s.pending.value) && s.pending != s.retiring)
    && (s.retiring.Some? ==> s.retiring.value in s.running && !Installed(s, s.retiring.value))
  }

  predicate SortedFields(s: State) {
    && (forall id | id in s.running :: StrictlySorted(s.running[id].fields))
    && (s.desired.Some? ==> forall gvr | gvr in s.desired.value :: StrictlySorted(s.desired.value[gvr]))
  }

  predicate AllFaithful(s: State) {
    forall id | id in s.running :: Faithful(s.running[id])
  }

  /** Only a pass starts or replaces informers, only for what it wants, and never in place of a denial. */
  predicate Orderly(s: State) {
    && (s.desired.None? ==> s.pending.None? && s.retiring.None?)
    && (s.pending.Some? ==>
          && s.pending.value in s.running
          && Wanted(s, s.running[s.pending.value].gvr)
          && (s.running[s.pending.value].gvr in s.entries ==> s.entries[s.running[s.pending.value].gvr].Live?))
  }

  predicate Inv(s: State) {
    Ownership(s) && SortedFields(s) && AllFaithful(s) && Orderly(s)
  }

  /** A published set may only shrink: then what is cached still covers it. */
  lemma {:induction false} NarrowingKeepsFaithful(i: Informer, fields: seq<string>)
    requires Faithful(i) && Sublist(fields, i.fields)
    ensures Faithful(i.(fields := fields))
  {
    hide TrimObject;
  }

  lemma {:induction false} KeepsFaithful(s: State, a: Action)
    requires AllFaithful(s) && Enabled(s, a)
    ensures AllFaithful(Apply(s, a))
  {
    hide TrimObject, StrictlySorted;
    var t := Apply(s, a);
    forall id | id in t.running
      ensures Faithful(t.running[id])
    {
      match a
      case Observe(_, _, _) =>
      case Store(_) =>
      case Forget(_, _) =>
      case Publish(gvr) => NarrowingKeepsFaithful(s.running[s.entries[gvr].id], s.desired.value[gvr]);
      case _ =>
    }
  }

  /** The same informers for the same resources, owned the same way. */
  ghost predicate SameOwners(s: State, t: State) {
    && t.running.Keys == s.running.Keys && (forall id | id in s.running :: t.running[id].gvr == s.running[id].gvr)
    && t.(running := s.running) == s
  }

  lemma {:induction false} SameOwnersKeep(s: State, t: State)
    requires Ownership(s) && Orderly(s) && SameOwners(s, t)
    ensures Ownership(t) && Orderly(t)
  {
    assert forall id | id in t.running :: Installed(t, id) == Installed(s, id);
    hide Installed;
  }

  lemma {:induction false} InstallKeepsOwnership(s: State)
    requires Ownership(s) && Orderly(s) && Enabled(s, Install)
    ensures Ownership(Apply(s, Install)) && Orderly(Apply(s, Install))
  {
    hide Sublist, StrictlySorted;
  }

  lemma {:induction false} StartKeepsOwnership(s: State, gvr: GVR)
    requires Ownership(s) && Orderly(s) && Enabled(s, Start(gvr))
    ensures Ownership(Apply(s, Start(gvr))) && Orderly(Apply(s, Start(gvr)))
  {
    hide Sublist, StrictlySorted;
  }

  lemma {:induction false} RemoveKeepsOwnership(s: State, gvr: GVR)
    requires Ownership(s) && Orderly(s) && Enabled(s, Remove(gvr))
    ensures Ownership(Apply(s, Remove(gvr))) && Orderly(Apply(s, Remove(gvr)))
  {
    hide Sublist, StrictlySorted;
  }

  lemma {:induction false} OthersKeepOwnership(s: State, a: Action)
    requires Ownership(s) && Orderly(s) && Enabled(s, a)
    requires a.Begin? || a.Abandon? || a.Deny? || a.StopRetired? || a.Finish?
    ensures Ownership(Apply(s, a)) && Orderly(Apply(s, a))
  {
    hide Sublist, StrictlySorted;
  }

  lemma {:induction false} KeepsOwnership(s: State, a: Action)
    requires Ownership(s) && Orderly(s) && Enabled(s, a)
    ensures Ownership(Apply(s, a)) && Orderly(Apply(s, a))
  {
    if IsWatch(a) || a.Publish? {
      assert SameOwners(s, Apply(s, a)) by {
        hide Ownership, Orderly, TrimObject, Sublist, StrictlySorted;
      }
      hide *;
      SameOwnersKeep(s, Apply(s, a));
    } else if a.Install? {
      InstallKeepsOwnership(s);
    } else if a.Start? {
      StartKeepsOwnership(s, a.gvr);
    } else if a.Remove? {
      RemoveKeepsOwnership(s, a.gvr);
    } else {
      OthersKeepOwnership(s, a);
    }
  }

  lemma {:induction false} KeepsSorted(s: State, a: Action)
    requires SortedFields(s) && Enabled(s, a)
    ensures SortedFields(Apply(s, a))
  {
    hide TrimObject, StrictlySorted, Sublist;
  }

  lemma {:induction false} StepKeepsInv(s: State, a: Action)
    requires Inv(s) && Enabled(s, a)
    ensures Inv(Apply(s, a))
  {
    hide Ownership, SortedFields, AllFaithful, Orderly, Enabled, Apply;
    KeepsFaithful(s, a);
    KeepsOwnership(s, a);
    KeepsSorted(s, a);
  }

  /** Every state of every run from an invariant state satisfies the invariant. */
  lemma {:induction false} RunKeepsInv(s: State, run: seq<Action>)
    requires Inv(s) && Legal(s, run)
    ensures Inv(After(s, run))
    decreases |run|
  {
    hide Inv, Enabled, Apply;
    if run == [] {
      assert After(s, run) == s;
    } else {
      var front, last := run[..|run| - 1], run[|run| - 1];
      RunKeepsInv(s, front);
      StepKeepsInv(After(s, front), last);
    }
  }

  lemma {:induction false} InitialInv()
    ensures Inv(INITIAL)
  {}

  // ---- What the invariant gives ----

  /** A cached object answers every published path, and every identity path, as the object it came from does. */
  lemma {:induction false} CachedAgrees(s: State, gvr: GVR, key: string, q: Path)
    requires Inv(s) && LiveAt(s, gvr) && key in s.running[s.entries[gvr].id].cache
    requires Covered(PathSet(FieldsAt(s, gvr) + IDENTITY_FIELDS), q)
    ensures var c := s.running[s.entries[gvr].id].cache[key];
            && Lookup(c.stored, q) == Lookup(c.source, q)
            && TrimObject(c.stored, FieldsAt(s, gvr)) == TrimObject(c.source, FieldsAt(s, gvr))
  {
    assert Faithful(s.running[s.entries[gvr].id]);
    var c, fields := s.running[s.entries[gvr].id].cache[key], FieldsAt(s, gvr);
    assert c.stored == TrimObject(c.source, c.used) && Sublist(fields, c.used);
    assert PathSet(fields + IDENTITY_FIELDS) <= PathSet(c.used + IDENTITY_FIELDS) by {
      PathSetSubset(c.used, fields);
    }
    TrimObjectNarrows(c.source, c.used, fields);
    PathSetNonEmpty(c.used + IDENTITY_FIELDS);
    assert Covered(PathSet(c.used + IDENTITY_FIELDS), q) by {
      var p :| p in PathSet(fields + IDENTITY_FIELDS) && p <= q;
    }
    TrimKeeps(c.source, PathSet(c.used + IDENTITY_FIELDS), q);
  }

  /** Between passes every running informer belongs to exactly one entry of the map. */
  lemma {:induction false} OneOwnerBetweenPasses(s: State, id: nat)
    requires Inv(s) && s.desired.None? && id in s.running
    ensures LiveAt(s, s.running[id].gvr) && s.entries[s.running[id].gvr] == Live(id)
    ensures forall gvr | gvr in s.entries && s.entries[gvr] == Live(id) :: gvr == s.running[id].gvr
  {}

  // ---- What runs give ----

  lemma {:induction false} StepShrinks(s: State, a: Action, id: nat)
    requires Ownership(s) && Enabled(s, a) && id < s.nextId && id in Apply(s, a).running
    ensures id in s.running && Sublist(Apply(s, a).running[id].fields, s.running[id].fields)
    ensures Apply(s, a).running[id].gvr == s.running[id].gvr
  {
    hide TrimObject, StrictlySorted;
  }

  lemma {:induction false} NextIdGrows(s: State, run: seq<Action>)
    requires Legal(s, run)
    ensures After(s, run).nextId >= s.nextId
    decreases |run|
  {
    hide StrictlySorted, TrimObject, Sublist;
    if run != [] {
      NextIdGrows(s, run[..|run| - 1]);
    }
  }

  /** The published set of a running informer never grows, and it never changes its resource. */
  lemma {:induction false} FieldsOnlyShrink(s: State, run: seq<Action>, id: nat)
    requires Inv(s) && Legal(s, run) && id < s.nextId && id in After(s, run).running
    ensures id in s.running && Sublist(After(s, run).running[id].fields, s.running[id].fields)
    ensures After(s, run).running[id].gvr == s.running[id].gvr
    decreases |run|
  {
    hide Ownership, SortedFields, AllFaithful, Orderly, Enabled, Apply;
    if run != [] {
      var front := run[..|run| - 1];
      RunKeepsInv(s, front);
      NextIdGrows(s, front);
      StepShrinks(After(s, front), run[|run| - 1], id);
      FieldsOnlyShrink(s, front, id);
    }
  }

  /** Every pass of the run, and the one under way at its start, wants the resource. */
  ghost predicate AlwaysWanted(s: State, run: seq<Action>, gvr: GVR) {
    (s.desired.Some? ==> gvr in s.desired.value) && forall a | a in run && a.Begin? :: gvr in a.desired
  }

  lemma {:induction false} StillWanted(s: State, run: seq<Action>, gvr: GVR)
    requires Legal(s, run) && AlwaysWanted(s, run, gvr)
    ensures After(s, run).desired.Some? ==> gvr in After(s, run).desired.value
    decreases |run|
  {
    hide StrictlySorted, TrimObject, Sublist;
    if run != [] {
      var front := run[..|run| - 1];
      assert forall a | a in front :: a in run;
      StillWanted(s, front, gvr);
    }
  }

  lemma {:induction false} StepKeepsEntry(s: State, a: Action, gvr: GVR)
    requires Inv(s) && Enabled(s, a) && gvr in s.entries
    requires s.desired.Some? ==> gvr in s.desired.value
    ensures gvr in Apply(s, a).entries && Apply(s, a).entries[gvr].Live? == s.entries[gvr].Live?
  {
    hide StrictlySorted, TrimObject, Sublist, SortedFields, AllFaithful;
  }

  lemma {:induction false} LiveIsRunning(s: State, gvr: GVR)
    requires Inv(s) && gvr in s.entries && s.entries[gvr].Live?
    ensures LiveAt(s, gvr)
  {}

  /**
   * A resource that every pass wants never leaves the map. Once synced it stays synced, through every rebuild and every
   * failed attempt; once denied it stays denied.
   */
  lemma {:induction false} EntryStays(s: State, run: seq<Action>, gvr: GVR)
    requires Inv(s) && Legal(s, run) && gvr in s.entries && AlwaysWanted(s, run, gvr)
    ensures gvr in After(s, run).entries && After(s, run).entries[gvr].Live? == s.entries[gvr].Live?
    ensures s.entries[gvr].Live? ==> LiveAt(After(s, run), gvr)
    decreases |run|
  {
    RunKeepsInv(s, run);
    hide Inv, Enabled, Apply;
    if run != [] {
      var front := run[..|run| - 1];
      RunKeepsInv(s, front);
      assert forall a | a in front :: a in run;
      StillWanted(s, front, gvr);
      EntryStays(s, front, gvr);
      StepKeepsEntry(After(s, front), run[|run| - 1], gvr);
    }
    if s.entries[gvr].Live? {
      LiveIsRunning(After(s, run), gvr);
    }
  }
}
