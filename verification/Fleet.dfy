// Engaging, disengaging and waking the collectors of many control planes: the critical sections in any interleaving.
module Fleet {
  import opened PolicyModel

  /**
   * The background loop of a collector: waiting, holding a wake it has not acted on, past reading the registry, gone.
   */
  datatype Loop = Idle | Dequeued | Working | Exited

  /** A started collector. `token` is its one-slot wake channel, `lastRead` the registry version its last pass read. */
  datatype Unit = Unit(name: string, token: bool, loop: Loop, lastRead: Option<nat>, stopped: bool)

  /** Where a call is, between two of its critical sections. */
  datatype Call =
    | EngageEntered(name: string)
    | EngageBuilding(name: string)
    | EngageStarted(name: string, id: nat)
    | EngageDuplicate(id: nat, existing: nat)
    | EngageWaking(id: nat)
    | DisengageEntered(name: string)
    | DisengageStopping(id: nat)
    | Changed
    | WakingAll(todo: set<nat>)

  datatype State = State(version: nat, units: map<nat, Unit>, collectors: map<string, nat>, calls: map<nat, Call>)

  const INITIAL := State(0, map[], map[], map[])

  datatype Action =
    | Enter(t: nat, call: Call)
    | ChangeRegistry(t: nat)
    | EngageCheck(t: nat)
    | EngageFail(t: nat)
    | EngageStart(t: nat, id: nat)
    | EngageInsert(t: nat)
    | EngageStop(t: nat)
    | EngageWake(t: nat)
    | DisengageRemove(t: nat)
    | DisengageStop(t: nat)
    | WakeLock(t: nat)
    | WakeOne(t: nat, id: nat)
    | WakeUnlock(t: nat)
    | Dequeue(id: nat)
    | Read(id: nat)
    | FinishPass(id: nat)
    | ExitLoop(id: nat)

  /** The call a step belongs to, if it is not a step of a collector's own loop. */
  function Caller(a: Action): Option<nat> {
    if a.Dequeue? || a.Read? || a.FinishPass? || a.ExitLoop? then None else Some(a.t)
  }

  /** WakeAll holds the read lock while it goes through the map; writers wait. */
  predicate NoReader(s: State) {
    forall t | t in s.calls :: !s.calls[t].WakingAll?
  }

  predicate Enabled(s: State, a: Action) {
    match a
    case Enter(t, call) => t !in s.calls && (call.EngageEntered? || call.DisengageEntered?)
    case ChangeRegistry(t) => t !in s.calls
    case EngageCheck(t) => t in s.calls && s.calls[t].EngageEntered? && NoReader(s)
    case EngageFail(t) => t in s.calls && s.calls[t].EngageBuilding?
    case EngageStart(t, id) => t in s.calls && s.calls[t].EngageBuilding? && id !in s.units
    case EngageInsert(t) => t in s.calls && s.calls[t].EngageStarted? && NoReader(s)
    case EngageStop(t) => t in s.calls && s.calls[t].EngageDuplicate? && s.calls[t].id in s.units
    case EngageWake(t) => t in s.calls && s.calls[t].EngageWaking? && s.calls[t].id in s.units
    case DisengageRemove(t) => t in s.calls && s.calls[t].DisengageEntered? && NoReader(s)
    case DisengageStop(t) => t in s.calls && s.calls[t].DisengageStopping? && s.calls[t].id in s.units
    case WakeLock(t) => t in s.calls && s.calls[t].Changed?
    case WakeOne(t, id) => t in s.calls && s.calls[t].WakingAll? && id in s.calls[t].todo && id in s.units
    case WakeUnlock(t) => t in s.calls && s.calls[t].WakingAll? && s.calls[t].todo == {}
    case Dequeue(id) => id in s.units && s.units[id].loop == Idle && s.units[id].token
    case Read(id) => id in s.units && s.units[id].loop == Dequeued
    case FinishPass(id) => id in s.units && s.units[id].loop == Working
    case ExitLoop(id) => id in s.units && s.units[id].loop == Idle && s.units[id].stopped
  }

  function SetUnit(s: State, id: nat, u: Unit): State { s.(units := s.units[id := u]) }

  function Woken(s: State, id: nat): State
    requires id in s.units
  {
    SetUnit(s, id, s.units[id].(token := true))
  }

  function Stopped(s: State, id: nat): State
    requires id in s.units
  {
    SetUnit(s, id, s.units[id].(stopped := true))
  }

  function MoveTo(s: State, t: nat, call: Call): State { s.(calls := s.calls[t := call]) }

  function Leave(s: State, t: nat): State { s.(calls := s.calls - {t}) }

  function Apply(s: State, a: Action): State
    requires Enabled(s, a)
  {
    match a
    case Enter(t, call) => MoveTo(s, t, call)
    case ChangeRegistry(t) => MoveTo(s.(version := s.version + 1), t, Changed)
    case EngageCheck(t) =>
      var name := s.calls[t].name;
      MoveTo(s, t, if name in s.collectors then EngageWaking(s.collectors[name]) else EngageBuilding(name))
    case EngageFail(t) => Leave(s, t)
    case EngageStart(t, id) =>
      var name := s.calls[t].name;
      MoveTo(SetUnit(s, id, Unit(name, true, Idle, None, false)), t, EngageStarted(name, id))
    case EngageInsert(t) =>
      var name, id := s.calls[t].name, s.calls[t].id;
      if name in s.collectors then MoveTo(s, t, EngageDuplicate(id, s.collectors[name]))
      else MoveTo(s.(collectors := s.collectors[name := id]), t, EngageWaking(id))
    case EngageStop(t) => MoveTo(Stopped(s, s.calls[t].id), t, EngageWaking(s.calls[t].existing))
    case EngageWake(t) => Leave(Woken(s, s.calls[t].id), t)
    case DisengageRemove(t) =>
      var name := s.calls[t].name;
      if name in s.collectors
      then MoveTo(s.(collectors := s.collectors - {name}), t, DisengageStopping(s.collectors[name]))
      else Leave(s, t)
    case DisengageStop(t) => Leave(Stopped(s, s.calls[t].id), t)
    case WakeLock(t) => MoveTo(s, t, WakingAll(s.collectors.Values))
    case WakeOne(t, id) => MoveTo(Woken(s, id), t, WakingAll(s.calls[t].todo - {id}))
    case WakeUnlock(t) => Leave(s, t)
    case Dequeue(id) => SetUnit(s, id, s.units[id].(token := false, loop := Dequeued))
    case Read(id) => SetUnit(s, id, s.units[id].(loop := Working, lastRead := Some(s.version)))
    case FinishPass(id) => SetUnit(s, id, s.units[id].(loop := Idle))
    case ExitLoop(id) => SetUnit(s, id, s.units[id].(loop := Exited))
  }

  // ---- Runs ----

  ghost predicate Legal(s: State, run: seq<Action>)
    decreases |run|, 0
  {
    run == [] || (Legal(s, run[..|run| - 1]) && Enabled(After(s, run[..|run| - 1]), run[|run| - 1]))
  }

  ghost function After(s: State, run: seq<Action>): State
    requires Legal(s, run)
    decreases |run|, 1
  {
    if run == [] then s else Apply(After(s, run[..|run| - 1]), run[|run| - 1])
  }

  lemma {:induction false} OneMore(s: State, run: seq<Action>, a: Action)
    requires Legal(s, run) && Enabled(After(s, run), a)
    ensures Legal(s, run + [a]) && After(s, run + [a]) == Apply(After(s, run), a)
  {
    assert (run + [a])[..|run + [a]| - 1] == run;
    hide Enabled, Apply;
  }

  /** The run leads from the beginning to this state. */
  ghost predicate LeadsTo(run: seq<Action>, s: State) {
    Legal(INITIAL, run) && After(INITIAL, run) == s
  }

  /** From position `from` on, the run took the step in this state. */
  ghost predicate Took(run: seq<Action>, from: nat, s: State, a: Action) {
    exists k | from <= k < |run| :: run[k] == a && LeadsTo(run[..k], s)
  }

  lemma {:induction false} TookLast(run: seq<Action>, from: nat, s: State, a: Action)
    requires LeadsTo(run, s) && from <= |run|
    ensures Took(run + [a], from, s, a)
  {
    hide LeadsTo;
    assert (run + [a])[..|run|] == run && (run + [a])[|run|] == a;
  }

  lemma {:induction false} TookLater(run: seq<Action>, longer: seq<Action>, from: nat, s: State, a: Action)
    requires Took(run, from, s, a) && run <= longer
    ensures Took(longer, from, s, a)
  {
    hide LeadsTo;
    var k :| from <= k < |run| && run[k] == a && LeadsTo(run[..k], s);
    assert longer[..k] == run[..k] && longer[k] == a;
  }

  lemma {:induction false} TookFrom(run: seq<Action>, from: nat, earlier: nat, s: State, a: Action)
    requires Took(run, from, s, a) && earlier <= from
    ensures Took(run, earlier, s, a)
  {
    hide LeadsTo;
  }

  /** From position `from` on, the call `t` woke the collector, as the last step of an Engage. */
  ghost predicate Woke(run: seq<Action>, from: nat, t: nat, id: nat) {
    exists s :: Took(run, from, s, EngageWake(t)) && t in s.calls && s.calls[t] == EngageWaking(id)
  }

  /** From position `from` on, the call `t` woke the collector, as a step of a WakeAll. */
  ghost predicate WokeOne(run: seq<Action>, from: nat, t: nat, id: nat) {
    exists s :: Took(run, from, s, WakeOne(t, id))
  }

  lemma {:induction false} WokeOneLater(run: seq<Action>, longer: seq<Action>, from: nat, t: nat)
    requires run <= longer
    ensures forall id | WokeOne(run, from, t, id) :: WokeOne(longer, from, t, id)
  {
    hide Took;
    forall id | WokeOne(run, from, t, id)
      ensures WokeOne(longer, from, t, id)
    {
      var s :| Took(run, from, s, WakeOne(t, id));
      TookLater(run, longer, from, s, WakeOne(t, id));
    }
  }

  lemma {:induction false} WokeFrom(run: seq<Action>, from: nat, earlier: nat, t: nat, id: nat)
    requires Woke(run, from, t, id) && earlier <= from
    ensures Woke(run, earlier, t, id)
  {
    hide Took;
    var s :| Took(run, from, s, EngageWake(t)) && t in s.calls && s.calls[t] == EngageWaking(id);
    TookFrom(run, from, earlier, s, EngageWake(t));
  }

  lemma {:induction false} WokeOneFrom(run: seq<Action>, from: nat, earlier: nat, t: nat)
    requires earlier <= from
    ensures forall id | WokeOne(run, from, t, id) :: WokeOne(run, earlier, t, id)
  {
    hide Took;
    forall id | WokeOne(run, from, t, id)
      ensures WokeOne(run, earlier, t, id)
    {
      var s :| Took(run, from, s, WakeOne(t, id));
      TookFrom(run, from, earlier, s, WakeOne(t, id));
    }
  }

  // ---- The invariant ----

  predicate Registered(s: State, id: nat)
    requires id in s.units
  {
    s.units[id].name in s.collectors && s.collectors[s.units[id].name] == id
  }

  /** The collector a call has started or taken out of the map, and not yet inserted or stopped. */
  function Held(call: Call): Option<nat> {
    match call
    case EngageStarted(_, id) => Some(id)
    case EngageDuplicate(id, _) => Some(id)
    case DisengageStopping(id) => Some(id)
    case _ => None
  }

  predicate HeldBy(s: State, t: nat, id: nat) {
    t in s.calls && Held(s.calls[t]) == Some(id)
  }

  /** The map holds running collectors under their own names. */
  predicate MapSound(s: State) {
    forall name | name in s.collectors ::
      s.collectors[name] in s.units && s.units[s.collectors[name]].name == name && !s.units[s.collectors[name]].stopped
  }

  /** What calls refer to exists; what they hold runs, is out of the map, and is theirs alone. */
  predicate CallsSound(s: State) {
    && (forall t | t in s.calls && s.calls[t].EngageStarted? ::
          s.calls[t].id in s.units && s.units[s.calls[t].id].name == s.calls[t].name)
    && (forall t | t in s.calls && s.calls[t].EngageDuplicate? ::
        s.calls[t].id in s.units && s.calls[t].existing in s.units)
    && (forall t | t in s.calls && s.calls[t].EngageWaking? :: s.calls[t].id in s.units)
    && (forall t | t in s.calls && s.calls[t].DisengageStopping? :: s.calls[t].id in s.units)
  }

  predicate HeldRuns(s: State) {
    forall t, id | t in s.calls && id in s.units && HeldBy(s, t, id) :: !s.units[id].stopped && !Registered(s, id)
  }

  predicate HeldOnce(s: State) {
    forall t, u | t in s.calls && u in s.calls && t != u && Held(s.calls[t]).Some? ::
        Held(s.calls[t]) != Held(s.calls[u])
  }

  /** Nothing running is forgotten: it is in the map, or in the hands of one call. */
  predicate NothingLeaks(s: State) {
    forall id | id in s.units && !s.units[id].stopped :: Registered(s, id) || exists t | t in s.calls ::
        HeldBy(s, t, id)
  }

  /** Under the read lock only registered collectors are left to wake. */
  predicate ReadersSound(s: State) {
    forall t, id | t in s.calls && s.calls[t].WakingAll? && id in s.calls[t].todo :: id in s.units && Registered(s, id)
  }

  /** A call that will still wake the collector. */
  predicate WillWake(s: State, t: nat, id: nat) {
    && t in s.calls
    && (s.calls[t].Changed? || (s.calls[t].WakingAll? && id in s.calls[t].todo) || s.calls[t] == EngageWaking(id))
  }

  /** A collector that has not read the newest registry still has a pass coming. */
  predicate UpToDateOrComing(s: State, id: nat)
    requires id in s.units
  {
    || s.units[id].token
    || s.units[id].loop == Dequeued
    || s.units[id].lastRead == Some(s.version)
    || exists t | t in s.calls :: WillWake(s, t, id)
  }

  predicate NoChangeLost(s: State) {
    forall name | name in s.collectors && s.collectors[name] in s.units :: UpToDateOrComing(s, s.collectors[name])
  }

  predicate Inv(s: State) {
    && MapSound(s) && CallsSound(s) && HeldRuns(s) && HeldOnce(s)
    && NothingLeaks(s) && ReadersSound(s) && NoChangeLost(s)
  }

  lemma {:induction false} InitialInv()
    ensures Inv(INITIAL)
  {}

  lemma {:induction false} KeepsMap(s: State, a: Action)
    requires MapSound(s) && CallsSound(s) && HeldRuns(s) && Enabled(s, a)
    ensures MapSound(Apply(s, a))
  {
    hide NoReader;
    if a.EngageInsert? || a.EngageStop? || a.DisengageStop? {
      assert HeldBy(s, a.t, s.calls[a.t].id);
    }
  }

  lemma {:induction false} KeepsCalls(s: State, a: Action)
    requires MapSound(s) && CallsSound(s) && Enabled(s, a)
    ensures CallsSound(Apply(s, a))
  {
    hide NoReader;
  }

  lemma {:induction false} HeldExists(s: State, t: nat, id: nat)
    requires CallsSound(s) && HeldBy(s, t, id)
    ensures id in s.units
  {}

  /** Only a call that starts or takes out a collector gets hold of one, and nobody else holds that one. */
  lemma {:induction false} HeldApart(s: State, a: Action, t: nat, u: nat, id: nat)
    requires MapSound(s) && CallsSound(s) && HeldRuns(s) && HeldOnce(s) && Enabled(s, a)
    requires HeldBy(Apply(s, a), t, id) && t != u && u in Apply(s, a).calls
    ensures !HeldBy(Apply(s, a), u, id)
  {
    hide NoReader;
    if HeldBy(s, u, id) {
      HeldExists(s, u, id);
    }
    if HeldBy(s, t, id) {
      HeldExists(s, t, id);
    }
  }

  lemma {:induction false} KeepsHeldOnce(s: State, a: Action)
    requires MapSound(s) && CallsSound(s) && HeldRuns(s) && HeldOnce(s) && Enabled(s, a)
    ensures HeldOnce(Apply(s, a))
  {
    hide Enabled, Apply, MapSound, CallsSound, HeldRuns;
    var after := Apply(s, a);
    forall t, u | t in after.calls && u in after.calls && t != u && Held(after.calls[t]).Some?
      ensures Held(after.calls[t]) != Held(after.calls[u])
    {
      HeldApart(s, a, t, u, Held(after.calls[t]).value);
    }
  }

  lemma {:induction false} HeldRunsAfter(s: State, a: Action, t: nat, id: nat)
    requires MapSound(s) && CallsSound(s) && HeldRuns(s) && HeldOnce(s) && Enabled(s, a)
    requires id in Apply(s, a).units && HeldBy(Apply(s, a), t, id)
    ensures !Apply(s, a).units[id].stopped && !Registered(Apply(s, a), id)
  {
    hide NoReader;
    if HeldBy(s, t, id) {
      HeldExists(s, t, id);
    }
  }

  lemma {:induction false} KeepsHeldRuns(s: State, a: Action)
    requires MapSound(s) && CallsSound(s) && HeldRuns(s) && HeldOnce(s) && Enabled(s, a)
    ensures HeldRuns(Apply(s, a))
  {
    hide NoReader;
    var after := Apply(s, a);
    forall t, id | t in after.calls && id in after.units && HeldBy(after, t, id)
      ensures !after.units[id].stopped && !Registered(after, id)
    {
      HeldRunsAfter(s, a, t, id);
    }
  }

  lemma {:induction false} RegisteredStays(s: State, a: Action, id: nat)
    requires MapSound(s) && Enabled(s, a) && id in s.units && Registered(s, id)
    ensures id in Apply(s, a).units
    ensures Registered(Apply(s, a), id) || (a.DisengageRemove? && HeldBy(Apply(s, a), a.t, id))
  {
    hide NoReader;
  }

  lemma {:induction false} HeldStays(s: State, a: Action, c: nat, id: nat)
    requires CallsSound(s) && Enabled(s, a) && id in s.units && HeldBy(s, c, id)
    ensures id in Apply(s, a).units
    ensures HeldBy(Apply(s, a), c, id) || Registered(Apply(s, a), id) || Apply(s, a).units[id].stopped
  {
    hide NoReader;
  }

  lemma {:induction false} KeepsAll(s: State, a: Action)
    requires MapSound(s) && CallsSound(s) && NothingLeaks(s) && Enabled(s, a)
    ensures NothingLeaks(Apply(s, a))
  {
    hide NoReader;
    var t := Apply(s, a);
    forall id | id in t.units && !t.units[id].stopped
      ensures Registered(t, id) || exists c | c in t.calls :: HeldBy(t, c, id)
    {
      if id !in s.units {
        assert HeldBy(t, a.t, id);
      } else if Registered(s, id) {
        RegisteredStays(s, a, id);
      } else {
        var c :| c in s.calls && HeldBy(s, c, id);
        HeldStays(s, a, c, id);
      }
    }
  }

  lemma {:induction false} KeepsReaders(s: State, a: Action)
    requires MapSound(s) && ReadersSound(s) && Enabled(s, a)
    ensures ReadersSound(Apply(s, a))
  {
    var after := Apply(s, a);
    forall t, id | t in after.calls && after.calls[t].WakingAll? && id in after.calls[t].todo
      ensures id in after.units && Registered(after, id)
    {
      if t in s.calls && s.calls[t].WakingAll? && id in s.calls[t].todo {
        RegisteredStays(s, a, id);
      }
    }
  }

  lemma {:induction false} KeepsChanges(s: State, a: Action)
    requires MapSound(s) && CallsSound(s) && NoChangeLost(s) && Enabled(s, a)
    ensures NoChangeLost(Apply(s, a))
  {
    hide NoReader;
    var t := Apply(s, a);
    forall name | name in t.collectors && t.collectors[name] in t.units
      ensures UpToDateOrComing(t, t.collectors[name])
    {
      var id := t.collectors[name];
      if a.ChangeRegistry? {
        assert WillWake(t, a.t, id);
      } else if name !in s.collectors {
        assert WillWake(t, a.t, id);
      } else if c :| c in s.calls && WillWake(s, c, id) {
        assert WillWake(t, c, id) || t.units[id].token;
      }
    }
  }

  lemma {:induction false} StepKeepsInv(s: State, a: Action)
    requires Inv(s) && Enabled(s, a)
    ensures Inv(Apply(s, a))
  {
    hide Enabled, Apply, MapSound, CallsSound, HeldRuns, HeldOnce, NothingLeaks, ReadersSound, NoChangeLost;
    KeepsMap(s, a);
    KeepsCalls(s, a);
    KeepsHeldRuns(s, a);
    KeepsHeldOnce(s, a);
    KeepsAll(s, a);
    KeepsReaders(s, a);
    KeepsChanges(s, a);
  }

  /** Every state of every interleaving satisfies the invariant. */
  lemma {:induction false} RunKeepsInv(s: State, run: seq<Action>)
    requires Inv(s) && Legal(s, run)
    ensures Inv(After(s, run))
    decreases |run|
  {
    hide Inv, Enabled, Apply;
    if run != [] {
      RunKeepsInv(s, run[..|run| - 1]);
      StepKeepsInv(After(s, run[..|run| - 1]), run[|run| - 1]);
    }
  }

  // ---- What every interleaving ends with ----

  /** No pass is coming: no wake is pending, and no loop holds one. */
  predicate Settled(s: State, id: nat)
    requires id in s.units
  {
    !s.units[id].token && s.units[id].loop != Dequeued
  }

  /**
   * No registry change is lost: whatever the interleaving, once all calls are over, every collector of the map that has
   * no pass coming last read the newest registry.
   */
  lemma {:induction false} NoRegistryChangeLost(run: seq<Action>, name: string)
    requires Legal(INITIAL, run) && After(INITIAL, run).calls == map[] && name in After(INITIAL, run).collectors
    ensures var s := After(INITIAL, run);
            && s.collectors[name] in s.units
            && (Settled(s, s.collectors[name]) ==> s.units[s.collectors[name]].lastRead == Some(s.version))
  {
    InitialInv();
    RunKeepsInv(INITIAL, run);
    hide Legal, After, CallsSound, HeldRuns, HeldOnce, NothingLeaks, ReadersSound;
  }

  /**
   * Once all calls are over, the collectors started and never stopped are exactly those of the map, each under its own
   * name.
   */
  lemma {:induction false} RunningAreRegistered(run: seq<Action>, id: nat)
    requires Legal(INITIAL, run) && After(INITIAL, run).calls == map[] && id in After(INITIAL, run).units
    ensures var s := After(INITIAL, run);
            !s.units[id].stopped <==> Registered(s, id)
  {
    InitialInv();
    RunKeepsInv(INITIAL, run);
    hide Legal, After, CallsSound, HeldRuns, HeldOnce, NoChangeLost, ReadersSound;
  }

  /** At any moment no two running collectors of the map share a cluster. */
  lemma {:induction false} OneCollectorPerCluster(run: seq<Action>, a: string, b: string)
    requires Legal(INITIAL, run) && a in After(INITIAL, run).collectors && b in After(INITIAL, run).collectors
    ensures var s := After(INITIAL, run);
            && s.collectors[a] in s.units && s.units[s.collectors[a]].name == a && !s.units[s.collectors[a]].stopped
            && (s.collectors[a] == s.collectors[b] ==> a == b)
  {
    InitialInv();
    RunKeepsInv(INITIAL, run);
    hide Legal, After, CallsSound, HeldRuns, HeldOnce, NoChangeLost, ReadersSound, NothingLeaks;
  }

  lemma {:induction false} NoSteps()
    ensures Legal(INITIAL, []) && After(INITIAL, []) == INITIAL
  {}

  /** A run, one step at a time. */
  lemma {:induction false} Extend(run: seq<Action>, s: State, a: Action, t: State) returns (longer: seq<Action>)
    requires Legal(INITIAL, run) && After(INITIAL, run) == s && Enabled(s, a) && Apply(s, a) == t
    ensures Legal(INITIAL, longer) && After(INITIAL, longer) == t
  {
    hide Legal, After, Enabled, Apply;
    OneMore(INITIAL, run, a);
    longer := run + [a];
  }

  function Fresh(name: string): Unit { Unit(name, true, Idle, None, false) }

  /** It has made its first pass, over an empty registry. */
  function Stale(name: string): Unit { Unit(name, false, Idle, Some(0), false) }

  /** A collector is started but not yet inserted. */
  lemma {:induction false} RunToStart(name: string) returns (run: seq<Action>)
    ensures Legal(INITIAL, run)
    ensures After(INITIAL, run) == State(0, map[0 := Fresh(name)], map[], map[0 := EngageStarted(name, 0)])
  {
    NoSteps();
    hide Legal, After;
    var entered, building := map[0 := EngageEntered(name)], map[0 := EngageBuilding(name)];
    run := Extend([], INITIAL, Enter(0, EngageEntered(name)), State(0, map[], map[], entered));
    assert entered[0 := EngageBuilding(name)] == building;
    run := Extend(run, State(0, map[], map[], entered), EngageCheck(0), State(0, map[], map[], building));
    assert building[0 := EngageStarted(name, 0)] == map[0 := EngageStarted(name, 0)];
    run := Extend(run, State(0, map[], map[], building), EngageStart(0, 0),
                  State(0, map[0 := Fresh(name)], map[], map[0 := EngageStarted(name, 0)]));
  }

  /** Its first pass is over. */
  lemma {:induction false} RunToFirstPass(name: string) returns (run: seq<Action>)
    ensures Legal(INITIAL, run)
    ensures After(INITIAL, run) == State(0, map[0 := Stale(name)], map[], map[0 := EngageStarted(name, 0)])
  {
    hide Legal, After, NoReader;
    var calls := map[0 := EngageStarted(name, 0)];
    var dequeued, working := Fresh(name).(token := false, loop := Dequeued), Stale(name).(loop := Working);
    run := RunToStart(name);
    assert map[0 := Fresh(name)][0 := dequeued] == map[0 := dequeued];
    run := Extend(run, State(0, map[0 := Fresh(name)], map[], calls), Dequeue(0),
        State(0, map[0 := dequeued], map[], calls));
    assert map[0 := dequeued][0 := working] == map[0 := working];
    run := Extend(run, State(0, map[0 := dequeued], map[], calls), Read(0), State(0, map[0 := working], map[], calls));
    assert map[0 := working][0 := Stale(name)] == map[0 := Stale(name)];
    run := Extend(run, State(0, map[0 := working], map[], calls), FinishPass(0),
        State(0, map[0 := Stale(name)], map[], calls));
  }

  /** The registry has changed, and WakeAll has found nobody to wake. */
  lemma {:induction false} RunToChange(name: string) returns (run: seq<Action>)
    ensures Legal(INITIAL, run)
    ensures After(INITIAL, run) == State(1, map[0 := Stale(name)], map[], map[0 := EngageStarted(name, 0)])
  {
    hide Legal, After, NoReader;
    var units, calls := map[0 := Stale(name)], map[0 := EngageStarted(name, 0)];
    var none: map<string, nat> := map[];
    run := RunToFirstPass(name);
    run := Extend(run, State(0, units, none, calls), ChangeRegistry(1), State(1, units, none, calls[1 := Changed]));
    assert none.Values == {};
    assert calls[1 := Changed][1 := WakingAll({})] == calls[1 := WakingAll({})];
    run := Extend(run, State(1, units, none, calls[1 := Changed]), WakeLock(1),
        State(1, units, none, calls[1 := WakingAll({})]));
    assert calls[1 := WakingAll({})] - {1} == calls;
    run := Extend(run, State(1, units, none, calls[1 := WakingAll({})]), WakeUnlock(1), State(1, units, none, calls));
  }

  /**
   * The wake at the end of Engage is needed: a change can fall between the first pass of the new collector and its
   * insertion in the map. Only the call that is about to wake it then stands between it and staying out of date.
   */
  lemma {:induction false} LastWakeIsNeeded(name: string)
    ensures exists run ::
              && Legal(INITIAL, run)
              && After(INITIAL, run) == State(1, map[0 := Stale(name)], map[name := 0], map[0 := EngageWaking(0)])
  {
    hide Legal, After;
    var calls, last := map[0 := EngageStarted(name, 0)], map[0 := EngageWaking(0)];
    var run := RunToChange(name);
    assert calls[0 := EngageWaking(0)] == last;
    run := Extend(run, State(1, map[0 := Stale(name)], map[], calls), EngageInsert(0),
                  State(1, map[0 := Stale(name)], map[name := 0], last));
  }
}
