// One collection cycle: the reader calls the callback of every family that the runtime keeps.
module Collection {
  import opened PolicyModel
  import opened Budget
  import opened Builder
  import opened Build
  import opened Families
  import opened Observe
  import opened Coverage
  import opened InOrder
  import opened BuildMeaning
  import opened ObserveMeaning
  import opened RuntimeSync

  /** What one callback observed, and whether its budget ran out. */
  datatype Observed = Observed(observations: seq<Observation>, cut: bool)

  predicate NothingCut(observed: map<nat, Observed>) {
    forall r | r in observed :: !observed[r].cut
  }

  /** A callback observes a prefix of the emissions under its name, and all of them unless its budget ran out. */
  predicate Faithful(all: seq<Tagged>, name: string, o: Observed) {
    o.observations <= Named(name, all) && (!o.cut ==> o.observations == Named(name, all))
  }

  // ---- How often an emission is observed ----

  /** The callbacks that the meter calls for a family name. */
  function CallbacksOf(live: map<nat, Callback>, name: string): set<nat> {
    set r | r in live && live[r] == ObserveFamily(name)
  }

  /** How many observations there are when every callback of its name observes every emission. */
  function Times(live: map<nat, Callback>, all: seq<Tagged>): nat {
    if all == [] then 0 else |CallbacksOf(live, all[0].name)| + Times(live, all[1..])
  }

  /** The callbacks that no entry owns, because they failed to unregister. */
  function Leaked(s: State): map<nat, Callback> {
    map r | r in s.live && !Owned(s, r) :: s.live[r]
  }

  /** No emission has the name of such a callback. */
  ghost predicate NoneRepeated(s: State, all: seq<Tagged>) {
    forall r, t | r in Leaked(s) && t in all :: s.live[r] != ObserveFamily(t.name)
  }

  function CountIn(all: seq<Tagged>, names: set<string>): nat {
    if all == [] then 0 else (if all[0].name in names then 1 else 0) + CountIn(all[1..], names)
  }

  lemma {:induction false} CountWithin(all: seq<Tagged>, names: set<string>)
    requires NamesWithin(all, names)
    ensures CountIn(all, names) == |all|
  {
    if all != [] {
      assert all[0] in all;
      CountWithin(all[1..], names);
    }
  }

  /** One more callback observes what is emitted under its name. */
  lemma {:induction false} OneMoreCallback(live: map<nat, Callback>, r: nat, name: string, all: seq<Tagged>)
    requires r !in live
    ensures Times(live[r := ObserveFamily(name)], all) == Times(live, all) + |Named(name, all)|
  {
    if all != [] {
      OneMoreCallback(live, r, name, all[1..]);
      var more := live[r := ObserveFamily(name)];
      assert CallbacksOf(more, all[0].name)
          == CallbacksOf(live, all[0].name) + if all[0].name == name then {r} else {};
    }
  }

  lemma {:induction false} TimesAgree(a: map<nat, Callback>, b: map<nat, Callback>, all: seq<Tagged>)
    requires forall name :: CallbacksOf(a, name) == CallbacksOf(b, name)
    ensures Times(a, all) == Times(b, all)
  {
    hide CallbacksOf;
    if all != [] {
      TimesAgree(a, b, all[1..]);
    }
  }

  lemma {:induction false} TimesNone(live: map<nat, Callback>, all: seq<Tagged>)
    ensures Times(live, all) == 0 <==> forall t | t in all :: CallbacksOf(live, t.name) == {}
  {
    hide CallbacksOf;
    if all != [] {
      TimesNone(live, all[1..]);
      assert all == [all[0]] + all[1..];
    }
  }

  /** The callbacks of a name: that of its entry, and those that leaked. */
  lemma {:induction false} OwnerAndLeaked(s: State, name: string)
    requires Consistent(s)
    ensures |CallbacksOf(s.live, name)| == (if name in s.families then 1 else 0) + |CallbacksOf(Leaked(s), name)|
  {
    var owner := if name in s.families then {s.families[name].registration} else {};
    forall r | r in CallbacksOf(s.live, name) && Owned(s, r)
      ensures r in owner
    {
      var n :| n in s.families && s.families[n].registration == r;
      assert n == name;
    }
    forall r | r in owner
      ensures r in CallbacksOf(s.live, name) && Owned(s, r)
    {
      assert OwnedByFamily(s, r);
    }
    assert CallbacksOf(s.live, name) == owner + CallbacksOf(Leaked(s), name);
  }

  /** Every emission with an entry is observed once by it, and again by every leaked callback of its name. */
  lemma {:induction false} TimesSplit(s: State, all: seq<Tagged>)
    requires Consistent(s)
    ensures Times(s.live, all) == CountIn(all, s.families.Keys) + Times(Leaked(s), all)
  {
    hide CallbacksOf, Leaked, Consistent;
    if all != [] {
      TimesSplit(s, all[1..]);
      OwnerAndLeaked(s, all[0].name);
    }
  }

  /** With the families in place, everything is observed exactly once if and only if no leaked callback repeats it. */
  lemma {:induction false} OnceUnlessRepeated(s: State, all: seq<Tagged>)
    requires Consistent(s) && NamesWithin(all, s.families.Keys)
    ensures Times(s.live, all) == |all| + Times(Leaked(s), all)
    ensures Times(s.live, all) == |all| <==> NoneRepeated(s, all)
  {
    TimesSplit(s, all);
    CountWithin(all, s.families.Keys);
    TimesNone(Leaked(s), all);
    hide Times, Consistent, Owned, Named, NamesWithin;
    if Times(Leaked(s), all) == 0 {
      forall r, t | r in Leaked(s) && t in all
        ensures s.live[r] != ObserveFamily(t.name)
      {
        assert r !in CallbacksOf(Leaked(s), t.name);
      }
    } else {
      var t :| t in all && CallbacksOf(Leaked(s), t.name) != {};
      var r :| r in CallbacksOf(Leaked(s), t.name);
    }
  }

  // ---- Over whole runs of synchronisations ----

  lemma {:induction false} WhereGivenUp(states: seq<State>, rounds: seq<Round>, k: nat, r: nat) returns (j: nat)
    requires SyncRun(states, rounds) && k <= |rounds| && r in states[k].live && !Owned(states[k], r)
    ensures j < k && GivenUp(states, rounds, j, r, states[k].live[r])
  {
    LeaksOverRuns(states, rounds, k, r);
    j :| 0 <= j < k && Owned(states[j], r) && !Owned(states[j + 1], r) && rounds[j].unregisterFails(r);
    assert Consistent(states[j]);
    assert r in states[j].live;
    hide Owned, Consistent;
    GivenUpStays(states, rounds, j, k, r, states[j].live[r]);
  }

  /**
   * After a round without failures, everything is observed exactly once if and only if no round so far gave up a
   * callback for the name of an emission that did not unregister.
   */
  lemma {:induction false} OnceOverRuns(states: seq<State>, rounds: seq<Round>, k: nat, all: seq<Tagged>)
    requires SyncRun(states, rounds) && k < |rounds| && NamesWithin(all, rounds[k].desired.Keys)
    requires forall name :: !Failing(states[k], rounds[k].desired, rounds[k].create, name)
    ensures Times(states[k + 1].live, all) == |all| <==>
            forall j: nat, r, t | j <= k && t in all :: !GivenUp(states, rounds, j, r, ObserveFamily(t.name))
    ensures Times(states[k + 1].live, all) >= |all|
  {
    var s := states[k + 1];
    assert Synced(states[k], rounds[k].desired, rounds[k].create, rounds[k].unregisterFails, s) && Consistent(s);
    assert NamesWithin(all, s.families.Keys);
    OnceUnlessRepeated(s, all);
    hide Times, NamesWithin, Failing;
    if !NoneRepeated(s, all) {
      var r, t :| r in Leaked(s) && t in all && s.live[r] == ObserveFamily(t.name);
      var j := WhereGivenUp(states, rounds, k + 1, r);
    }
    if j: nat, r, t :| j <= k && t in all && GivenUp(states, rounds, j, r, ObserveFamily(t.name)) {
      GivenUpStays(states, rounds, j, k + 1, r, ObserveFamily(t.name));
      assert r in Leaked(s);
    }
  }

  predicate StaysRegistered(r: nat) {
    r == 1
  }

  function AlwaysCreated(name: string): Creation {
    Created
  }

  /** The help text of the only family, as two policies after each other ask for it. */
  function RoundWith(name: string, help: string): Round {
    Round(map[name := help], AlwaysCreated, StaysRegistered)
  }

  function AfterFirst(name: string, help: string): State {
    State(map[name := FamilyEntry(1, help)], map[0 := ObserveProjectUp, 1 := ObserveFamily(name)], 2, Some(0))
  }

  function AfterSecond(name: string, other: string): State {
    State(map[name := FamilyEntry(2, other)],
          map[0 := ObserveProjectUp, 1 := ObserveFamily(name), 2 := ObserveFamily(name)], 3, Some(0))
  }

  lemma {:induction false} FirstRound(name: string, help: string)
    ensures Consistent(FRESH) && Consistent(AfterFirst(name, help))
    ensures Synced(FRESH, map[name := help], AlwaysCreated, StaysRegistered, AfterFirst(name, help))
  {
    var t := AfterFirst(name, help);
    assert t.families[name].registration == 1;
    assert OwnedByFamily(t, 1) && Owned(FRESH, 0) && Owned(t, 0);
  }

  lemma {:induction false} SecondRound(name: string, help: string, other: string)
    requires help != other
    ensures Consistent(AfterSecond(name, other))
    ensures Synced(AfterFirst(name, help), map[name := other], AlwaysCreated, StaysRegistered, AfterSecond(name, other))
    ensures forall n :: !Failing(AfterFirst(name, help), map[name := other], AlwaysCreated, n)
  {
    var s, t := AfterFirst(name, help), AfterSecond(name, other);
    assert s.families[name].registration == 1 && t.families[name].registration == 2;
    assert OwnedByFamily(s, 1) && OwnedByFamily(t, 2) && Owned(s, 0) && Owned(t, 0);
  }

  lemma {:induction false} DriftRun(name: string, help: string, other: string)
    requires help != other
    ensures SyncRun([FRESH, AfterFirst(name, help), AfterSecond(name, other)],
                    [RoundWith(name, help), RoundWith(name, other)])
  {
    FirstRound(name, help);
    SecondRound(name, help, other);
    hide Consistent, Synced, AfterFirst, AfterSecond;
  }

  lemma {:induction false} ObservedTwice(live: map<nat, Callback>, name: string, all: seq<Tagged>)
    requires NamesWithin(all, {name}) && |CallbacksOf(live, name)| == 2
    ensures Times(live, all) == 2 * |all|
  {
    hide CallbacksOf;
    if all != [] {
      assert all[0] in all;
      ObservedTwice(live, name, all[1..]);
    }
  }

  /**
   * When the help text drifts and the first callback does not unregister, a synchronisation without failures leaves two
   * callbacks for the name, and everything is observed twice.
   */
  lemma {:induction false} DriftRepeats(name: string, help: string, other: string, all: seq<Tagged>)
    requires help != other && NamesWithin(all, {name})
    ensures SyncRun([FRESH, AfterFirst(name, help), AfterSecond(name, other)],
                    [RoundWith(name, help), RoundWith(name, other)])
    ensures forall n :: !Failing(AfterFirst(name, help), map[name := other], AlwaysCreated, n)
    ensures Times(AfterSecond(name, other).live, all) == 2 * |all|
  {
    assert CallbacksOf(AfterSecond(name, other).live, name) == {1, 2};
    hide SyncRun, Consistent, Synced, Failing, AfterFirst, AfterSecond, RoundWith, Times, CallbacksOf;
    DriftRun(name, help, other);
    SecondRound(name, help, other);
    ObservedTwice(AfterSecond(name, other).live, name, all);
  }

  // ---- One cycle ----

  /** Limits that are not positive leave no time, or no evaluation. */
  function FreshBudget(duration: int, maxEvals: int, clock: nat -> bool): BudgetState {
    Limited(if maxEvals > 0 then maxEvals else 0, 0, if duration > 0 then clock else (n: nat) => true)
  }

  /** The same count, and clocks that tell the same time. */
  ghost predicate SameBudget(a: BudgetState, b: BudgetState) {
    && a.Limited? && b.Limited? && a.remaining == b.remaining && a.asked == b.asked
    && forall n: nat :: a.expired(n) == b.expired(n)
  }


  lemma {:induction false} SameBudgetRuns(events: seq<Event<Observation>>, a: BudgetState, b: BudgetState)
    requires SameBudget(a, b)
    ensures forall k, outputs, errors | Ran(events, b, k, outputs, errors) :: Ran(events, a, k, outputs, errors)
  {
    hide Picked, Evaluations;
    assert forall n: nat :: Refused(a, n) <==> Refused(b, n);
    forall k: nat, outputs, errors | Ran(events, b, k, outputs, errors)
      ensures Ran(events, a, k, outputs, errors)
    {
      if k < |events| {
        assert CutError(events[k], a, Evaluations(events[..k])) == CutError(events[k], b, Evaluations(events[..k]));
      }
    }
  }

  /** What the callback does in full, or up to where its budget refuses an evaluation. */
  ghost predicate Observes(
    target: Target, policies: Families.Snapshot, collectors: seq<CollectorView>, b: BudgetState, o: Observed) {
    exists seen, k: nat, errors ::
      CallbackDoes(target, policies, collectors, seen) && Ran(seen, b, k, o.observations, errors) &&
      (o.cut <==> k < |seen|)
  }

  lemma {:induction false} ExecObserves(
    target: Target, policies: Families.Snapshot, collectors: seq<CollectorView>, a: BudgetState, b: BudgetState)
    requires SameBudget(a, b)
    ensures var run := Exec(FamilyTrace(target, policies, collectors), b);
            Observes(target, policies, collectors, a, Observed(run.outputs, run.stopped))
  {
    var events := FamilyTrace(target, policies, collectors);
    FamilyMeans(target, policies, collectors);
    ExecRan(events, b);
    SameBudgetRuns(events, a, b);
    hide FamilyTrace, Exec, CallbackDoes, Ran, Completed, SameBudget;
  }

  /** One callback invocation, with a budget of its own. */
  method ObserveOne(
    ev: Evaluator, name: string, defaultPrefix: string, policies: Families.Snapshot, collectors: seq<CollectorView>,
    duration: int, maxEvals: int, clock: nat -> bool) returns (o: Observed)
    ensures Faithful(AllEmissions(World(ev, defaultPrefix), policies, collectors), name, o)
    ensures Observes(Target(ev, name, defaultPrefix), policies, collectors, FreshBudget(duration, maxEvals, clock), o)
    ensures !o.cut <== duration > 0 && (forall n :: !clock(n)) &&
                       maxEvals >= Evaluations(FamilyTrace(Target(ev, name, defaultPrefix), policies, collectors))
  {
    var target := Target(ev, name, defaultPrefix);
    ghost var events := FamilyTrace(target, policies, collectors);
    var observer := new Observer<Observation>();
    var budget := new CycleBudget(duration, maxEvals, clock);
    var callback := new FamilyCallback(target, observer, budget);
    ghost var start, allowance := StateOf(budget), FreshBudget(duration, maxEvals, clock);
    assert SameBudget(allowance, start);
    assert duration > 0 && (forall n :: !clock(n)) ==> forall n :: !budget.expired(n);
    hide FamilyTrace, AllEmissions, Exec, Named, BudgetErrorLast, FreshBudget, Observes, Evaluations, SameBudget;
    BudgetedObservationsArePrefix(World(ev, defaultPrefix), name, policies, collectors, start);
    if duration > 0 && (forall n :: !clock(n)) && maxEvals >= Evaluations(events) {
      AmpleBudgetRunsAll(events, start);
    }
    ExecObserves(target, policies, collectors, allowance, start);
    callback.ObserveFamily(policies, collectors);
    o := Observed(observer.log, callback.budgetLogged);
    assert o == Observed(Exec(events, start).outputs, Exec(events, start).stopped);
  }

  /** After the callbacks of `done`. */
  ghost predicate SoFar(all: seq<Tagged>, done: map<nat, Callback>, observed: map<nat, Observed>, total: nat) {
    && done.Keys == observed.Keys
    && (forall r | r in done :: done[r].ObserveFamily? && Faithful(all, done[r].name, observed[r]))
    && total <= Times(done, all) && (NothingCut(observed) ==> total == Times(done, all))
  }

  lemma {:induction false} NothingSoFar(all: seq<Tagged>)
    ensures SoFar(all, map[], map[], 0)
  {
    TimesNone(map[], all);
  }

  lemma {:induction false} OneMore(
    all: seq<Tagged>, done: map<nat, Callback>, observed: map<nat, Observed>, total: nat, r: nat, name: string,
    o: Observed)
    requires SoFar(all, done, observed, total) && r !in done && Faithful(all, name, o)
    ensures SoFar(all, done[r := ObserveFamily(name)], observed[r := o], total + |o.observations|)
  {
    OneMoreCallback(done, r, name, all);
    assert |o.observations| <= |Named(name, all)| && (!o.cut ==> |o.observations| == |Named(name, all)|);
    hide Faithful, Times, Named;
    var more := observed[r := o];
    assert NothingCut(more) ==> NothingCut(observed) && !more[r].cut by {
      assert forall q | q in observed :: q in more && more[q] == observed[q];
    }
  }

  lemma {:induction false} AllSoFar(
    all: seq<Tagged>, done: map<nat, Callback>, observed: map<nat, Observed>, total: nat)
    requires SoFar(all, done, observed, total)
    ensures observed.Keys == done.Keys
    ensures forall r | r in observed :: done[r].ObserveFamily? && Faithful(all, done[r].name, observed[r])
    ensures total <= Times(done, all) && (NothingCut(observed) ==> total == Times(done, all))
  {}

  /** The callbacks of families, those that leaked included. */
  function FamilyCallbacks(live: map<nat, Callback>): map<nat, Callback> {
    map r | r in live && live[r].ObserveFamily? :: live[r]
  }

  lemma {:induction false} OnlyFamiliesCount(live: map<nat, Callback>, all: seq<Tagged>)
    ensures Times(FamilyCallbacks(live), all) == Times(live, all)
  {
    forall name
      ensures CallbacksOf(FamilyCallbacks(live), name) == CallbacksOf(live, name)
    {}
    TimesAgree(FamilyCallbacks(live), live, all);
  }

  /** These callbacks, one after the other, in any order. */
  method CallAll(
    ev: Evaluator, callbacks: map<nat, Callback>, defaultPrefix: string, policies: Families.Snapshot,
    collectors: seq<CollectorView>, duration: int, maxEvals: int, clocks: nat -> nat -> bool)
    returns (observed: map<nat, Observed>, total: nat)
    requires forall r | r in callbacks :: callbacks[r].ObserveFamily?
    ensures SoFar(AllEmissions(World(ev, defaultPrefix), policies, collectors), callbacks, observed, total)
  {
    ghost var all := AllEmissions(World(ev, defaultPrefix), policies, collectors);
    hide AllEmissions, Faithful, Observes, FreshBudget, FamilyTrace, Evaluations, SoFar;
    observed, total := map[], 0;
    var todo := callbacks.Keys;
    ghost var done: map<nat, Callback> := map[];
    NothingSoFar(all);
    while todo != {}
      invariant todo <= callbacks.Keys && done.Keys == callbacks.Keys - todo
      invariant forall r | r in done :: done[r] == callbacks[r]
      invariant SoFar(all, done, observed, total)
      decreases todo
    {
      var r :| r in todo;
      todo := todo - {r};
      var o := ObserveOne(ev, callbacks[r].name, defaultPrefix, policies, collectors, duration, maxEvals, clocks(r));
      OneMore(all, done, observed, total, r, callbacks[r].name, o);
      observed, total := observed[r := o], total + |o.observations|;
      done := done[r := callbacks[r]];
    }
    assert done == callbacks;
  }

  /** The reader calls every callback that is registered. */
  method Collect(
    ev: Evaluator, runtime: Runtime, policies: Families.Snapshot, collectors: seq<CollectorView>,
    duration: int, maxEvals: int, clocks: nat -> nat -> bool)
    returns (observed: map<nat, Observed>, total: nat)
    ensures observed.Keys == FamilyCallbacks(runtime.live).Keys
    ensures var all := AllEmissions(World(ev, runtime.defaultPrefix), policies, collectors);
            && (forall r | r in observed :: Faithful(all, runtime.live[r].name, observed[r]))
            && total <= Times(runtime.live, all) && (NothingCut(observed) ==> total == Times(runtime.live, all))
  {
    ghost var all := AllEmissions(World(ev, runtime.defaultPrefix), policies, collectors);
    OnlyFamiliesCount(runtime.live, all);
    hide AllEmissions, Faithful, Times, NothingCut, SoFar;
    var callbacks := FamilyCallbacks(runtime.live);
    observed, total := CallAll(
      ev, callbacks, runtime.defaultPrefix, policies, collectors, duration, maxEvals, clocks);
    AllSoFar(all, callbacks, observed, total);
  }

  lemma {:induction false} AfterSync(
    w: World, policies: Families.Snapshot, collectors: seq<CollectorView>, s: State, create: string -> Creation,
    unregisterFails: nat -> bool, t: State)
    requires Consistent(t)
    requires Synced(s, KeepFirst(Declares(w.defaultPrefix, policies), map[]), create, unregisterFails, t)
    ensures var all := AllEmissions(w, policies, collectors);
            && Times(t.live, all) == CountIn(all, t.families.Keys) + Times(Leaked(t), all)
            && ((forall n :: !Failing(s, KeepFirst(Declares(w.defaultPrefix, policies), map[]), create, n)) ==>
                  && CountIn(all, t.families.Keys) == |all|
                  && (Times(t.live, all) == |all| <==> NoneRepeated(t, all))
                  && ((forall r | r in s.live :: Owned(s, r) && !unregisterFails(r)) ==> Times(t.live, all) == |all|))
  {
    var all, desired := AllEmissions(w, policies, collectors), KeepFirst(Declares(w.defaultPrefix, policies), map[]);
    TimesSplit(t, all);
    EmissionsHaveFamilies(w, policies, collectors);
    hide AllEmissions, KeepFirst, Declares, Times, CountIn, Consistent, Owned, Failing;
    if forall n :: !Failing(s, desired, create, n) {
      assert NamesWithin(all, t.families.Keys);
      CountWithin(all, t.families.Keys);
      OnceUnlessRepeated(t, all);
      if forall r | r in s.live :: Owned(s, r) && !unregisterFails(r) {
        SyncedCallbacks(s, desired, create, unregisterFails, t);
      }
    }
  }

  /**
   * A synchronisation and then a collection over the same snapshot: what the callbacks observe when no budget runs out,
   * and exactly when it is every emission of every control plane that is up once.
   */
  method SyncAndCollect(
    ev: Evaluator, runtime: Runtime, policies: Families.Snapshot, collectors: seq<CollectorView>,
    create: string -> Creation, unregisterFails: nat -> bool, duration: int, maxEvals: int,
    clocks: nat -> nat -> bool)
    returns (syncError: Option<string>, observed: map<nat, Observed>, total: nat)
    requires Consistent(runtime.Now())
    modifies runtime
    ensures Consistent(runtime.Now()) && observed.Keys == FamilyCallbacks(runtime.live).Keys
    ensures var all, now := AllEmissions(World(ev, runtime.defaultPrefix), policies, collectors), runtime.Now();
            && (forall r | r in observed :: Faithful(all, runtime.live[r].name, observed[r]))
            && total <= CountIn(all, runtime.families.Keys) + Times(Leaked(now), all)
            && (NothingCut(observed) ==> total == CountIn(all, runtime.families.Keys) + Times(Leaked(now), all))
            && (NothingCut(observed) && syncError == None ==>
                  && CountIn(all, runtime.families.Keys) == |all|
                  && (total == |all| <==> NoneRepeated(now, all))
                  && ((forall r | r in old(runtime.live) :: old(Owned(runtime.Now(), r)) && !unregisterFails(r)) ==>
                        total == |all|))
  {
    ghost var all := AllEmissions(World(ev, runtime.defaultPrefix), policies, collectors);
    ghost var start := runtime.Now();
    syncError := runtime.Sync(policies, create, unregisterFails);
    AfterSync(World(ev, runtime.defaultPrefix), policies, collectors, start, create, unregisterFails, runtime.Now());
    hide AllEmissions, KeepFirst, Declares, Faithful, Consistent, NothingCut, Times, Owned, Synced, CountIn;
    observed, total := Collect(ev, runtime, policies, collectors, duration, maxEvals, clocks);
  }
}
