// Reconciling one policy: registry, instruments, collectors, and the status that reports what came of it.
module Controller {
  import opened PolicyModel
  import opened Compile
  import opened CompileMeaning
  import opened Permissions
  import Families
  import RuntimeSync
  import Fleet
  import Manager

  /** The snapshot holds exactly the policies in effect. */
  ghost predicate InEffect(compiled: map<string, CompiledPolicy>, policies: seq<Option<CompiledPolicy>>) {
    && (forall name | name in compiled :: Some(compiled[name]) in policies)
    && (forall p | p in policies :: p.Some? && exists name | name in compiled :: compiled[name] == p.value)
  }

  /** The compiled policies in effect, by name. */
  class Registry {
    const env: Environment
    var compiled: map<string, CompiledPolicy>

    constructor (env: Environment)
      ensures this.env == env && compiled == map[]
    {
      this.env := env;
      compiled := map[];
    }

    method Upsert(spec: PolicySpec) returns (cp: CompiledPolicy, errs: seq<CompileError>)
      modifies this
      ensures compiled == old(compiled)[spec.name := cp]
      ensures cp == CompiledPolicy(spec.name, spec.generation, spec.prefix, SlotsOf(env, spec.generators))
      ensures errs == AllErrors(env, spec.name, spec.generators)
    {
      hide SlotsOf, AllErrors;
      cp, errs := CompilePolicy(env, spec);
      compiled := compiled[cp.name := cp];
    }

    method Delete(name: string)
      modifies this
      ensures compiled == old(compiled) - {name}
    {
      compiled := compiled - {name};
    }

    /** Every policy in effect, once, in no particular order. */
    method Snapshot() returns (out: seq<Option<CompiledPolicy>>)
      ensures InEffect(compiled, out) && |out| == |compiled|
    {
      out := [];
      var todo := compiled.Keys;
      while todo != {}
        invariant todo <= compiled.Keys && |out| + |todo| == |compiled|
        invariant forall name | name in compiled && name !in todo :: Some(compiled[name]) in out
        invariant forall p | p in out :: p.Some? && exists name | name in compiled :: compiled[name] == p.value
      {
        var name :| name in todo;
        todo := todo - {name};
        out := out + [Some(compiled[name])];
      }
    }
  }

  datatype GetResult = Found(spec: PolicySpec) | NotFound | GetFailed

  datatype PolicyStatus = PolicyStatus(
    observedGeneration: int, activeGenerators: nat, compilationFailures: nat, missingPermissions: seq<GVR>,
    invalidCEL: bool, permissionDenied: bool, degraded: bool, ready: bool)

  function Active(slots: seq<Option<CompiledGenerator>>): nat {
    if slots == [] then 0 else (if slots[0].Some? then 1 else 0) + Active(slots[1..])
  }

  function Resources(generators: seq<GeneratorSpec>): seq<GVR> {
    if generators == [] then [] else [generators[0].resource] + Resources(generators[1..])
  }

  /** The status that a policy, the control planes and the instrument sync call for. */
  ghost predicate IsStatus(
    env: Environment, spec: PolicySpec, syncFails: bool, statuses: seq<ControlPlaneStatus>, st: PolicyStatus)
  {
    && st.observedGeneration == spec.generation
    && st.activeGenerators == Active(SlotsOf(env, spec.generators))
    && st.compilationFailures == |AllErrors(env, spec.name, spec.generators)|
    && IsMissing(Resources(spec.generators), statuses, st.missingPermissions)
    && st.invalidCEL == (AllErrors(env, spec.name, spec.generators) != [])
    && st.permissionDenied == (st.missingPermissions != [])
    && st.degraded == (st.invalidCEL || st.permissionDenied || syncFails)
    && st.ready == (!st.degraded && st.activeGenerators > 0)
  }

  // ---- What the status means ----

  lemma {:induction false} ActiveSnoc(slots: seq<Option<CompiledGenerator>>, slot: Option<CompiledGenerator>)
    ensures Active(slots + [slot]) == Active(slots) + if slot.Some? then 1 else 0
  {
    if slots == [] {
      assert [] + [slot] == [slot] && [slot][1..] == [];
    } else {
      ActiveSnoc(slots[1..], slot);
      assert (slots + [slot])[1..] == slots[1..] + [slot];
    }
  }

  /** The slots that are taken. */
  lemma {:induction false} ActiveIs(slots: seq<Option<CompiledGenerator>>)
    ensures Active(slots) == |set i | 0 <= i < |slots| && slots[i].Some?|
    decreases |slots|
  {
    if slots != [] {
      var front, last := slots[..|slots| - 1], |slots| - 1;
      ActiveIs(front);
      ActiveSnoc(front, slots[last]);
      assert slots == front + [slots[last]];
      assert (set i | 0 <= i < |slots| && slots[i].Some?)
          == (set i | 0 <= i < |front| && front[i].Some?) + if slots[last].Some? then {last} else {};
    }
  }

  lemma {:induction false} ActiveBounds(slots: seq<Option<CompiledGenerator>>)
    ensures Active(slots) <= |slots|
    ensures Active(slots) == |slots| <==> forall slot | slot in slots :: slot.Some?
  {
    if slots != [] {
      ActiveBounds(slots[1..]);
      assert slots == [slots[0]] + slots[1..];
    }
  }

  lemma {:induction false} ResourcesAre(generators: seq<GeneratorSpec>)
    ensures forall gvr :: gvr in Resources(generators) <==> exists g :: g in generators && g.resource == gvr
  {
    if generators != [] {
      ResourcesAre(generators[1..]);
      assert generators == [generators[0]] + generators[1..];
      forall gvr
        ensures gvr in Resources(generators) <==> exists g :: g in generators && g.resource == gvr
      {
        if g :| g in generators[1..] && g.resource == gvr {
          assert g in generators;
        }
        if gvr == generators[0].resource {
          assert generators[0] in generators;
        }
      }
    }
  }

  /** No generator of the policy reads a resource that some control plane denies. */
  ghost predicate NothingDenied(spec: PolicySpec, statuses: seq<ControlPlaneStatus>) {
    forall g | g in spec.generators :: !DeniedSomewhere(statuses, g.resource)
  }

  lemma {:induction false} MissingMeansDenied(spec: PolicySpec, statuses: seq<ControlPlaneStatus>, missing: seq<GVR>)
    requires IsMissing(Resources(spec.generators), statuses, missing)
    ensures missing == [] <==> NothingDenied(spec, statuses)
  {
    hide DeniedSomewhere, Ordered, Resources;
    ResourcesAre(spec.generators);
    if missing != [] {
      assert missing[0] in missing;
      var g :| g in spec.generators && g.resource == missing[0];
    } else {
      forall g | g in spec.generators
        ensures !DeniedSomewhere(statuses, g.resource)
      {
        assert g.resource !in missing && g.resource in Resources(spec.generators);
      }
    }
  }

  /**
   * Ready means: there is a generator, every expression compiled, so that every generator is active, no control plane
   * denies a resource the policy reads, and the instruments are in place.
   */
  lemma {:induction false} ReadyMeansWorking(
    env: Environment, spec: PolicySpec, syncFails: bool, statuses: seq<ControlPlaneStatus>, st: PolicyStatus)
    requires IsStatus(env, spec, syncFails, statuses, st)
    ensures st.ready <==>
              && spec.generators != [] && AllErrors(env, spec.name, spec.generators) == []
              && NothingDenied(spec, statuses) && !syncFails
    ensures st.ready ==> st.activeGenerators == |spec.generators|
  {
    hide AllErrors, SlotsOf, IsMissing, NothingDenied, Active, Resources;
    MissingMeansDenied(spec, statuses, st.missingPermissions);
    SlotsAligned(env, spec.generators);
    ActiveBounds(SlotsOf(env, spec.generators));
    if AllErrors(env, spec.name, spec.generators) == [] {
      NoErrorsAllActive(env, spec.name, spec.generators);
    }
  }

  lemma {:induction false} SomeActive(slots: seq<Option<CompiledGenerator>>)
    ensures Active(slots) == |set i | 0 <= i < |slots| && slots[i].Some?|
    ensures Active(slots) > 0 <==> exists i | 0 <= i < |slots| :: slots[i].Some?
  {
    ActiveIs(slots);
    hide Active;
    var active := set i | 0 <= i < |slots| && slots[i].Some?;
    if i :| 0 <= i < |slots| && slots[i].Some? {
      assert i in active;
    }
    if active != {} {
      var i :| i in active;
    }
  }

  /** Some generator of the policy reads the resource. */
  ghost predicate ReadBy(spec: PolicySpec, gvr: GVR) {
    exists g :: g in spec.generators && g.resource == gvr
  }

  lemma {:induction false} MissingAre(spec: PolicySpec, statuses: seq<ControlPlaneStatus>, missing: seq<GVR>)
    requires IsMissing(Resources(spec.generators), statuses, missing)
    ensures forall gvr :: gvr in missing <==> ReadBy(spec, gvr) && DeniedSomewhere(statuses, gvr)
    ensures missing == [] <==> NothingDenied(spec, statuses)
  {
    ResourcesAre(spec.generators);
    MissingMeansDenied(spec, statuses, missing);
    hide Resources, DeniedSomewhere, Ordered, NothingDenied;
  }

  /**
   * The numbers and conditions of the status, in terms of what compiled and what is denied: `cp` and `errs` are what
   * compiling the specification comes to.
   */
  ghost predicate Reports(
    spec: PolicySpec, cp: CompiledPolicy, errs: seq<CompileError>, syncFails: bool, statuses: seq<ControlPlaneStatus>,
    st: PolicyStatus)
  {
    && st.observedGeneration == spec.generation
    && st.activeGenerators == |set i | 0 <= i < |cp.generators| && cp.generators[i].Some?|
    && st.compilationFailures == |errs|
    && (forall gvr :: gvr in st.missingPermissions <==>
          ReadBy(spec, gvr) && DeniedSomewhere(statuses, gvr))
    && (st.invalidCEL <==> errs != []) && (st.permissionDenied <==> !NothingDenied(spec, statuses))
    && (st.degraded <==> errs != [] || !NothingDenied(spec, statuses) || syncFails)
    && (st.ready <==> !st.degraded && exists i | 0 <= i < |cp.generators| :: cp.generators[i].Some?)
  }

  lemma {:induction false} StatusReports(
    env: Environment, spec: PolicySpec, syncFails: bool, statuses: seq<ControlPlaneStatus>, st: PolicyStatus)
    returns (cp: CompiledPolicy, errs: seq<CompileError>)
    requires IsStatus(env, spec, syncFails, statuses, st)
    ensures PolicyCompiled(env, spec, cp, errs) && Reports(spec, cp, errs, syncFails, statuses, st)
  {
    cp := CompiledPolicy(spec.name, spec.generation, spec.prefix, SlotsOf(env, spec.generators));
    errs := AllErrors(env, spec.name, spec.generators);
    PolicyMeans(env, spec);
    SomeActive(cp.generators);
    MissingAre(spec, statuses, st.missingPermissions);
    hide SlotsOf, AllErrors, PolicyCompiled, Resources, NothingDenied, DeniedSomewhere, Active, IsMissing, ReadBy;
  }

  // ---- The reconciler ----

  /** The families the snapshot asks for. */
  function Asked(runtime: RuntimeSync.Runtime, policies: seq<Option<CompiledPolicy>>): map<string, string> {
    Families.KeepFirst(Families.Declares(runtime.defaultPrefix, policies), map[])
  }

  /**
   * The call announced a registry change: it made it known in the state `before`, then took the read lock in the state
   * `seen`, and woke every collector that was in the map there.
   */
  ghost predicate Announced(
    log: seq<Fleet.Action>, before: Fleet.State, longer: seq<Fleet.Action>, t: nat, seen: Fleet.State)
  {
    && log <= longer && Fleet.Took(longer, |log|, before, Fleet.ChangeRegistry(t))
    && Fleet.Took(longer, |log|, seen, Fleet.WakeLock(t)) && seen.version > before.version
    && forall name | name in seen.collectors :: Fleet.WokeOne(longer, |log|, t, seen.collectors[name])
  }

  method CountActive(slots: seq<Option<CompiledGenerator>>) returns (n: nat)
    ensures n == Active(slots)
  {
    n := 0;
    for i := 0 to |slots|
      invariant n + Active(slots[i..]) == Active(slots)
    {
      assert slots[i..][1..] == slots[i + 1..];
      if slots[i].Some? {
        n := n + 1;
      }
    }
  }

  method ResourcesOf(generators: seq<GeneratorSpec>) returns (resources: seq<GVR>)
    ensures resources == Resources(generators)
  {
    resources := [];
    for i := 0 to |generators|
      invariant resources + Resources(generators[i..]) == Resources(generators)
    {
      assert generators[i..][1..] == generators[i + 1..];
      assert resources + ([generators[i].resource] + Resources(generators[i + 1..]))
          == (resources + [generators[i].resource]) + Resources(generators[i + 1..]);
      resources := resources + [generators[i].resource];
    }
    assert resources + [] == resources;
  }

  class PolicyReconciler {
    const registry: Registry
    const runtime: RuntimeSync.Runtime
    const manager: Manager.ClusterManager

    constructor (registry: Registry, runtime: RuntimeSync.Runtime, manager: Manager.ClusterManager)
      ensures this.registry == registry && this.runtime == runtime && this.manager == manager
    {
      this.registry, this.runtime, this.manager := registry, runtime, manager;
    }

    ghost predicate Ready()
      reads runtime, manager
    {
      RuntimeSync.Consistent(runtime.Now()) && manager.Follows()
    }

    /**
     * What follows a registry change: the instruments are brought in line with the registry as it now is, and every
     * engaged collector is woken. `t` names the call in the collectors' protocol, and `seen` is the state in which it
     * took the read lock.
     */
    method Announce(t: nat, create: string -> RuntimeSync.Creation, unregisterFails: nat -> bool)
      returns (syncError: Option<string>, ghost policies: seq<Option<CompiledPolicy>>, ghost seen: Fleet.State)
      requires Ready() && t !in manager.calls
      modifies runtime, manager
      ensures Ready() && t !in manager.calls
      ensures Announced(old(manager.log), old(manager.Now()), manager.log, t, seen)
      ensures InEffect(registry.compiled, policies)
      ensures RuntimeSync.Synced(old(runtime.Now()), Asked(runtime, policies), create, unregisterFails, runtime.Now())
      ensures syncError == None <==>
                forall family :: !RuntimeSync.Failing(old(runtime.Now()), Asked(runtime, policies), create, family)
    {
      hide Fleet.LeadsTo, Fleet.Took, Fleet.WokeOne, InEffect, RuntimeSync.Synced, RuntimeSync.Failing,
          RuntimeSync.Consistent, Families.KeepFirst, Families.Declares;
      ghost var from, before := manager.log, manager.Now();
      manager.ChangeRegistry(t);
      ghost var changed := manager.log;
      var snapshot := registry.Snapshot();
      policies := snapshot;
      syncError := runtime.Sync(snapshot, create, unregisterFails);
      seen := manager.WakeAll(t);
      Fleet.TookLater(changed, manager.log, |from|, before, Fleet.ChangeRegistry(t));
      Fleet.TookFrom(manager.log, |changed|, |from|, seen, Fleet.WakeLock(t));
      Fleet.WokeOneFrom(manager.log, |changed|, |from|, t);
    }

    /** `got` is the answer to the read of the policy, `statuses` what the collectors report after being woken. */
    method Reconcile(
      t: nat, cluster: string, name: string, got: GetResult, create: string -> RuntimeSync.Creation,
      unregisterFails: nat -> bool, statuses: seq<ControlPlaneStatus>)
      returns (failed: bool, status: Option<PolicyStatus>, syncError: Option<string>,
               ghost policies: seq<Option<CompiledPolicy>>, ghost seen: Fleet.State)
      requires Ready() && t !in manager.calls && (got.Found? ==> got.spec.name == name)
      modifies registry, runtime, manager
      ensures Ready() && t !in manager.calls
      ensures failed <==> cluster == "" && got.GetFailed?
      ensures cluster != "" || got.GetFailed? ==>
                && registry.compiled == old(registry.compiled)
                && runtime.Now() == old(runtime.Now()) && manager.Now() == old(manager.Now())
      ensures cluster == "" && !got.GetFailed? ==>
                && Announced(old(manager.log), old(manager.Now()), manager.log, t, seen)
                && InEffect(registry.compiled, policies)
                && RuntimeSync.Synced(old(runtime.Now()), Asked(runtime, policies), create, unregisterFails,
                    runtime.Now())
                && (syncError == None <==>
                      forall family :: !RuntimeSync.Failing(old(runtime.Now()), Asked(runtime, policies), create,
                          family))
      ensures cluster == "" && got.NotFound? ==> registry.compiled == old(registry.compiled) - {name}
      ensures cluster == "" && got.Found? ==>
                && name in registry.compiled
                && registry.compiled == old(registry.compiled)[name := registry.compiled[name]]
                && registry.compiled[name].generators == SlotsOf(registry.env, got.spec.generators)
      ensures status.Some? <==> cluster == "" && got.Found?
      ensures status.Some? ==> IsStatus(registry.env, got.spec, syncError.Some?, statuses, status.value)
    {
      hide SlotsOf, AllErrors, IsMissing, Resources, Active, Asked, InEffect, Ready, Announced, RuntimeSync.Synced,
          RuntimeSync.Failing;
      policies, syncError, seen := [], None, manager.Now();
      if cluster != "" {
        return false, None, None, [], seen;
      }
      match got
      case GetFailed => return true, None, None, [], seen;
      case NotFound =>
        registry.Delete(name);
        syncError, policies, seen := Announce(t, create, unregisterFails);
        failed, status := false, None;
      case Found(spec) =>
        var compiled, errs := CompilePolicy(registry.env, spec);
        var _, _ := registry.Upsert(spec);
        syncError, policies, seen := Announce(t, create, unregisterFails);
        var active := CountActive(compiled.generators);
        var resources := ResourcesOf(spec.generators);
        var missing := AggregateMissingPermissions(resources, statuses);
        var invalidCEL, permissionDenied := errs != [], missing != [];
        var degraded := invalidCEL || permissionDenied || syncError.Some?;
        status := Some(PolicyStatus(
          spec.generation, active, |errs|, missing, invalidCEL, permissionDenied, degraded, !degraded && active > 0));
        failed := false;
    }
  }
}
