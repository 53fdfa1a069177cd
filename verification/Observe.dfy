// The callback of one metric family: every control plane, policy and generator under one shared budget.
module Observe {
  import opened Paths
  import opened PolicyModel
  import opened Budget
  import opened Builder
  import opened Build
  import opened Families

  datatype Collected = Collected(gvr: GVR, objects: seq<Value>)

  datatype CollectorView = CollectorView(cluster: string, up: bool, collected: seq<Collected>)

  /** One data point: the control plane it belongs to, and what was measured. */
  datatype Observation = Observation(project: string, controlPlane: string, value: real, labels: seq<LabelPair>)

  function ObservationOf(cluster: string, m: Measurement): Observation {
    Observation(if cluster != "" && cluster[0] == '/' then cluster[1..] else cluster,
                if cluster == "root" then "root" else "project", m.value, m.labels)
  }

  /** The objects collected for a resource; a repeated resource takes its last list. */
  function ObjectsFor(collected: seq<Collected>, gvr: GVR): seq<Value> {
    if collected == [] then []
    else
      var last := collected[|collected| - 1];
      if last.gvr == gvr then last.objects else ObjectsFor(collected[..|collected| - 1], gvr)
  }

  /** What the callback of `name` observes of a measurement. */
  function ForFamily(name: string, prefix: string, cluster: string): Measurement -> seq<Observation> {
    (m: Measurement) => if FamilyMetricName(prefix, m.family) == name then [ObservationOf(cluster, m)] else []
  }

  predicate Relevant(name: string, prefix: string, families: seq<Option<CompiledFamily>>) {
    exists f | f in families :: f.Some? && FamilyMetricName(prefix, f.value.name) == name
  }

  // ---- The unbudgeted callback ----

  datatype Target = Target(ev: Evaluator, name: string, defaultPrefix: string)

  function GeneratorTrace(
    s: Target, c: CollectorView, p: CompiledPolicy, gen: Option<CompiledGenerator>): seq<Event<Observation>> {
    var prefix := EffectivePrefix(p.prefix, s.defaultPrefix);
    if gen.None? || !Relevant(s.name, prefix, gen.value.families) ||
        ObjectsFor(c.collected, gen.value.resource) == [] then []
    else Project(ForFamily(s.name, prefix, c.cluster),
                 Trace(s.ev, p.name, gen.value, ObjectsFor(c.collected, gen.value.resource)))
  }

  function GeneratorsTrace(
    s: Target, c: CollectorView, p: CompiledPolicy,
    generators: seq<Option<CompiledGenerator>>): seq<Event<Observation>> {
    if generators == [] then []
    else GeneratorTrace(s, c, p, generators[0]) + GeneratorsTrace(s, c, p, generators[1..])
  }

  function PoliciesTrace(s: Target, c: CollectorView, policies: Families.Snapshot): seq<Event<Observation>> {
    if policies == [] then []
    else (if policies[0].None? then [] else GeneratorsTrace(s, c, policies[0].value, policies[0].value.generators)) +
         PoliciesTrace(s, c, policies[1..])
  }

  function FamilyTrace(
    s: Target, policies: Families.Snapshot, collectors: seq<CollectorView>): seq<Event<Observation>> {
    if collectors == [] then []
    else (if collectors[0].up then PoliciesTrace(s, collectors[0], policies) else []) +
         FamilyTrace(s, policies, collectors[1..])
  }

  // ---- The callback's own failures come from expressions ----

  lemma {:induction false} GeneratorFailsByItself(
    s: Target, c: CollectorView, p: CompiledPolicy, gen: Option<CompiledGenerator>)
    ensures FailsByItself(GeneratorTrace(s, c, p, gen))
  {
    hide Project;
    if gen.Some? {
      var trace := Trace(s.ev, p.name, gen.value, ObjectsFor(c.collected, gen.value.resource));
      TraceFailsByItself(trace, FamilyNames(gen.value.families));
      ProjectFailsByItself(ForFamily(s.name, EffectivePrefix(p.prefix, s.defaultPrefix), c.cluster), trace);
    }
  }

  lemma {:induction false} GeneratorsFailByThemselves(
    s: Target, c: CollectorView, p: CompiledPolicy, generators: seq<Option<CompiledGenerator>>)
    ensures FailsByItself(GeneratorsTrace(s, c, p, generators))
  {
    hide GeneratorTrace;
    if generators != [] {
      GeneratorFailsByItself(s, c, p, generators[0]);
      GeneratorsFailByThemselves(s, c, p, generators[1..]);
    }
  }

  lemma {:induction false} PoliciesFailByThemselves(s: Target, c: CollectorView, policies: Families.Snapshot)
    ensures FailsByItself(PoliciesTrace(s, c, policies))
  {
    hide GeneratorsTrace;
    if policies != [] {
      if policies[0].Some? {
        GeneratorsFailByThemselves(s, c, policies[0].value, policies[0].value.generators);
      }
      PoliciesFailByThemselves(s, c, policies[1..]);
    }
  }

  lemma {:induction false} FamilyFailsByItself(s: Target, policies: Families.Snapshot, collectors: seq<CollectorView>)
    ensures FailsByItself(FamilyTrace(s, policies, collectors))
  {
    hide PoliciesTrace;
    if collectors != [] {
      PoliciesFailByThemselves(s, collectors[0], policies);
      FamilyFailsByItself(s, policies, collectors[1..]);
    }
  }

  // ---- A stopped build is one that reports the budget ----

  lemma {:induction false} OneEvaluate<T>(ctx: Context, labelName: Option<string>, b: BudgetState)
    ensures var spent := Spend(b);
            Exec<T>([Evaluate(ctx, labelName)], b) ==
            if spent.error.Some?
                then Run([], [ErrorAt(ctx, labelName, OutOfBudget(spent.error.value))], spent.budget, true)
            else Run([], [], spent.budget, false)
  {
    assert Exec<T>([], Spend(b).budget) == Run([], [], Spend(b).budget, false);
  }

  lemma {:induction false} OneFail<T>(error: BuildError, b: BudgetState)
    ensures Exec<T>([Fail(error)], b) == Run([], [error], b, false)
  {
    assert Exec<T>([], b) == Run([], [], b, false);
  }

  lemma {:induction false} StoppedMeansBudgetError<T>(
    f: Measurement -> seq<T>, events: seq<Event<Measurement>>, names: set<string>, b: BudgetState)
    requires TraceOf(events, names)
    ensures Exec(Project(f, events), b).stopped <==>
              exists e | e in Exec(Project(f, events), b).errors :: e.cause.OutOfBudget?
  {
    hide Spend;
    if events != [] {
      var rest := events[1..];
      assert events == [events[0]] + rest;
      ProjectConcat(f, [events[0]], rest);
      ProjectOne(f, events[0]);
      ExecConcat(ProjectEvent(f, events[0]), Project(f, rest), b);
      assert TraceOf(rest, names);
      match events[0] {
        case Evaluate(ctx, labelName) =>
          StoppedMeansBudgetError(f, rest, names, Spend(b).budget);
          OneEvaluate<T>(ctx, labelName, b);
        case Emit(output) =>
          StoppedMeansBudgetError(f, rest, names, b);
          ExecEmits(f(output), b);
        case Fail(error) =>
          StoppedMeansBudgetError(f, rest, names, b);
          OneFail<T>(error, b);
      }
    }
  }

  // ---- Parts of the callback ----

  lemma {:induction false} FamilyErrors(
    start: Build.Snapshot<Observation>, target: Target, policies: Families.Snapshot, collectors: seq<CollectorView>)
    ensures var run := Advance(start, FamilyTrace(target, policies, collectors));
            start.errors == [] ==> BudgetErrorLast(run.snap.errors, run.stopped)
  {
    FamilyFailsByItself(target, policies, collectors);
    BudgetErrorIsLast(FamilyTrace(target, policies, collectors), start.budget);
    hide FamilyTrace, Exec;
  }

  lemma {:induction false} FamilyEvaluations(
    start: Build.Snapshot<Observation>, target: Target, policies: Families.Snapshot, collectors: seq<CollectorView>)
    requires start.budget.Limited?
    ensures var run := Advance(start, FamilyTrace(target, policies, collectors));
            && run.snap.budget.Limited?
            && run.snap.budget.asked - (if run.stopped then 1 else 0)
               <= start.budget.asked + if start.budget.remaining > 0 then start.budget.remaining else 0
  {
    AskedForEvaluations(FamilyTrace(target, policies, collectors), start.budget);
    EvaluationsWithinBudget(FamilyTrace(target, policies, collectors), start.budget);
    hide FamilyTrace, Exec;
  }

  lemma {:induction false} AdvanceNone<T>(s: Build.Snapshot<T>)
    ensures Advance(s, []) == Progress(s, false)
  {}

  method IsRelevant(name: string, prefix: string, families: seq<Option<CompiledFamily>>) returns (relevant: bool)
    ensures relevant == Relevant(name, prefix, families)
  {
    hide FamilyMetricName;
    relevant := false;
    for i := 0 to |families|
      invariant !relevant && forall j | 0 <= j < i :: families[j].Some? ==>
          FamilyMetricName(prefix, families[j].value.name) != name
    {
      if families[i].Some? && FamilyMetricName(prefix, families[i].value.name) == name {
        return true;
      }
    }
  }

  /** The last list of the resource, or nothing when it is not listed. */
  ghost predicate LastList(collected: seq<Collected>, gvr: GVR, objects: seq<Value>) {
    || (objects == [] && forall j | 0 <= j < |collected| :: collected[j].gvr != gvr)
    || (exists i | 0 <= i < |collected| ::
          && collected[i].gvr == gvr && objects == collected[i].objects
          && forall j | i < j < |collected| :: collected[j].gvr != gvr)
  }

  lemma {:induction false} ObjectsAreLast(collected: seq<Collected>, gvr: GVR)
    ensures LastList(collected, gvr, ObjectsFor(collected, gvr))
  {
    if collected != [] {
      var front, last := collected[..|collected| - 1], |collected| - 1;
      ObjectsAreLast(front, gvr);
      if collected[last].gvr == gvr {
        assert ObjectsFor(collected, gvr) == collected[last].objects;
      } else if i :| 0 <= i < |front| && front[i].gvr == gvr && ObjectsFor(front, gvr) == front[i].objects &&
                     forall j | i < j < |front| :: front[j].gvr != gvr {
        assert collected[i] == front[i];
        assert forall j | i < j < last :: collected[j] == front[j];
      } else {
        assert forall j | 0 <= j < last :: collected[j] == front[j];
      }
    }
  }

  method ByGVR(collected: seq<Collected>) returns (byGVR: map<GVR, seq<Value>>)
    ensures forall gvr: GVR :: LastList(collected, gvr, if gvr in byGVR then byGVR[gvr] else [])
    ensures forall gvr: GVR :: ObjectsFor(collected, gvr) == if gvr in byGVR then byGVR[gvr] else []
  {
    byGVR := map[];
    for i := 0 to |collected|
      invariant forall gvr: GVR :: ObjectsFor(collected[..i], gvr) == if gvr in byGVR then byGVR[gvr] else []
    {
      assert collected[..i + 1][..i] == collected[..i];
      byGVR := byGVR[collected[i].gvr := collected[i].objects];
    }
    assert collected[..|collected|] == collected;
    forall gvr: GVR
      ensures LastList(collected, gvr, if gvr in byGVR then byGVR[gvr] else [])
    {
      ObjectsAreLast(collected, gvr);
    }
  }

  // ---- The callback ----

  class FamilyCallback {
    const target: Target
    const observer: Observer<Observation>
    const budget: CycleBudget
    var budgetLogged: bool
    ghost var errors: seq<BuildError>
    /** How often an expression was evaluated, over all builds, and how often the budget had been asked before. */
    ghost var evaluations: nat
    ghost const askedBefore: nat

    ghost predicate Counted()
      reads this, budget
    {
      budget.asked == askedBefore + evaluations + if budgetLogged then 1 else 0
    }

    constructor (target: Target, observer: Observer<Observation>, budget: CycleBudget)
      ensures this.target == target && this.observer == observer && this.budget == budget
      ensures !budgetLogged && errors == [] && evaluations == 0 && Counted() && askedBefore == budget.asked
    {
      this.target, this.observer, this.budget := target, observer, budget;
      budgetLogged, errors, evaluations := false, [], 0;
      askedBefore := budget.asked;
    }

    ghost function Now(): Build.Snapshot<Observation>
      reads this, observer, budget
    {
      Build.Snapshot(observer.log, errors, StateOf(budget))
    }

    /** The budget is reported once, at its first error. */
    method LogErrors(errs: seq<BuildError>)
      requires !budgetLogged
      modifies this`budgetLogged
      ensures budgetLogged <==> exists e | e in errs :: e.cause.OutOfBudget?
    {
      for i := 0 to |errs|
        invariant budgetLogged <==> exists e | e in errs[..i] :: e.cause.OutOfBudget?
      {
        assert errs[..i + 1] == errs[..i] + [errs[i]];
        if errs[i].cause.OutOfBudget? && !budgetLogged {
          budgetLogged := true;
        }
      }
      assert errs[..|errs|] == errs;
    }

    method ObserveGenerator(
      c: CollectorView, byGVR: map<GVR, seq<Value>>, p: CompiledPolicy, gen: Option<CompiledGenerator>)
      requires !budgetLogged && Counted()
      requires forall gvr: GVR :: ObjectsFor(c.collected, gvr) == if gvr in byGVR then byGVR[gvr] else []
      modifies this, observer, budget
      ensures Counted() && Progress(Now(), budgetLogged) == Advance(old(Now()), GeneratorTrace(target, c, p, gen))
    {
      hide Project, Trace, FamilyMetricName, EffectivePrefix, TraceOf;
      if gen.None? {
        return;
      }
      var prefix := EffectivePrefix(p.prefix, target.defaultPrefix);
      var relevant := IsRelevant(target.name, prefix, gen.value.families);
      if !relevant {
        return;
      }
      var objs := if gen.value.resource in byGVR then byGVR[gen.value.resource] else [];
      if |objs| == 0 {
        return;
      }
      ghost var before := StateOf(budget);
      var errs, _, made := Build.Build(
        target.ev, Some(p), Some(gen.value), objs, ForFamily(target.name, prefix, c.cluster), observer, true, budget);
      errors, evaluations := errors + errs, evaluations + made;
      StoppedMeansBudgetError(ForFamily(target.name, prefix, c.cluster), Trace(target.ev, p.name, gen.value, objs),
                              FamilyNames(gen.value.families), before);
      ghost var run := Exec(GeneratorTrace(target, c, p, gen), before);
      assert budget.asked == askedBefore + evaluations + if run.stopped then 1 else 0;
      hide GeneratorTrace, Exec;
      LogErrors(errs);
    }

    method ObservePolicy(c: CollectorView, byGVR: map<GVR, seq<Value>>, p: CompiledPolicy)
      requires !budgetLogged && Counted()
      requires forall gvr: GVR :: ObjectsFor(c.collected, gvr) == if gvr in byGVR then byGVR[gvr] else []
      modifies this, observer, budget
      ensures Counted() &&
          Progress(Now(), budgetLogged) == Advance(old(Now()), GeneratorsTrace(target, c, p, p.generators))
    {
      hide Advance, GeneratorTrace, ObjectsFor;
      var generators := p.generators;
      assert generators[0..] == generators;
      for i := 0 to |generators|
        invariant !budgetLogged && Counted()
        invariant Advance(Now(), GeneratorsTrace(target, c, p, generators[i..]))
            == Advance(old(Now()), GeneratorsTrace(target, c, p, generators))
      {
        assert generators[i..][0] == generators[i] && generators[i..][1..] == generators[i + 1..];
        AdvanceConcat(Now(), GeneratorTrace(target, c, p, generators[i]),
            GeneratorsTrace(target, c, p, generators[i + 1..]));
        ObserveGenerator(c, byGVR, p, generators[i]);
        if budgetLogged {
          return;
        }
      }
      AdvanceNone(Now());
    }

    method ObserveCollector(c: CollectorView, policies: Families.Snapshot)
      requires !budgetLogged && Counted()
      modifies this, observer, budget
      ensures Counted() && Progress(Now(), budgetLogged) == Advance(old(Now()), PoliciesTrace(target, c, policies))
    {
      hide Advance, GeneratorsTrace, ObjectsFor;
      var byGVR := ByGVR(c.collected);
      assert policies[0..] == policies;
      for i := 0 to |policies|
        invariant !budgetLogged && Counted()
        invariant Advance(Now(), PoliciesTrace(target, c, policies[i..]))
            == Advance(old(Now()), PoliciesTrace(target, c, policies))
      {
        assert policies[i..][0] == policies[i] && policies[i..][1..] == policies[i + 1..];
        ghost var rest := PoliciesTrace(target, c, policies[i + 1..]);
        if policies[i].None? {
          SkipNothing(rest);
          continue;
        }
        AdvanceConcat(Now(), GeneratorsTrace(target, c, policies[i].value, policies[i].value.generators), rest);
        ObservePolicy(c, byGVR, policies[i].value);
        if budgetLogged {
          return;
        }
      }
      AdvanceNone(Now());
    }

    method ObserveFamily(policies: Families.Snapshot, collectors: seq<CollectorView>)
      requires !budgetLogged && Counted()
      modifies this, observer, budget
      ensures Counted() &&
          Progress(Now(), budgetLogged) == Advance(old(Now()), FamilyTrace(target, policies, collectors))
      ensures old(errors) == [] ==> BudgetErrorLast(errors, budgetLogged)
      ensures evaluations - old(evaluations) <= if old(budget.remaining) > 0 then old(budget.remaining) else 0
    {
      FamilyErrors(Now(), target, policies, collectors);
      FamilyEvaluations(Now(), target, policies, collectors);
      hide Advance, PoliciesTrace, BudgetErrorLast;
      assert collectors[0..] == collectors;
      for i := 0 to |collectors|
        invariant !budgetLogged && Counted()
        invariant Advance(Now(), FamilyTrace(target, policies, collectors[i..]))
            == Advance(old(Now()), FamilyTrace(target, policies, collectors))
      {
        assert collectors[i..][0] == collectors[i] && collectors[i..][1..] == collectors[i + 1..];
        ghost var rest := FamilyTrace(target, policies, collectors[i + 1..]);
        if !collectors[i].up {
          SkipNothing(rest);
          continue;
        }
        AdvanceConcat(Now(), PoliciesTrace(target, collectors[i], policies), rest);
        ObserveCollector(collectors[i], policies);
        if budgetLogged {
          return;
        }
      }
      AdvanceNone(Now());
    }
  }
}
