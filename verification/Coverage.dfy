// Every measurement of every control plane that is up is observed by exactly one family callback.
module Coverage {
  import opened Sums
  import opened PolicyModel
  import opened Budget
  import opened Builder
  import opened Build
  import opened Families
  import opened Observe

  /** An emission under its effective metric name. */
  datatype Tagged = Tagged(name: string, observation: Observation)

  function TagAll(prefix: string, cluster: string): Measurement -> seq<Tagged> {
    (m: Measurement) => [Tagged(FamilyMetricName(prefix, m.family), ObservationOf(cluster, m))]
  }

  // ---- Everything that is measured, whatever the family ----

  datatype World = World(ev: Evaluator, defaultPrefix: string)

  function AllOfGenerator(w: World, c: CollectorView, p: CompiledPolicy, gen: Option<CompiledGenerator>): seq<Tagged> {
    if gen.None? then []
    else FlatMap(TagAll(EffectivePrefix(p.prefix, w.defaultPrefix), c.cluster),
                 Outputs(Trace(w.ev, p.name, gen.value, ObjectsFor(c.collected, gen.value.resource))))
  }

  function AllOfGenerators(
    w: World, c: CollectorView, p: CompiledPolicy, generators: seq<Option<CompiledGenerator>>): seq<Tagged> {
    if generators == [] then []
    else AllOfGenerator(w, c, p, generators[0]) + AllOfGenerators(w, c, p, generators[1..])
  }

  function AllOfPolicies(w: World, c: CollectorView, policies: Families.Snapshot): seq<Tagged> {
    if policies == [] then []
    else (if policies[0].None? then [] else AllOfGenerators(w, c, policies[0].value, policies[0].value.generators)) +
         AllOfPolicies(w, c, policies[1..])
  }

  function AllEmissions(w: World, policies: Families.Snapshot, collectors: seq<CollectorView>): seq<Tagged> {
    if collectors == [] then []
    else (if collectors[0].up then AllOfPolicies(w, collectors[0], policies) else []) +
         AllEmissions(w, policies, collectors[1..])
  }

  function Named(name: string, all: seq<Tagged>): seq<Observation> {
    if all == [] then []
    else (if all[0].name == name then [all[0].observation] else []) + Named(name, all[1..])
  }

  // ---- The callback of a family observes exactly the emissions under its name, in order ----

  lemma {:induction false} NamedConcat(name: string, a: seq<Tagged>, b: seq<Tagged>)
    ensures Named(name, a + b) == Named(name, a) + Named(name, b)
  {
    if a == [] {
      assert a + b == b;
    } else {
      NamedConcat(name, a[1..], b);
      assert (a + b)[0] == a[0] && (a + b)[1..] == a[1..] + b;
      Assoc(if a[0].name == name then [a[0].observation] else [], Named(name, a[1..]), Named(name, b));
    }
  }

  lemma {:induction false} OutputsConcat<T>(a: seq<Event<T>>, b: seq<Event<T>>)
    ensures Outputs(a + b) == Outputs(a) + Outputs(b)
  {
    if a == [] {
      assert a + b == b;
    } else {
      OutputsConcat(a[1..], b);
      assert (a + b)[0] == a[0] && (a + b)[1..] == a[1..] + b;
      Assoc(if a[0].Emit? then [a[0].output] else [], Outputs(a[1..]), Outputs(b));
    }
  }

  lemma {:induction false} OutputsOfEmits<U>(outputs: seq<U>)
    ensures Outputs(EmitAll(outputs)) == outputs
  {
    if outputs != [] {
      OutputsOfEmits(outputs[1..]);
      assert EmitAll(outputs)[1..] == EmitAll(outputs[1..]);
    }
  }

  lemma {:induction false} OutputsOfProject<T, U>(f: T -> seq<U>, events: seq<Event<T>>)
    ensures Outputs(Project(f, events)) == FlatMap(f, Outputs(events))
  {
    if events != [] {
      var rest := events[1..];
      OutputsOfProject(f, rest);
      OutputsConcat(ProjectEvent(f, events[0]), Project(f, rest));
      match events[0] {
        case Emit(output) =>
          OutputsOfEmits(f(output));
          assert Outputs(events) == [output] + Outputs(rest);
          assert ([output] + Outputs(rest))[1..] == Outputs(rest);
        case Evaluate(ctx, labelName) =>
          assert ProjectEvent(f, events[0])[1..] == [];
          assert Outputs(events) == Outputs(rest);
        case Fail(error) =>
          assert ProjectEvent(f, events[0])[1..] == [];
          assert Outputs(events) == Outputs(rest);
      }
    }
  }

  lemma {:induction false} NamedOfTagged(name: string, prefix: string, cluster: string, ms: seq<Measurement>)
    ensures Named(name, FlatMap(TagAll(prefix, cluster), ms)) == FlatMap(ForFamily(name, prefix, cluster), ms)
  {
    hide FamilyMetricName, ObservationOf;
    if ms != [] {
      NamedOfTagged(name, prefix, cluster, ms[1..]);
      var head := TagAll(prefix, cluster)(ms[0]);
      assert head[1..] == [];
      NamedConcat(name, head, FlatMap(TagAll(prefix, cluster), ms[1..]));
      assert Named(name, head) == ForFamily(name, prefix, cluster)(ms[0]);
    }
  }

  lemma {:induction false} OutputsInNames(events: seq<Event<Measurement>>, names: set<string>)
    requires TraceOf(events, names)
    ensures forall m | m in Outputs(events) :: m.family in names
  {
    if events != [] {
      OutputsInNames(events[1..], names);
    }
  }

  lemma {:induction false} NothingForFamily(name: string, prefix: string, cluster: string, ms: seq<Measurement>)
    requires forall m | m in ms :: FamilyMetricName(prefix, m.family) != name
    ensures FlatMap(ForFamily(name, prefix, cluster), ms) == []
  {
    hide FamilyMetricName, ObservationOf;
    if ms != [] {
      NothingForFamily(name, prefix, cluster, ms[1..]);
    }
  }

  lemma {:induction false} GeneratorSplits(
    w: World, name: string, c: CollectorView, p: CompiledPolicy, gen: Option<CompiledGenerator>)
    ensures Outputs(GeneratorTrace(Target(w.ev, name, w.defaultPrefix), c, p, gen))
        == Named(name, AllOfGenerator(w, c, p, gen))
  {
    hide FamilyMetricName, ObjectsFor, Project, FamiliesTrace;
    if gen.Some? {
      var prefix, objs := EffectivePrefix(p.prefix, w.defaultPrefix), ObjectsFor(c.collected, gen.value.resource);
      var trace := Trace(w.ev, p.name, gen.value, objs);
      NamedOfTagged(name, prefix, c.cluster, Outputs(trace));
      if objs != [] {
        if Relevant(name, prefix, gen.value.families) {
          OutputsOfProject(ForFamily(name, prefix, c.cluster), trace);
        } else {
          OutputsInNames(trace, FamilyNames(gen.value.families));
          NothingForFamily(name, prefix, c.cluster, Outputs(trace));
        }
      }
    }
  }

  lemma {:induction false} GeneratorsSplit(
    w: World, name: string, c: CollectorView, p: CompiledPolicy, generators: seq<Option<CompiledGenerator>>)
    ensures Outputs(GeneratorsTrace(Target(w.ev, name, w.defaultPrefix), c, p, generators))
        == Named(name, AllOfGenerators(w, c, p, generators))
  {
    hide GeneratorTrace, AllOfGenerator;
    if generators != [] {
      var target := Target(w.ev, name, w.defaultPrefix);
      GeneratorSplits(w, name, c, p, generators[0]);
      GeneratorsSplit(w, name, c, p, generators[1..]);
      OutputsConcat(GeneratorTrace(target, c, p, generators[0]), GeneratorsTrace(target, c, p, generators[1..]));
      NamedConcat(name, AllOfGenerator(w, c, p, generators[0]), AllOfGenerators(w, c, p, generators[1..]));
    }
  }

  lemma {:induction false} PoliciesSplit(w: World, name: string, c: CollectorView, policies: Families.Snapshot)
    ensures Outputs(PoliciesTrace(Target(w.ev, name, w.defaultPrefix), c, policies))
        == Named(name, AllOfPolicies(w, c, policies))
  {
    hide GeneratorsTrace, AllOfGenerators;
    if policies != [] {
      var target := Target(w.ev, name, w.defaultPrefix);
      PoliciesSplit(w, name, c, policies[1..]);
      if policies[0].Some? {
        var p := policies[0].value;
        GeneratorsSplit(w, name, c, p, p.generators);
        OutputsConcat(GeneratorsTrace(target, c, p, p.generators), PoliciesTrace(target, c, policies[1..]));
        NamedConcat(name, AllOfGenerators(w, c, p, p.generators), AllOfPolicies(w, c, policies[1..]));
      } else {
        SkipNothing(PoliciesTrace(target, c, policies[1..]));
        assert AllOfPolicies(w, c, policies) == AllOfPolicies(w, c, policies[1..]);
      }
    }
  }

  lemma {:induction false} FamilyObservesItsName(
    w: World, name: string, policies: Families.Snapshot, collectors: seq<CollectorView>)
    ensures Outputs(FamilyTrace(Target(w.ev, name, w.defaultPrefix), policies, collectors))
         == Named(name, AllEmissions(w, policies, collectors))
  {
    hide PoliciesTrace, AllOfPolicies;
    if collectors != [] {
      var target := Target(w.ev, name, w.defaultPrefix);
      FamilyObservesItsName(w, name, policies, collectors[1..]);
      if collectors[0].up {
        PoliciesSplit(w, name, collectors[0], policies);
        OutputsConcat(PoliciesTrace(target, collectors[0], policies), FamilyTrace(target, policies, collectors[1..]));
        NamedConcat(name, AllOfPolicies(w, collectors[0], policies), AllEmissions(w, policies, collectors[1..]));
      } else {
        SkipNothing(FamilyTrace(target, policies, collectors[1..]));
        assert AllEmissions(w, policies, collectors) == AllEmissions(w, policies, collectors[1..]);
      }
    }
  }

  // ---- No emission is left without a family ----

  predicate NamesWithin(all: seq<Tagged>, names: set<string>) {
    forall t: Tagged | t in all :: t.name in names
  }

  lemma {:induction false} TaggedNames(prefix: string, cluster: string, ms: seq<Measurement>, names: set<string>)
    requires forall m: Measurement | m in ms :: FamilyMetricName(prefix, m.family) in names
    ensures NamesWithin(FlatMap(TagAll(prefix, cluster), ms), names)
  {
    hide FamilyMetricName, ObservationOf;
    if ms != [] {
      TaggedNames(prefix, cluster, ms[1..], names);
    }
  }

  lemma {:induction false} GeneratorNames(
    w: World, c: CollectorView, policies: Families.Snapshot, p: CompiledPolicy, gen: Option<CompiledGenerator>)
    requires Some(p) in policies && gen in p.generators
    ensures NamesWithin(AllOfGenerator(w, c, p, gen), KeepFirst(Declares(w.defaultPrefix, policies), map[]).Keys)
  {
    hide FamilyMetricName, ObjectsFor, FamiliesTrace, KeepFirst, Declares;
    if gen.Some? {
      var prefix := EffectivePrefix(p.prefix, w.defaultPrefix);
      var names := KeepFirst(Declares(w.defaultPrefix, policies), map[]).Keys;
      var trace := Trace(w.ev, p.name, gen.value, ObjectsFor(c.collected, gen.value.resource));
      OutputsInNames(trace, FamilyNames(gen.value.families));
      forall m: Measurement | m in Outputs(trace)
        ensures FamilyMetricName(prefix, m.family) in names
      {
        var f: Option<CompiledFamily> :| f in gen.value.families && f.Some? && f.value.name == m.family;
        DeclaredIsDesired(w.defaultPrefix, policies, p, gen.value, f.value);
      }
      TaggedNames(prefix, c.cluster, Outputs(trace), names);
    }
  }

  lemma {:induction false} GeneratorsNames(
    w: World, c: CollectorView, policies: Families.Snapshot, p: CompiledPolicy,
    generators: seq<Option<CompiledGenerator>>)
    requires Some(p) in policies && forall g | g in generators :: g in p.generators
    ensures NamesWithin(AllOfGenerators(w, c, p, generators),
        KeepFirst(Declares(w.defaultPrefix, policies), map[]).Keys)
  {
    hide AllOfGenerator, KeepFirst, Declares;
    if generators != [] {
      GeneratorNames(w, c, policies, p, generators[0]);
      GeneratorsNames(w, c, policies, p, generators[1..]);
    }
  }

  lemma {:induction false} PoliciesNames(
    w: World, c: CollectorView, policies: Families.Snapshot, some: Families.Snapshot)
    requires forall p | p in some :: p in policies
    ensures NamesWithin(AllOfPolicies(w, c, some), KeepFirst(Declares(w.defaultPrefix, policies), map[]).Keys)
  {
    hide AllOfGenerators, KeepFirst, Declares;
    if some != [] {
      assert some[0] in policies;
      if some[0].Some? {
        GeneratorsNames(w, c, policies, some[0].value, some[0].value.generators);
      }
      PoliciesNames(w, c, policies, some[1..]);
    }
  }

  /** Every emission has an effective name that the synchronised families include. */
  lemma {:induction false} EmissionsHaveFamilies(w: World, policies: Families.Snapshot, collectors: seq<CollectorView>)
    ensures NamesWithin(AllEmissions(w, policies, collectors),
        KeepFirst(Declares(w.defaultPrefix, policies), map[]).Keys)
  {
    hide AllOfPolicies, KeepFirst, Declares;
    if collectors != [] {
      PoliciesNames(w, collectors[0], policies, policies);
      EmissionsHaveFamilies(w, policies, collectors[1..]);
    }
  }

  // ---- Counting ----

  /** Observations summed over the callbacks of `names`. */
  function CountOver(names: seq<string>, all: seq<Tagged>): nat {
    if names == [] then 0 else |Named(names[0], all)| + CountOver(names[1..], all)
  }

  predicate Distinct(names: seq<string>) {
    forall i, j | 0 <= i < j < |names| :: names[i] != names[j]
  }

  lemma {:induction false} CountNone(names: seq<string>)
    ensures CountOver(names, []) == 0
  {
    if names != [] {
      CountNone(names[1..]);
    }
  }

  lemma {:induction false} CountStep(names: seq<string>, all: seq<Tagged>)
    requires all != [] && Distinct(names)
    ensures CountOver(names, all) == CountOver(names, all[1..]) + if all[0].name in names then 1 else 0
  {
    if names != [] {
      CountStep(names[1..], all);
    }
  }

  lemma {:induction false} CountAll(names: seq<string>, all: seq<Tagged>)
    requires Distinct(names) && forall t: Tagged | t in all :: t.name in names
    ensures CountOver(names, all) == |all|
  {
    if all == [] {
      CountNone(names);
    } else {
      CountStep(names, all);
      CountAll(names, all[1..]);
    }
  }

  /**
   * With the families of the snapshot in place and budgets that do not run out, the callbacks together observe as many
   * data points as all control planes that are up emit, each under its own name.
   */
  lemma {:induction false} EveryEmissionObservedOnce(
    w: World, policies: Families.Snapshot, collectors: seq<CollectorView>, names: seq<string>)
    requires Distinct(names)
    requires forall n :: n in names <==> n in KeepFirst(Declares(w.defaultPrefix, policies), map[])
    ensures CountOver(names, AllEmissions(w, policies, collectors)) == |AllEmissions(w, policies, collectors)|
    ensures forall t | t in AllEmissions(w, policies, collectors) :: t.name in names
  {
    hide AllEmissions, KeepFirst, Declares;
    EmissionsHaveFamilies(w, policies, collectors);
    CountAll(names, AllEmissions(w, policies, collectors));
  }

  // ---- Under a budget, and with control planes down ----

  /** Whatever the budget and the clock, a callback observes a prefix of the emissions under its name. */
  lemma {:induction false} BudgetedObservationsArePrefix(
    w: World, name: string, policies: Families.Snapshot, collectors: seq<CollectorView>, b: BudgetState)
    ensures Exec(FamilyTrace(Target(w.ev, name, w.defaultPrefix), policies, collectors), b).outputs
         <= Named(name, AllEmissions(w, policies, collectors))
    ensures !Exec(FamilyTrace(Target(w.ev, name, w.defaultPrefix), policies, collectors), b).stopped ==>
              Exec(FamilyTrace(Target(w.ev, name, w.defaultPrefix), policies, collectors), b).outputs
              == Named(name, AllEmissions(w, policies, collectors))
  {
    hide FamilyTrace, AllEmissions;
    var events := FamilyTrace(Target(w.ev, name, w.defaultPrefix), policies, collectors);
    FamilyObservesItsName(w, name, policies, collectors);
    BudgetedRunIsPrefix(events, b);
    var k := Completed(events, b);
    OutputsConcat(events[..k], events[k..]);
    assert events == events[..k] + events[k..];
    assert events[..|events|] == events;
  }

  /** A control plane that is down contributes nothing: removing it changes no observation. */
  lemma {:induction false} DownContributesNothing(
    w: World, policies: Families.Snapshot, before: seq<CollectorView>, c: CollectorView, after: seq<CollectorView>)
    requires !c.up
    ensures AllEmissions(w, policies, before + [c] + after) == AllEmissions(w, policies, before + after)
  {
    hide AllOfPolicies;
    var all := before + [c] + after;
    if before == [] {
      assert all[0] == c && all[1..] == after && before + after == after;
      assert AllEmissions(w, policies, all) == [] + AllEmissions(w, policies, after);
    } else {
      DownContributesNothing(w, policies, before[1..], c, after);
      assert all[0] == before[0] && all[1..] == before[1..] + [c] + after;
      assert (before + after)[0] == before[0] && (before + after)[1..] == before[1..] + after;
    }
  }
}
