// What the callbacks observe, read off the control planes, the policies and the lists of objects.
module ObserveMeaning {
  import Sums
  import opened PolicyModel
  import opened Builder
  import opened InOrder
  import opened BuildMeaning
  import opened Families
  import opened Observe
  import opened Coverage

  type Sightings = seq<Event<Observation>>

  /** The policy's own prefix, or the default. */
  function Prefix(p: CompiledPolicy, defaultPrefix: string): string {
    if p.prefix != "" then p.prefix else defaultPrefix
  }

  /** The name of the control plane without its slash, its type, the value and the labels. */
  function SightingOf(cluster: string, m: Measurement): Observation {
    Observation(if cluster != "" && cluster[0] == '/' then cluster[1..] else cluster,
                if cluster == "root" then "root" else "project", m.value, m.labels)
  }

  // ---- One callback ----

  /** A measurement is observed if it has the name of the callback. */
  function SeenAs(name: string, prefix: string, cluster: string): Event<Measurement> -> Option<Event<Observation>> {
    (e: Event<Measurement>) =>
      match e
      case Evaluate(ctx, labelName) => Some(Evaluate(ctx, labelName))
      case Fail(error) => Some(Fail(error))
      case Emit(m) => if FamilyMetricName(prefix, m.family) == name then Some(Emit(SightingOf(cluster, m))) else None
  }

  /** Some family of the generator has the name. */
  ghost predicate Contributes(gen: CompiledGenerator, prefix: string, name: string) {
    exists i | 0 <= i < |gen.families| ::
      gen.families[i].Some? && FamilyMetricName(prefix, gen.families[i].value.name) == name
  }

  /** The build over the last list of the resource, unless there is nothing in it or to be had from it. */
  ghost predicate GeneratorSeen(
    s: Target, c: CollectorView, p: CompiledPolicy, gen: CompiledGenerator, seen: Sightings) {
    exists objects, events ::
      && LastList(c.collected, gen.resource, objects)
      && if objects == [] || !Contributes(gen, Prefix(p, s.defaultPrefix), s.name) then seen == []
         else BuildDoes(s.ev, p.name, gen, objects, events) &&
              Picked(events, SeenAs(s.name, Prefix(p, s.defaultPrefix), c.cluster), seen)
  }

  ghost function GeneratorSlotSeen(
    s: Target, c: CollectorView, p: CompiledPolicy): (Option<CompiledGenerator>, Sightings) -> bool {
    (gen: Option<CompiledGenerator>, seen: Sightings) =>
      if gen.None? then seen == [] else GeneratorSeen(s, c, p, gen.value, seen)
  }

  ghost function PolicySlotSeen(s: Target, c: CollectorView): (Option<CompiledPolicy>, Sightings) -> bool {
    (p: Option<CompiledPolicy>, seen: Sightings) =>
      if p.None? then seen == [] else InTurn(p.value.generators, GeneratorSlotSeen(s, c, p.value), seen)
  }

  ghost function CollectorSeen(s: Target, policies: Families.Snapshot): (CollectorView, Sightings) -> bool {
    (c: CollectorView, seen: Sightings) =>
      if !c.up then seen == [] else InTurn(policies, PolicySlotSeen(s, c), seen)
  }

  /** Every control plane that is up, every policy and every generator, in this order. */
  ghost predicate CallbackDoes(
    s: Target, policies: Families.Snapshot, collectors: seq<CollectorView>, seen: Sightings) {
    InTurn(collectors, CollectorSeen(s, policies), seen)
  }

  lemma {:induction false} EmitsOne<T>(output: T)
    ensures EmitAll([output]) == [Emit(output)] && EmitAll<T>([]) == []
  {
    assert [output][1..] == [];
  }

  lemma {:induction false} ProjectIsSeen(name: string, prefix: string, cluster: string, events: Events)
    ensures Picked(events, SeenAs(name, prefix, cluster), Project(ForFamily(name, prefix, cluster), events))
  {
    hide Picked, FamilyMetricName;
    var f, pick := ForFamily(name, prefix, cluster), SeenAs(name, prefix, cluster);
    if events == [] {
      NothingPicked(events, pick);
    } else {
      var rest := Project(f, events[1..]);
      ProjectIsSeen(name, prefix, cluster, events[1..]);
      NextPicked(events, pick, rest);
      assert [] + rest == rest;
      if events[0].Emit? {
        EmitsOne(SightingOf(cluster, events[0].output));
      }
    }
  }

  lemma {:induction false} RelevantContributes(name: string, prefix: string, gen: CompiledGenerator)
    ensures Relevant(name, prefix, gen.families) <==> Contributes(gen, prefix, name)
  {
    hide FamilyMetricName;
    if f :| f in gen.families && f.Some? && FamilyMetricName(prefix, f.value.name) == name {
      var i :| 0 <= i < |gen.families| && gen.families[i] == f;
    }
  }

  lemma {:induction false} GeneratorMeans(
    s: Target, c: CollectorView, p: CompiledPolicy, gen: Option<CompiledGenerator>)
    ensures GeneratorSlotSeen(s, c, p)(gen, GeneratorTrace(s, c, p, gen))
  {
    hide FamilyMetricName, ObjectsFor, LastList, Picked, Project, Trace, BuildDoes, Relevant, Contributes;
    if gen.Some? {
      var g, prefix := gen.value, Prefix(p, s.defaultPrefix);
      var objects := ObjectsFor(c.collected, g.resource);
      var events := Trace(s.ev, p.name, g, objects);
      ObjectsAreLast(c.collected, g.resource);
      RelevantContributes(s.name, prefix, g);
      TraceMeans(s.ev, p.name, g, objects);
      ProjectIsSeen(s.name, prefix, c.cluster, events);
      assert EffectivePrefix(p.prefix, s.defaultPrefix) == prefix;
      assert GeneratorSeen(s, c, p, g, GeneratorTrace(s, c, p, gen));
    }
  }

  lemma {:induction false} GeneratorsMean(
    s: Target, c: CollectorView, p: CompiledPolicy, generators: seq<Option<CompiledGenerator>>)
    ensures InTurn(generators, GeneratorSlotSeen(s, c, p), GeneratorsTrace(s, c, p, generators))
  {
    hide InTurn, GeneratorSlotSeen, GeneratorTrace;
    if generators == [] {
      NothingInTurn(generators, GeneratorSlotSeen(s, c, p));
    } else {
      GeneratorMeans(s, c, p, generators[0]);
      GeneratorsMean(s, c, p, generators[1..]);
      NextInTurn(generators, GeneratorSlotSeen(s, c, p), GeneratorTrace(s, c, p, generators[0]),
                 GeneratorsTrace(s, c, p, generators[1..]));
    }
  }

  lemma {:induction false} PoliciesMean(s: Target, c: CollectorView, policies: Families.Snapshot)
    ensures InTurn(policies, PolicySlotSeen(s, c), PoliciesTrace(s, c, policies))
  {
    hide InTurn, GeneratorSlotSeen, GeneratorsTrace;
    if policies == [] {
      NothingInTurn(policies, PolicySlotSeen(s, c));
    } else {
      if policies[0].Some? {
        GeneratorsMean(s, c, policies[0].value, policies[0].value.generators);
      }
      PoliciesMean(s, c, policies[1..]);
      NextInTurn(policies, PolicySlotSeen(s, c),
                 if policies[0].None? then []
                     else GeneratorsTrace(s, c, policies[0].value, policies[0].value.generators),
                 PoliciesTrace(s, c, policies[1..]));
    }
  }

  /** The unbudgeted callback is this. */
  lemma {:induction false} FamilyMeans(s: Target, policies: Families.Snapshot, collectors: seq<CollectorView>)
    ensures CallbackDoes(s, policies, collectors, FamilyTrace(s, policies, collectors))
  {
    hide InTurn, PolicySlotSeen, PoliciesTrace;
    if collectors == [] {
      NothingInTurn(collectors, CollectorSeen(s, policies));
    } else {
      PoliciesMean(s, collectors[0], policies);
      FamilyMeans(s, policies, collectors[1..]);
      NextInTurn(collectors, CollectorSeen(s, policies),
                 if collectors[0].up then PoliciesTrace(s, collectors[0], policies) else [],
                 FamilyTrace(s, policies, collectors[1..]));
    }
  }

  // ---- All callbacks ----

  /** A measurement under its effective name. */
  function TaggedAs(prefix: string, cluster: string): Event<Measurement> -> Option<Tagged> {
    (e: Event<Measurement>) =>
      if e.Emit? then Some(Tagged(FamilyMetricName(prefix, e.output.family), SightingOf(cluster, e.output))) else None
  }

  ghost function GeneratorSlotTags(
    w: World, c: CollectorView, p: CompiledPolicy): (Option<CompiledGenerator>, seq<Tagged>) -> bool {
    (gen: Option<CompiledGenerator>, tags: seq<Tagged>) =>
      if gen.None? then tags == []
      else exists objects, events ::
             && LastList(c.collected, gen.value.resource, objects) &&
                 BuildDoes(w.ev, p.name, gen.value, objects, events)
             && Picked(events, TaggedAs(Prefix(p, w.defaultPrefix), c.cluster), tags)
  }

  ghost function PolicySlotTags(w: World, c: CollectorView): (Option<CompiledPolicy>, seq<Tagged>) -> bool {
    (p: Option<CompiledPolicy>, tags: seq<Tagged>) =>
      if p.None? then tags == [] else InTurn(p.value.generators, GeneratorSlotTags(w, c, p.value), tags)
  }

  ghost function CollectorTags(w: World, policies: Families.Snapshot): (CollectorView, seq<Tagged>) -> bool {
    (c: CollectorView, tags: seq<Tagged>) =>
      if !c.up then tags == [] else InTurn(policies, PolicySlotTags(w, c), tags)
  }

  lemma {:induction false} TagsPicked(prefix: string, cluster: string, events: Events)
    ensures Picked(events, TaggedAs(prefix, cluster), Sums.FlatMap(TagAll(prefix, cluster), Outputs(events)))
  {
    hide Picked, FamilyMetricName;
    var pick := TaggedAs(prefix, cluster);
    if events == [] {
      NothingPicked(events, pick);
    } else {
      var rest := Outputs(events[1..]);
      var tags := Sums.FlatMap(TagAll(prefix, cluster), rest);
      TagsPicked(prefix, cluster, events[1..]);
      NextPicked(events, pick, tags);
      if events[0].Emit? {
        assert ([events[0].output] + rest)[1..] == rest;
      } else {
        assert [] + rest == rest;
      }
    }
  }

  lemma {:induction false} GeneratorTagsMean(
    w: World, c: CollectorView, p: CompiledPolicy, gen: Option<CompiledGenerator>)
    ensures GeneratorSlotTags(w, c, p)(gen, AllOfGenerator(w, c, p, gen))
  {
    hide FamilyMetricName, ObjectsFor, LastList, Picked, Trace, BuildDoes, Outputs;
    if gen.Some? {
      var objects := ObjectsFor(c.collected, gen.value.resource);
      ObjectsAreLast(c.collected, gen.value.resource);
      TraceMeans(w.ev, p.name, gen.value, objects);
      TagsPicked(Prefix(p, w.defaultPrefix), c.cluster, Trace(w.ev, p.name, gen.value, objects));
    }
  }

  lemma {:induction false} GeneratorsTagsMean(
    w: World, c: CollectorView, p: CompiledPolicy, generators: seq<Option<CompiledGenerator>>)
    ensures InTurn(generators, GeneratorSlotTags(w, c, p), AllOfGenerators(w, c, p, generators))
  {
    hide InTurn, GeneratorSlotTags, AllOfGenerator;
    if generators == [] {
      NothingInTurn(generators, GeneratorSlotTags(w, c, p));
    } else {
      GeneratorTagsMean(w, c, p, generators[0]);
      GeneratorsTagsMean(w, c, p, generators[1..]);
      NextInTurn(generators, GeneratorSlotTags(w, c, p), AllOfGenerator(w, c, p, generators[0]),
                 AllOfGenerators(w, c, p, generators[1..]));
    }
  }

  lemma {:induction false} PoliciesTagsMean(w: World, c: CollectorView, policies: Families.Snapshot)
    ensures InTurn(policies, PolicySlotTags(w, c), AllOfPolicies(w, c, policies))
  {
    hide InTurn, GeneratorSlotTags, AllOfGenerators;
    if policies == [] {
      NothingInTurn(policies, PolicySlotTags(w, c));
    } else {
      if policies[0].Some? {
        GeneratorsTagsMean(w, c, policies[0].value, policies[0].value.generators);
      }
      PoliciesTagsMean(w, c, policies[1..]);
      NextInTurn(policies, PolicySlotTags(w, c),
                 if policies[0].None? then []
                     else AllOfGenerators(w, c, policies[0].value, policies[0].value.generators),
                 AllOfPolicies(w, c, policies[1..]));
    }
  }

  /**
   * The emissions are the measurements of every generator over the last list of its resource, on every control plane
   * that is up, in order, each under its effective name and with its control plane.
   */
  lemma {:induction false} EmissionsMean(w: World, policies: Families.Snapshot, collectors: seq<CollectorView>)
    ensures InTurn(collectors, CollectorTags(w, policies), AllEmissions(w, policies, collectors))
  {
    hide InTurn, PolicySlotTags, AllOfPolicies;
    if collectors == [] {
      NothingInTurn(collectors, CollectorTags(w, policies));
    } else {
      PoliciesTagsMean(w, collectors[0], policies);
      EmissionsMean(w, policies, collectors[1..]);
      NextInTurn(collectors, CollectorTags(w, policies),
                 if collectors[0].up then AllOfPolicies(w, collectors[0], policies) else [],
                 AllEmissions(w, policies, collectors[1..]));
    }
  }

  function ObservationUnder(name: string): Tagged -> Option<Observation> {
    (t: Tagged) => if t.name == name then Some(t.observation) else None
  }

  /** The emissions under a name are those with this name, in order. */
  lemma {:induction false} NamedMeans(name: string, all: seq<Tagged>)
    ensures Picked(all, ObservationUnder(name), Named(name, all))
  {
    hide Picked;
    if all == [] {
      NothingPicked(all, ObservationUnder(name));
    } else {
      NamedMeans(name, all[1..]);
      NextPicked(all, ObservationUnder(name), Named(name, all[1..]));
      assert [] + Named(name, all[1..]) == Named(name, all[1..]);
    }
  }
}
