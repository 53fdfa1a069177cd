// What the policies of a registry snapshot ask a control plane to cache: resources, and the fields of each.
module Desired {
  import opened Sums
  import opened PolicyModel
  import opened StringOrder
  import opened BuildPushdown

  type Fields = map<GVR, seq<string>>

  predicate Holds(policies: seq<Option<CompiledPolicy>>, p: CompiledPolicy, gen: CompiledGenerator) {
    Some(p) in policies && Some(gen) in p.generators
  }

  /** Some generator of the snapshot reads the resource. */
  ghost predicate Referenced(policies: seq<Option<CompiledPolicy>>, gvr: GVR) {
    exists p, gen :: Holds(policies, p, gen) && gen.resource == gvr
  }

  /** Some generator of the snapshot reads the field of the resource. */
  ghost predicate Requires(policies: seq<Option<CompiledPolicy>>, gvr: GVR, field: string) {
    exists p, gen :: Holds(policies, p, gen) && gen.resource == gvr && field in gen.requiredFields
  }

  /** Exactly the resources referenced, each with exactly the fields required, in strict order. */
  ghost predicate IsDesired(policies: seq<Option<CompiledPolicy>>, desired: Fields) {
    && (forall gvr :: gvr in desired <==> Referenced(policies, gvr))
    && (forall gvr | gvr in desired :: StrictlySorted(desired[gvr]))
    && (forall gvr, field | gvr in desired :: field in desired[gvr] <==> Requires(policies, gvr, field))
  }

  /** The order and the repetitions of the snapshot do not matter. */
  lemma {:induction false} SnapshotOrderIrrelevant(
    policies: seq<Option<CompiledPolicy>>, desired: Fields, others: seq<Option<CompiledPolicy>>, otherDesired: Fields)
    requires IsDesired(policies, desired) && IsDesired(others, otherDesired)
    requires forall p :: p in policies <==> p in others
    ensures desired == otherDesired
  {
    hide StrictlySorted;
    assert forall p, gen :: Holds(policies, p, gen) <==> Holds(others, p, gen);
    hide Holds;
    forall gvr
      ensures Referenced(policies, gvr) <==> Referenced(others, gvr)
    {}
    forall gvr, field
      ensures Requires(policies, gvr, field) <==> Requires(others, gvr, field)
    {}
    hide Referenced, Requires;
    forall gvr | gvr in desired
      ensures desired[gvr] == otherDesired[gvr]
    {
      SameElements(desired[gvr], otherDesired[gvr]);
    }
  }

  /** Every generator finds its resource, and all its fields. */
  lemma {:induction false} DesiredCovers(
    policies: seq<Option<CompiledPolicy>>, desired: Fields, p: CompiledPolicy, gen: CompiledGenerator)
    requires IsDesired(policies, desired) && Some(p) in policies && Some(gen) in p.generators
    ensures gen.resource in desired && Sublist(gen.requiredFields, desired[gen.resource])
  {
    assert Holds(policies, p, gen);
    forall f | f in gen.requiredFields
      ensures Requires(policies, gen.resource, f)
    {}
  }

  // ---- Computing it ----

  /** The generators a snapshot holds, in order. */
  function GeneratorsOf(generators: seq<Option<CompiledGenerator>>): seq<CompiledGenerator> {
    if generators == [] then []
    else (if generators[0].Some? then [generators[0].value] else []) + GeneratorsOf(generators[1..])
  }

  function AllGenerators(policies: seq<Option<CompiledPolicy>>): seq<CompiledGenerator> {
    if policies == [] then []
    else (if policies[0].Some? then GeneratorsOf(policies[0].value.generators) else []) + AllGenerators(policies[1..])
  }

  lemma {:induction false} GeneratorsOfElements(generators: seq<Option<CompiledGenerator>>)
    ensures forall g :: g in GeneratorsOf(generators) <==> Some(g) in generators
  {
    if generators != [] {
      GeneratorsOfElements(generators[1..]);
      assert generators == [generators[0]] + generators[1..];
    }
  }

  lemma {:induction false} AllGeneratorsElements(policies: seq<Option<CompiledPolicy>>)
    ensures forall g :: g in AllGenerators(policies) <==> exists p :: Holds(policies, p, g)
  {
    hide GeneratorsOf;
    if policies != [] {
      AllGeneratorsElements(policies[1..]);
      assert policies == [policies[0]] + policies[1..];
      if policies[0].Some? {
        GeneratorsOfElements(policies[0].value.generators);
      }
      forall g
        ensures g in AllGenerators(policies) <==> exists p :: Holds(policies, p, g)
      {
        if p :| Holds(policies[1..], p, g) {
          assert Holds(policies, p, g);
        }
        if policies[0].Some? && g in GeneratorsOf(policies[0].value.generators) {
          assert Holds(policies, policies[0].value, g);
        }
        if p :| Holds(policies, p, g) {
          assert Some(p) == policies[0] || Holds(policies[1..], p, g);
        }
      }
    }
  }

  /** What the loops have gathered from the generators seen so far. */
  ghost predicate Gathered(seen: seq<CompiledGenerator>, out: Fields) {
    && (forall gvr :: gvr in out <==> exists g :: g in seen && g.resource == gvr)
    && (forall gvr, field | gvr in out ::
          field in out[gvr] <==> exists g :: g in seen && g.resource == gvr && field in g.requiredFields)
  }

  lemma {:induction false} GatherNext(seen: seq<CompiledGenerator>, out: Fields, gen: CompiledGenerator)
    requires Gathered(seen, out)
    ensures Gathered(seen + [gen],
                     out[gen.resource := (if gen.resource in out then out[gen.resource] else []) + gen.requiredFields])
  {
    var next := out[gen.resource := (if gen.resource in out then out[gen.resource] else []) + gen.requiredFields];
    assert gen in seen + [gen];
    forall gvr
      ensures gvr in next <==> exists g :: g in seen + [gen] && g.resource == gvr
    {
      if g :| g in seen && g.resource == gvr {
        assert g in seen + [gen];
      }
    }
    forall gvr, field | gvr in next
      ensures field in next[gvr] <==> exists g :: g in seen + [gen] && g.resource == gvr && field in g.requiredFields
    {
      if g :| g in seen && g.resource == gvr && field in g.requiredFields {
        assert g in seen + [gen];
      }
    }
  }

  lemma {:induction false} GatheredAll(policies: seq<Option<CompiledPolicy>>, gathered: Fields, desired: Fields)
    requires Gathered(AllGenerators(policies), gathered) && desired.Keys == gathered.Keys
    requires forall gvr | gvr in desired :: StrictlySorted(desired[gvr])
    requires forall gvr, field | gvr in desired :: field in desired[gvr] <==> field in gathered[gvr]
    ensures IsDesired(policies, desired)
  {
    AllGeneratorsElements(policies);
    hide AllGenerators, Holds, StrictlySorted;
    forall gvr
      ensures gvr in desired <==> Referenced(policies, gvr)
    {}
    forall gvr, field | gvr in desired
      ensures field in desired[gvr] <==> Requires(policies, gvr, field)
    {}
  }

  lemma {:induction false} NothingGathered(policies: seq<Option<CompiledPolicy>>)
    ensures Gathered([], map[])
    ensures [] + AllGenerators(policies[0..]) == AllGenerators(policies) && AllGenerators(policies[|policies|..]) == []
  {
    assert policies[0..] == policies;
  }

  lemma {:induction false} NextPolicy(policies: seq<Option<CompiledPolicy>>, i: nat)
    requires i < |policies|
    ensures AllGenerators(policies[i..])
         == (if policies[i].Some? then GeneratorsOf(policies[i].value.generators) else []) +
             AllGenerators(policies[i + 1..])
    ensures policies[i] == None ==> AllGenerators(policies[i..]) == AllGenerators(policies[i + 1..])
  {
    hide GeneratorsOf;
    assert policies[i..][1..] == policies[i + 1..];
  }

  method GatherPolicy(generators: seq<Option<CompiledGenerator>>, ghost seen: seq<CompiledGenerator>, start: Fields)
    returns (out: Fields)
    requires Gathered(seen, start)
    ensures Gathered(seen + GeneratorsOf(generators), out)
  {
    hide Gathered;
    out := start;
    ghost var done := seen;
    for i := 0 to |generators|
      invariant Gathered(done, out) && done + GeneratorsOf(generators[i..]) == seen + GeneratorsOf(generators)
    {
      assert generators[i..][1..] == generators[i + 1..];
      if generators[i] == None {
        continue;
      }
      var gen := generators[i].value;
      assert done + ([gen] + GeneratorsOf(generators[i + 1..])) == (done + [gen]) + GeneratorsOf(generators[i + 1..]);
      GatherNext(done, out, gen);
      out := out[gen.resource := (if gen.resource in out then out[gen.resource] else []) + gen.requiredFields];
      done := done + [gen];
    }
    assert done == seen + GeneratorsOf(generators);
  }

  /** The last loop: sorts and compacts the fields of each resource. */
  method SortAll(gathered: Fields) returns (out: Fields)
    ensures out.Keys == gathered.Keys
    ensures forall gvr | gvr in out :: StrictlySorted(out[gvr])
    ensures forall gvr, field | gvr in out :: field in out[gvr] <==> field in gathered[gvr]
  {
    hide *;
    out := gathered;
    var todo := gathered.Keys;
    while todo != {}
      invariant out.Keys == gathered.Keys && todo <= out.Keys
      invariant forall gvr | gvr in out && gvr !in todo :: StrictlySorted(out[gvr])
      invariant forall gvr | gvr in todo :: out[gvr] == gathered[gvr]
      invariant forall gvr, field | gvr in out :: field in out[gvr] <==> field in gathered[gvr]
    {
      var gvr :| gvr in todo;
      SortedAndCompacted(out[gvr]);
      out := out[gvr := Compact(Sort(out[gvr]))];
      todo := todo - {gvr};
    }
  }

  method DesiredGVRs(policies: seq<Option<CompiledPolicy>>) returns (desired: Fields)
    ensures IsDesired(policies, desired)
  {
    hide *;
    var out: Fields := map[];
    ghost var seen := [];
    NothingGathered(policies);
    for i := 0 to |policies|
      invariant Gathered(seen, out) && seen + AllGenerators(policies[i..]) == AllGenerators(policies)
    {
      NextPolicy(policies, i);
      if policies[i] == None {
        continue;
      }
      ghost var here := GeneratorsOf(policies[i].value.generators);
      Assoc(seen, here, AllGenerators(policies[i + 1..]));
      out := GatherPolicy(policies[i].value.generators, seen, out);
      seen := seen + here;
    }
    assert seen == AllGenerators(policies);
    desired := SortAll(out);
    GatheredAll(policies, out, desired);
  }
}
