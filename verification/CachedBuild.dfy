// What the metrics are computed from: the cached objects, and why they stand for the objects of the control plane.
module CachedBuild {
  import opened Paths
  import opened Trim
  import opened PolicyModel
  import opened Desired
  import opened Pushdown
  import opened BuildPushdown
  import opened Builder
  import opened Compile
  import opened Informers
  import opened InformerHistory
  import opened Collector
  import Observe

  function StoredOf(cache: map<string, Cached>, keys: seq<string>): (r: seq<Value>)
    requires forall k | k in keys :: k in cache
    ensures |r| == |keys|
  {
    if keys == [] then [] else [cache[keys[0]].stored] + StoredOf(cache, keys[1..])
  }

  function SourcesOf(cache: map<string, Cached>, keys: seq<string>): (r: seq<Value>)
    requires forall k | k in keys :: k in cache
    ensures |r| == |keys|
  {
    if keys == [] then [] else [cache[keys[0]].source] + SourcesOf(cache, keys[1..])
  }

  function ListsOf(cache: map<string, Cached>, keys: seq<string>): (r: seq<seq<string>>)
    requires forall k | k in keys :: k in cache
    ensures |r| == |keys|
  {
    if keys == [] then [] else [cache[keys[0]].used] + ListsOf(cache, keys[1..])
  }

  lemma {:induction false} StoredEach(cache: map<string, Cached>, keys: seq<string>, i: nat)
    requires i < |keys| && forall k | k in keys :: k in cache
    ensures StoredOf(cache, keys)[i] == cache[keys[i]].stored && SourcesOf(cache, keys)[i] == cache[keys[i]].source
  {
    if i > 0 {
      StoredEach(cache, keys[1..], i - 1);
    }
  }

  lemma {:induction false} StoredAreTrimmed(i: Informer, keys: seq<string>)
    requires Faithful(i) && forall k | k in keys :: k in i.cache
    ensures StoredOf(i.cache, keys) == TrimEach(SourcesOf(i.cache, keys), ListsOf(i.cache, keys))
    ensures forall fields | fields in ListsOf(i.cache, keys) :: Sublist(i.fields, fields)
  {
    hide TrimObject, Sublist;
    if keys != [] {
      StoredAreTrimmed(i, keys[1..]);
      var sources, lists := SourcesOf(i.cache, keys), ListsOf(i.cache, keys);
      assert sources[1..] == SourcesOf(i.cache, keys[1..]) && lists[1..] == ListsOf(i.cache, keys[1..]);
    }
  }

  lemma {:induction false} SourcesTraversable(cache: map<string, Cached>, keys: seq<string>, required: seq<string>)
    requires forall k | k in keys :: k in cache && Traversable(cache[k].source, required)
    ensures forall obj | obj in SourcesOf(cache, keys) :: Traversable(obj, required)
  {
    hide Traversable;
    if keys != [] {
      SourcesTraversable(cache, keys[1..], required);
    }
  }

  /**
   * A generator whose required fields are published for its resource makes from the cache exactly what it would make
   * from the objects themselves: in any listing order, whatever lists the objects were trimmed to on arrival.
   */
  lemma {:induction false} CacheStandsForSource(
    s: State, ev: Evaluator, policy: string, gen: CompiledGenerator, keys: seq<string>)
    requires Inv(s) && LiveAt(s, gen.resource) && Sublist(gen.requiredFields, FieldsAt(s, gen.resource))
    requires FamiliesWithin(gen.families, gen.requiredFields)
    requires forall k | k in keys ::
               && k in s.running[s.entries[gen.resource].id].cache
               && Traversable(s.running[s.entries[gen.resource].id].cache[k].source, gen.requiredFields)
    ensures var cache := s.running[s.entries[gen.resource].id].cache;
            Trace(ev, policy, gen, StoredOf(cache, keys)) == Trace(ev, policy, gen, SourcesOf(cache, keys))
  {
    var i := s.running[s.entries[gen.resource].id];
    assert Faithful(i);
    hide Inv, FamiliesWithin, Traversable, Faithful;
    StoredAreTrimmed(i, keys);
    SourcesTraversable(i.cache, keys, gen.requiredFields);
    BuildAgrees(ev, policy, gen, SourcesOf(i.cache, keys), gen.requiredFields, ListsOf(i.cache, keys));
  }

  /** The object was observed under the key, and of those stored under it, it was the last. */
  ghost predicate LastObserved(run: seq<Action>, id: nat, key: string, source: Value) {
    exists j: nat, o: nat :: LastStored(run, id, key, j, o) && run[o].source == source
  }

  /**
   * The same, in terms of the objects that arrived: what is listed from the cache gives what the objects observed last
   * would give, whatever happened before.
   */
  lemma {:induction false} CacheStandsForObserved(
    run: seq<Action>, ev: Evaluator, policy: string, gen: CompiledGenerator, keys: seq<string>, listed: seq<Value>,
    observed: seq<Value>)
    requires Legal(INITIAL, run) && LiveAt(After(INITIAL, run), gen.resource)
    requires Sublist(gen.requiredFields, FieldsAt(After(INITIAL, run), gen.resource))
    requires FamiliesWithin(gen.families, gen.requiredFields) && |listed| == |observed| == |keys|
    requires var s := After(INITIAL, run);
             var id := s.entries[gen.resource].id;
             forall i | 0 <= i < |keys| ::
               && keys[i] in s.running[id].cache && listed[i] == s.running[id].cache[keys[i]].stored
               && LastObserved(run, id, keys[i], observed[i]) && Traversable(observed[i], gen.requiredFields)
    ensures Trace(ev, policy, gen, listed) == Trace(ev, policy, gen, observed)
  {
    var s := After(INITIAL, run);
    var id := s.entries[gen.resource].id;
    var cache := s.running[id].cache;
    InitialInv();
    RunKeepsInv(INITIAL, run);
    RunHistory(run, id);
    hide Legal, After, Inv, FamiliesWithin, Traversable, Trace, LastStored, PublishedAt, TransitIs, StoredOf, SourcesOf;
    forall i | 0 <= i < |keys|
      ensures cache[keys[i]].source == observed[i]
    {
      var j: nat, o: nat :| LastStored(run, id, keys[i], j, o) && run[o].source == observed[i];
      assert CachedAs(run, id, cache, keys[i]);
    }
    hide CacheIs, LastObserved, Sublist;
    forall k | k in keys
      ensures k in cache && Traversable(cache[k].source, gen.requiredFields)
    {
      var i :| 0 <= i < |keys| && keys[i] == k;
    }
    forall i | 0 <= i < |keys|
      ensures StoredOf(cache, keys)[i] == listed[i] && SourcesOf(cache, keys)[i] == observed[i]
    {
      StoredEach(cache, keys, i);
    }
    assert StoredOf(cache, keys) == listed && SourcesOf(cache, keys) == observed;
    CacheStandsForSource(s, ev, policy, gen, keys);
  }

  /** A resource served with what a snapshot desires has the required fields of every generator of the snapshot. */
  lemma {:induction false} ServedIsEnough(
    s: State, policies: seq<Option<CompiledPolicy>>, desired: Fields, p: CompiledPolicy, gen: CompiledGenerator)
    requires IsDesired(policies, desired) && Some(p) in policies && Some(gen) in p.generators
    requires gen.resource in desired && Serves(s, gen.resource, desired[gen.resource])
    ensures LiveAt(s, gen.resource) && Sublist(gen.requiredFields, FieldsAt(s, gen.resource))
  {
    DesiredCovers(policies, desired, p, gen);
  }

  /** The same for every generator that compilation kept, if what it asks to compile is in the fragment. */
  lemma {:induction false} CompiledGeneratorStandsForSource(
    env: Environment, g: GeneratorSpec, s: State, ev: Evaluator, policy: string, keys: seq<string>)
    requires SlotOf(env, g).Some? && InFragment(env, g)
    requires Inv(s) && LiveAt(s, g.resource) && Sublist(SlotOf(env, g).value.requiredFields, FieldsAt(s, g.resource))
    requires forall k | k in keys ::
               && k in s.running[s.entries[g.resource].id].cache
               && Traversable(s.running[s.entries[g.resource].id].cache[k].source, SlotOf(env, g).value.requiredFields)
    ensures var cache, gen := s.running[s.entries[g.resource].id].cache, SlotOf(env, g).value;
            Trace(ev, policy, gen, StoredOf(cache, keys)) == Trace(ev, policy, gen, SourcesOf(cache, keys))
  {
    var gen := SlotOf(env, g).value;
    assert gen.resource == g.resource;
    hide Inv, Traversable, SlotOf, InFragment, FamiliesWithin, Sublist;
    SurvivorsWithin(env, g);
    CacheStandsForSource(s, ev, policy, gen, keys);
  }

  // ---- Reading the caches ----

  ghost predicate Enumerates(keys: seq<string>, all: set<string>) {
    && (forall k :: k in keys <==> k in all)
    && (forall i, j | 0 <= i < j < |keys| :: keys[i] != keys[j])
  }

  /** Every object of the cache, once, in some order. */
  ghost predicate ListsCache(cache: map<string, Cached>, objects: seq<Value>) {
    exists keys: seq<string> ::
      && Enumerates(keys, cache.Keys) && |objects| == |keys|
      && forall i | 0 <= i < |keys| :: objects[i] == cache[keys[i]].stored
  }

  /** One listed resource: every cached object of its live informer, once, in some order. */
  ghost predicate Lists(s: State, c: Observe.Collected) {
    LiveAt(s, c.gvr) && ListsCache(s.running[s.entries[c.gvr].id].cache, c.objects)
  }

  method ListCache(cache: map<string, Cached>) returns (objects: seq<Value>)
    ensures ListsCache(cache, objects)
  {
    objects := [];
    ghost var keys := [];
    var todo := cache.Keys;
    while todo != {}
      invariant todo <= cache.Keys && Enumerates(keys, cache.Keys - todo)
      invariant |objects| == |keys| && forall i | 0 <= i < |keys| ::
          keys[i] in cache && objects[i] == cache[keys[i]].stored
    {
      var k :| k in todo;
      objects := objects + [cache[k].stored];
      keys := keys + [k];
      todo := todo - {k};
    }
  }

  /** The resources listed are those of `done` with a live informer, each once. */
  ghost predicate Listed(s: State, done: set<GVR>, out: seq<Observe.Collected>) {
    && (forall i | 0 <= i < |out| :: Lists(s, out[i]) && out[i].gvr in done)
    && (forall gvr | gvr in done && LiveAt(s, gvr) :: exists i | 0 <= i < |out| :: out[i].gvr == gvr)
    && (forall i, j | 0 <= i < j < |out| :: out[i].gvr != out[j].gvr)
  }

  lemma {:induction false} ListNext(s: State, done: set<GVR>, out: seq<Observe.Collected>, c: Observe.Collected)
    requires Listed(s, done, out) && c.gvr !in done && Lists(s, c)
    ensures Listed(s, done + {c.gvr}, out + [c])
  {
    hide Lists, LiveAt;
    var more := out + [c];
    assert more[|out|] == c && forall i | 0 <= i < |out| :: more[i] == out[i];
    forall gvr | gvr in done && LiveAt(s, gvr)
      ensures exists i | 0 <= i < |more| :: more[i].gvr == gvr
    {
      var i :| 0 <= i < |out| && out[i].gvr == gvr;
      assert more[i].gvr == gvr;
    }
  }

  lemma {:induction false} SkipDenied(s: State, done: set<GVR>, out: seq<Observe.Collected>, gvr: GVR)
    requires Listed(s, done, out) && !LiveAt(s, gvr)
    ensures Listed(s, done + {gvr}, out)
  {
    hide Lists, LiveAt;
  }

  lemma {:induction false} AllListed(s: State, out: seq<Observe.Collected>)
    requires Listed(s, s.entries.Keys, out)
    ensures forall i | 0 <= i < |out| :: Lists(s, out[i])
    ensures forall gvr :: LiveAt(s, gvr) <==> exists i | 0 <= i < |out| :: out[i].gvr == gvr
    ensures forall i, j | 0 <= i < j < |out| :: out[i].gvr != out[j].gvr
  {
    hide ListsCache;
    forall gvr | LiveAt(s, gvr)
      ensures exists i | 0 <= i < |out| :: out[i].gvr == gvr
    {
      assert gvr in s.entries.Keys;
    }
  }

  lemma {:induction false} NothingListed(s: State)
    ensures Listed(s, {}, [])
  {}

  /** The snapshot for the metrics: every synced informer once, and nothing of a denied resource. */
  method Collect(c: Collector) returns (out: seq<Observe.Collected>)
    requires c.Follows()
    ensures forall i | 0 <= i < |out| :: Lists(c.Now(), out[i])
    ensures forall gvr :: LiveAt(c.Now(), gvr) <==> exists i | 0 <= i < |out| :: out[i].gvr == gvr
    ensures forall i, j | 0 <= i < j < |out| :: out[i].gvr != out[j].gvr
  {
    hide Inv, Collector.Follows, ListsCache, Listed;
    c.Holds();
    ghost var s := c.Now();
    AllLive(s);
    out := [];
    var informers, running := c.informers, c.running;
    var todo := informers.Keys;
    ghost var done := {};
    NothingListed(s);
    while todo != {}
      invariant todo <= informers.Keys && done == s.entries.Keys - todo && Listed(s, done, out)
    {
      var gvr :| gvr in todo;
      todo := todo - {gvr};
      if informers[gvr] == Denied {
        SkipDenied(s, done, out, gvr);
        done := done + {gvr};
        continue;
      }
      var objects := ListCache(running[informers[gvr].id].cache);
      ListNext(s, done, out, Observe.Collected(gvr, objects));
      out := out + [Observe.Collected(gvr, objects)];
      done := done + {gvr};
    }
    assert done == s.entries.Keys;
    AllListed(s, out);
  }
}
