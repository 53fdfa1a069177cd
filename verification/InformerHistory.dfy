// What is in the caches, read off the watch events of a run.
module InformerHistory {
  import opened Paths
  import opened Trim
  import opened PolicyModel
  import opened BuildPushdown
  import opened StringOrder
  import opened Informers

  function Observes(run: seq<Action>, id: nat): nat
    decreases |run|
  {
    if run == [] then 0
    else
      var last := run[|run| - 1];
      Observes(run[..|run| - 1], id) + if last.Observe? && last.id == id then 1 else 0
  }

  function Stores(run: seq<Action>, id: nat): nat
    decreases |run|
  {
    if run == [] then 0
    else
      var last := run[|run| - 1];
      Stores(run[..|run| - 1], id) + if last.Store? && last.id == id then 1 else 0
  }

  predicate ObservedAt(run: seq<Action>, id: nat, o: nat) {
    o < |run| && run[o].Observe? && run[o].id == id
  }

  /** Step `j` stored the object of the observation at `o`: objects are stored in the order in which they arrived. */
  predicate StoredAt(run: seq<Action>, id: nat, j: nat, o: nat) {
    && o < j < |run| && run[j] == Store(id) && ObservedAt(run, id, o)
    && Observes(run[..o], id) == Stores(run[..j], id)
  }

  /** Step `k` stored something under the key, or forgot it. */
  ghost predicate Touches(run: seq<Action>, id: nat, key: string, k: nat) {
    k < |run| && (run[k] == Forget(id, key) || exists o: nat :: StoredAt(run, id, k, o) && run[o].key == key)
  }

  /** Step `j` stored the object observed at `o` under the key, and nothing later stored or forgot the key. */
  ghost predicate LastStored(run: seq<Action>, id: nat, key: string, j: nat, o: nat) {
    && StoredAt(run, id, j, o) && run[o].key == key
    && forall k | j < k < |run| :: !Touches(run, id, key, k)
  }

  /** The fields that the informer published when step `o` came. */
  ghost predicate PublishedAt(run: seq<Action>, id: nat, o: nat, fields: seq<string>) {
    && o <= |run| && Legal(INITIAL, run[..o]) && id in After(INITIAL, run[..o]).running
    && fields == After(INITIAL, run[..o]).running[id].fields
  }

  // ---- Counting ----

  lemma {:induction false} ObservesGrow(run: seq<Action>, id: nat, o: nat, p: nat)
    requires o <= p <= |run|
    ensures Observes(run[..o], id) <= Observes(run[..p], id)
    ensures o < p && ObservedAt(run, id, o) ==> Observes(run[..o], id) < Observes(run[..p], id)
    decreases p
  {
    if o < p {
      ObservesGrow(run, id, o, p - 1);
      assert run[..p][..p - 1] == run[..p - 1];
    }
  }

  lemma {:induction false} StoredOnce(run: seq<Action>, id: nat, j: nat, o: nat, p: nat)
    requires StoredAt(run, id, j, o) && StoredAt(run, id, j, p)
    ensures o == p
  {
    if o < p {
      ObservesGrow(run, id, o, p);
    } else if p < o {
      ObservesGrow(run, id, p, o);
    }
  }

  lemma {:induction false} NthObserve(run: seq<Action>, id: nat, n: nat) returns (o: nat)
    requires n < Observes(run, id)
    ensures ObservedAt(run, id, o) && Observes(run[..o], id) == n
    decreases |run|
  {
    var front := run[..|run| - 1];
    if n < Observes(front, id) {
      o := NthObserve(front, id, n);
      assert front[..o] == run[..o];
    } else {
      o := |run| - 1;
    }
  }

  /** Steps before the last one are what they were before it. */
  lemma {:induction false} Front(run: seq<Action>, id: nat)
    requires run != []
    ensures var front := run[..|run| - 1];
            && (forall j: nat, o: nat | j < |front| :: StoredAt(front, id, j, o) <==> StoredAt(run, id, j, o))
            && (forall key, k: nat | k < |front| :: Touches(front, id, key, k) <==> Touches(run, id, key, k))
  {
    var front := run[..|run| - 1];
    forall j: nat, o: nat | j < |front|
      ensures StoredAt(front, id, j, o) <==> StoredAt(run, id, j, o)
    {
      if o < j {
        assert front[..o] == run[..o] && front[..j] == run[..j];
      }
    }
    forall key, k: nat | k < |front|
      ensures Touches(front, id, key, k) <==> Touches(run, id, key, k)
    {
      if o: nat :| StoredAt(run, id, k, o) && run[o].key == key {
        assert StoredAt(front, id, k, o) && front[o].key == key;
      }
      if o: nat :| StoredAt(front, id, k, o) && front[o].key == key {
        assert StoredAt(run, id, k, o) && run[o].key == key;
      }
    }
  }

  lemma {:induction false} StoredBounds(run: seq<Action>, id: nat, j: nat, o: nat)
    ensures StoredAt(run, id, j, o) ==> o < j < |run|
  {}

  /** What the last step leaves of the last stores. */
  lemma {:induction false} LastStoredFront(run: seq<Action>, id: nat, key: string)
    requires run != []
    ensures var front, n := run[..|run| - 1], |run| - 1;
            && (forall j: nat, o: nat | j < n ::
                  LastStored(run, id, key, j, o) <==> LastStored(front, id, key, j, o) && !Touches(run, id, key, n))
  {
    Front(run, id);
    hide StoredAt, Touches;
    var front, n := run[..|run| - 1], |run| - 1;
    forall j: nat, o: nat | j < n
      ensures LastStored(run, id, key, j, o) <==> LastStored(front, id, key, j, o) && !Touches(run, id, key, n)
    {
      if StoredAt(run, id, j, o) {
        StoredBounds(run, id, j, o);
        StoredBounds(front, id, j, o);
      }
    }
  }

  // ---- Runs ----

  lemma {:induction false} PrefixLegal(run: seq<Action>, k: nat)
    requires Legal(INITIAL, run) && k <= |run|
    ensures Legal(INITIAL, run[..k])
    decreases |run|
  {
    hide Enabled, Apply;
    if k < |run| {
      PrefixLegal(run[..|run| - 1], k);
      assert run[..|run| - 1][..k] == run[..k];
    } else {
      assert run[..k] == run;
    }
  }

  lemma {:induction false} WatchedIds(s: State, a: Action)
    requires Inv(s) && Enabled(s, a)
    ensures Apply(s, a).nextId >= s.nextId && (a.Observe? || a.Store? ==> a.id < s.nextId)
  {
    hide TrimObject, StrictlySorted, Sublist, SortedFields, AllFaithful, Orderly;
  }

  /** Identities are never used twice: nothing was observed or stored for one before it was given out. */
  lemma {:induction false} Untouched(run: seq<Action>, id: nat)
    requires Legal(INITIAL, run) && id >= After(INITIAL, run).nextId
    ensures Observes(run, id) == 0 && Stores(run, id) == 0
    ensures forall k | 0 <= k < |run| :: run[k] != Store(id)
    decreases |run|
  {
    if run != [] {
      var front, a := run[..|run| - 1], run[|run| - 1];
      InitialInv();
      RunKeepsInv(INITIAL, front);
      hide Enabled, Apply, Inv;
      WatchedIds(After(INITIAL, front), a);
      Untouched(front, id);
      hide Legal, After;
      forall k | 0 <= k < |run|
        ensures run[k] != Store(id)
      {
        if k < |front| {
          assert run[k] == front[k];
        }
      }
    }
  }

  // ---- What is on its way, and what is cached ----

  /** What is on its way is what was observed and not yet stored, in order, each with the fields of its time. */
  ghost predicate TransitIs(run: seq<Action>, id: nat)
    requires Legal(INITIAL, run) && id in After(INITIAL, run).running
  {
    var transit := After(INITIAL, run).running[id].transit;
    && Stores(run, id) + |transit| == Observes(run, id)
    && forall o: nat | ObservedAt(run, id, o) && Observes(run[..o], id) >= Stores(run, id) ::
         var n := Observes(run[..o], id) - Stores(run, id);
         && n < |transit| && transit[n].key == run[o].key && transit[n].source == run[o].source
         && PublishedAt(run, id, o, transit[n].used)
  }

  /** A key is cached if and only if it was stored and since then neither stored nor forgotten, and holds what was. */
  ghost predicate CachedAs(run: seq<Action>, id: nat, cache: map<string, Cached>, key: string) {
    && (key in cache <==> exists j: nat, o: nat :: LastStored(run, id, key, j, o))
    && forall j: nat, o: nat | LastStored(run, id, key, j, o) ::
         && key in cache && cache[key].source == run[o].source && PublishedAt(run, id, o, cache[key].used)
         && cache[key].stored == TrimObject(run[o].source, cache[key].used)
  }

  ghost predicate CacheIs(run: seq<Action>, id: nat)
    requires Legal(INITIAL, run) && id in After(INITIAL, run).running
  {
    forall key :: CachedAs(run, id, After(INITIAL, run).running[id].cache, key)
  }

  lemma {:induction false} PublishedFront(run: seq<Action>, id: nat, o: nat, fields: seq<string>)
    requires run != [] && o < |run|
    ensures PublishedAt(run, id, o, fields) <==> PublishedAt(run[..|run| - 1], id, o, fields)
  {
    assert run[..|run| - 1][..o] == run[..o];
    hide Legal, After;
  }

  lemma {:induction false} OnObserve(run: seq<Action>, id: nat)
    requires Legal(INITIAL, run) && run != [] && ObservedAt(run, id, |run| - 1)
    requires Legal(INITIAL, run[..|run| - 1]) && id in After(INITIAL, run[..|run| - 1]).running
    requires TransitIs(run[..|run| - 1], id)
    ensures id in After(INITIAL, run).running && TransitIs(run, id)
  {
    var front, n := run[..|run| - 1], |run| - 1;
    var before, after := After(INITIAL, front).running[id], After(INITIAL, run).running[id];
    assert after == before.(transit := before.transit + [Transit(run[n].key, run[n].source, before.fields)]);
    assert PublishedAt(run, id, n, before.fields);
    hide Legal, After, Enabled, Apply;
    forall o: nat | ObservedAt(run, id, o) && Observes(run[..o], id) >= Stores(run, id)
      ensures var m := Observes(run[..o], id) - Stores(run, id);
              && m < |after.transit| && after.transit[m].key == run[o].key && after.transit[m].source == run[o].source
              && PublishedAt(run, id, o, after.transit[m].used)
    {
      if o < n {
        assert front[..o] == run[..o] && ObservedAt(front, id, o);
        PublishedFront(run, id, o, before.transit[Observes(run[..o], id) - Stores(run, id)].used);
      }
    }
  }

  lemma {:induction false} OnStore(run: seq<Action>, id: nat)
    requires Legal(INITIAL, run) && run != [] && run[|run| - 1] == Store(id)
    requires Legal(INITIAL, run[..|run| - 1]) && id in After(INITIAL, run[..|run| - 1]).running
    requires TransitIs(run[..|run| - 1], id)
    ensures id in After(INITIAL, run).running && TransitIs(run, id)
  {
    var front, n := run[..|run| - 1], |run| - 1;
    var before, after := After(INITIAL, front).running[id], After(INITIAL, run).running[id];
    assert before.transit != [] && after.transit == before.transit[1..];
    hide Legal, After, Enabled, Apply;
    forall o: nat | ObservedAt(run, id, o) && Observes(run[..o], id) >= Stores(run, id)
      ensures var m := Observes(run[..o], id) - Stores(run, id);
              && m < |after.transit| && after.transit[m].key == run[o].key && after.transit[m].source == run[o].source
              && PublishedAt(run, id, o, after.transit[m].used)
    {
      assert o < n;
      assert front[..o] == run[..o] && ObservedAt(front, id, o);
      var m := Observes(run[..o], id) - Stores(run, id);
      assert after.transit[m] == before.transit[m + 1];
      PublishedFront(run, id, o, after.transit[m].used);
    }
  }

  /** A step that neither observes nor stores for the informer. */
  lemma {:induction false} OnOther(run: seq<Action>, id: nat)
    requires Legal(INITIAL, run) && run != []
    requires !ObservedAt(run, id, |run| - 1) && run[|run| - 1] != Store(id)
    requires Legal(INITIAL, run[..|run| - 1]) && id in After(INITIAL, run[..|run| - 1]).running
    requires id in After(INITIAL, run).running
    requires After(INITIAL, run).running[id].transit == After(INITIAL, run[..|run| - 1]).running[id].transit
    requires TransitIs(run[..|run| - 1], id)
    ensures TransitIs(run, id)
  {
    var front := run[..|run| - 1];
    var transit := After(INITIAL, run).running[id].transit;
    hide Legal, After, Enabled, Apply;
    forall o: nat | ObservedAt(run, id, o) && Observes(run[..o], id) >= Stores(run, id)
      ensures var m := Observes(run[..o], id) - Stores(run, id);
              && m < |transit| && transit[m].key == run[o].key && transit[m].source == run[o].source
              && PublishedAt(run, id, o, transit[m].used)
    {
      assert front[..o] == run[..o] && ObservedAt(front, id, o);
      PublishedFront(run, id, o, transit[Observes(run[..o], id) - Stores(run, id)].used);
    }
  }

  /** A key that the last step does not touch. */
  lemma {:induction false} KeyKept(
    run: seq<Action>, id: nat, key: string, before: map<string, Cached>, after: map<string, Cached>)
    requires run != [] && !Touches(run, id, key, |run| - 1) && CachedAs(run[..|run| - 1], id, before, key)
    requires (key in before <==> key in after) && (key in before ==> before[key] == after[key])
    ensures CachedAs(run, id, after, key)
  {
    var front, n := run[..|run| - 1], |run| - 1;
    LastStoredFront(run, id, key);
    forall j: nat, o: nat
      ensures LastStored(run, id, key, j, o) <==> LastStored(front, id, key, j, o)
    {
      if StoredAt(run, id, j, o) && run[o].key == key {
        assert Touches(run, id, key, j);
      }
    }
    forall j: nat, o: nat | LastStored(run, id, key, j, o)
      ensures key in after && after[key].source == run[o].source && PublishedAt(run, id, o, after[key].used)
      ensures after[key].stored == TrimObject(run[o].source, after[key].used)
    {
      assert LastStored(front, id, key, j, o) && run[o] == front[o];
      PublishedFront(run, id, o, after[key].used);
    }
  }

  lemma {:induction false} CacheOnOther(run: seq<Action>, id: nat)
    requires Legal(INITIAL, run) && run != [] && Legal(INITIAL, run[..|run| - 1])
    requires id in After(INITIAL, run).running && id in After(INITIAL, run[..|run| - 1]).running
    requires After(INITIAL, run).running[id].cache == After(INITIAL, run[..|run| - 1]).running[id].cache
    requires run[|run| - 1] != Store(id) && (run[|run| - 1].Forget? ==> run[|run| - 1].id != id)
    requires CacheIs(run[..|run| - 1], id)
    ensures CacheIs(run, id)
  {
    var cache := After(INITIAL, run).running[id].cache;
    hide Legal, After, CachedAs;
    forall key
      ensures CachedAs(run, id, cache, key)
    {
      assert !Touches(run, id, key, |run| - 1);
      KeyKept(run, id, key, cache, cache);
    }
  }

  lemma {:induction false} CacheOnForget(run: seq<Action>, id: nat, forgotten: string)
    requires Legal(INITIAL, run) && run != [] && Legal(INITIAL, run[..|run| - 1])
    requires run[|run| - 1] == Forget(id, forgotten) && id in After(INITIAL, run[..|run| - 1]).running
    requires CacheIs(run[..|run| - 1], id)
    ensures id in After(INITIAL, run).running && CacheIs(run, id)
  {
    var before, after := After(INITIAL, run[..|run| - 1]).running[id].cache, After(INITIAL, run).running[id].cache;
    assert after == before - {forgotten};
    hide Legal, After;
    forall key
      ensures CachedAs(run, id, after, key)
    {
      if key == forgotten {
        assert Touches(run, id, key, |run| - 1);
        forall j: nat, o: nat
          ensures !LastStored(run, id, key, j, o)
        {}
      } else {
        assert !Touches(run, id, key, |run| - 1);
        KeyKept(run, id, key, before, after);
      }
    }
  }

  /** The key that the last step stores. */
  lemma {:induction false} StoredNow(run: seq<Action>, id: nat, key: string, first: nat)
    requires run != [] && StoredAt(run, id, |run| - 1, first) && run[first].key == key
    ensures LastStored(run, id, key, |run| - 1, first)
    ensures forall j: nat, o: nat | LastStored(run, id, key, j, o) :: o == first
  {
    assert Touches(run, id, key, |run| - 1);
    forall j: nat, o: nat | LastStored(run, id, key, j, o)
      ensures o == first
    {
      assert j == |run| - 1;
      StoredOnce(run, id, j, o, first);
    }
  }

  lemma {:induction false} CacheOnStore(run: seq<Action>, id: nat)
    requires Legal(INITIAL, run) && run != [] && Legal(INITIAL, run[..|run| - 1])
    requires run[|run| - 1] == Store(id) && id in After(INITIAL, run[..|run| - 1]).running
    requires TransitIs(run[..|run| - 1], id) && CacheIs(run[..|run| - 1], id)
    ensures id in After(INITIAL, run).running && CacheIs(run, id)
  {
    var front, n := run[..|run| - 1], |run| - 1;
    var i, after := After(INITIAL, front).running[id], After(INITIAL, run).running[id].cache;
    var t := i.transit[0];
    assert after == i.cache[t.key := Cached(t.source, t.used, TrimObject(t.source, t.used))];
    var first := NthObserve(front, id, Stores(front, id));
    assert front[..first] == run[..first] && run[..n] == front && run[first] == front[first];
    assert StoredAt(run, id, n, first);
    assert t.key == run[first].key && t.source == run[first].source && PublishedAt(front, id, first, t.used);
    PublishedFront(run, id, first, t.used);
    hide Legal, After, TrimObject, PublishedAt, TransitIs;
    forall key
      ensures CachedAs(run, id, after, key)
    {
      if key == t.key {
        StoredNow(run, id, key, first);
      } else {
        forall o: nat | StoredAt(run, id, n, o)
          ensures run[o].key != key
        {
          StoredOnce(run, id, n, o, first);
        }
        assert !Touches(run, id, key, n);
        KeyKept(run, id, key, i.cache, after);
      }
    }
  }

  /** What each kind of step does to an informer that was running. */
  lemma {:induction false} StepOn(s: State, a: Action, id: nat)
    requires Enabled(s, a) && Inv(s) && id in s.running && id in Apply(s, a).running
    ensures !(a.Observe? && a.id == id) && a != Store(id) ==> Apply(s, a).running[id].transit == s.running[id].transit
    ensures a != Store(id) && !(a.Forget? && a.id == id) ==> Apply(s, a).running[id].cache == s.running[id].cache
  {
    hide TrimObject, StrictlySorted, Sublist, SortedFields, AllFaithful, Orderly;
  }

  lemma {:induction false} StartsEmpty(s: State, a: Action, id: nat)
    requires Enabled(s, a) && id !in s.running && id in Apply(s, a).running
    ensures a.Start? && id == s.nextId && Apply(s, a).running[id].cache == map[] &&
        Apply(s, a).running[id].transit == []
  {
    hide TrimObject, StrictlySorted, Sublist;
  }

  lemma {:induction false} StartHistory(run: seq<Action>, id: nat)
    requires Legal(INITIAL, run) && run != [] && Legal(INITIAL, run[..|run| - 1])
    requires id in After(INITIAL, run).running && id !in After(INITIAL, run[..|run| - 1]).running
    ensures TransitIs(run, id) && CacheIs(run, id)
  {
    var front := run[..|run| - 1];
    StartsEmpty(After(INITIAL, front), run[|run| - 1], id);
    Untouched(front, id);
    hide Legal, After, Enabled, Apply;
    forall o: nat
      ensures !ObservedAt(run, id, o)
    {
      assert run[..|run|] == run;
      if o < |run| {
        ObservesGrow(run, id, o, |run|);
      }
    }
    forall key, j: nat, o: nat
      ensures !LastStored(run, id, key, j, o)
    {
      if j < |front| {
        assert run[j] == front[j];
      }
    }
  }

  /** The caches and the queues of every run are what its watch events make them. */
  lemma {:induction false} RunHistory(run: seq<Action>, id: nat)
    requires Legal(INITIAL, run) && id in After(INITIAL, run).running
    ensures TransitIs(run, id) && CacheIs(run, id)
    decreases |run|
  {
    assert run != [];
    var front, a := run[..|run| - 1], run[|run| - 1];
    InitialInv();
    RunKeepsInv(INITIAL, front);
    assert Enabled(After(INITIAL, front), a) && After(INITIAL, run) == Apply(After(INITIAL, front), a);
    hide TransitIs, CacheIs, Enabled, Apply, Inv;
    if id !in After(INITIAL, front).running {
      StartHistory(run, id);
    } else {
      RunHistory(front, id);
      StepOn(After(INITIAL, front), a, id);
      if a == Store(id) {
        OnStore(run, id);
        CacheOnStore(run, id);
      } else if a.Observe? && a.id == id {
        OnObserve(run, id);
        CacheOnOther(run, id);
      } else {
        OnOther(run, id);
        if a.Forget? && a.id == id {
          CacheOnForget(run, id, a.key);
        } else {
          CacheOnOther(run, id);
        }
      }
    }
  }

  /**
   * What a cached object answers on every published path, and every identity path, is what the object that was observed
   * last, of those stored, answers.
   */
  lemma {:induction false} CachedAsObserved(run: seq<Action>, gvr: GVR, key: string, q: Path) returns (j: nat, o: nat)
    requires Legal(INITIAL, run) && LiveAt(After(INITIAL, run), gvr)
    requires key in After(INITIAL, run).running[After(INITIAL, run).entries[gvr].id].cache
    requires Covered(PathSet(FieldsAt(After(INITIAL, run), gvr) + IDENTITY_FIELDS), q)
    ensures var s := After(INITIAL, run);
            && LastStored(run, s.entries[gvr].id, key, j, o)
            && Lookup(s.running[s.entries[gvr].id].cache[key].stored, q) == Lookup(run[o].source, q)
  {
    var s := After(INITIAL, run);
    var id := s.entries[gvr].id;
    InitialInv();
    RunKeepsInv(INITIAL, run);
    RunHistory(run, id);
    CachedAgrees(s, gvr, key, q);
    hide Legal, After, LastStored, Lookup, Inv;
    assert CachedAs(run, id, s.running[id].cache, key);
    j, o :| LastStored(run, id, key, j, o);
  }
}
