// Trimming an object to a set of field paths: the function, its laws, and the in-place algorithm proved against it.
module Trim {
  import opened Paths

  // ---- The meaning of trimming, on sets of paths ----

  function Sub(paths: set<Path>, key: string): set<Path> {
    set p | p in paths && |p| > 1 && p[0] == key :: p[1..]
  }

  predicate Kept(key: string, v: Value, paths: set<Path>) {
    [key] in paths || (Sub(paths, key) != {} && v.Obj?)
  }

  /** A leaf path keeps its whole subtree; a longer path keeps a map, trimmed by what is left of it. */
  function TrimValue(v: Value, paths: set<Path>): (r: Value)
    ensures r.Obj? <==> v.Obj?
  {
    if v.Obj? then
      Obj(map key | key in v.fields && Kept(key, v.fields[key], paths) ::
            if [key] in paths then v.fields[key] else TrimValue(v.fields[key], Sub(paths, key)))
    else v
  }

  predicate Covered(paths: set<Path>, q: Path) {
    exists p | p in paths :: p <= q
  }

  ghost predicate Covers(paths: set<Path>, others: set<Path>) {
    forall q | q in others :: Covered(paths, q)
  }

  predicate NonEmptyPaths(paths: set<Path>) {
    forall p | p in paths :: p != []
  }

  // ---- What survives ----

  lemma {:induction false} SubMember(paths: set<Path>, key: string, rest: Path)
    requires rest != []
    ensures rest in Sub(paths, key) <==> [key] + rest in paths
  {
    if [key] + rest in paths {
      assert ([key] + rest)[1..] == rest;
    }
    if rest in Sub(paths, key) {
      var p :| p in paths && |p| > 1 && p[0] == key && p[1..] == rest;
      assert p == [key] + rest;
    }
  }

  lemma {:induction false} SubNonEmpty(paths: set<Path>, key: string)
    ensures NonEmptyPaths(Sub(paths, key))
  {}

  lemma {:induction false} SubCovered(paths: set<Path>, q: Path)
    requires NonEmptyPaths(paths) && q != []
    ensures Covered(paths, q) <==> [q[0]] in paths || Covered(Sub(paths, q[0]), q[1..])
  {
    if Covered(paths, q) {
      var p :| p in paths && p <= q;
      if |p| > 1 {
        assert p == [q[0]] + p[1..];
        SubMember(paths, q[0], p[1..]);
        assert p[1..] <= q[1..];
      } else {
        assert p == [q[0]];
      }
    }
    if [q[0]] in paths {
      assert [q[0]] <= q;
    }
    if Covered(Sub(paths, q[0]), q[1..]) {
      var r :| r in Sub(paths, q[0]) && r <= q[1..];
      SubNonEmpty(paths, q[0]);
      SubMember(paths, q[0], r);
      assert [q[0]] + r <= q;
    }
  }

  /** Every path through a kept one reads the same after trimming, present or missing. */
  lemma {:induction false} TrimKeeps(v: Value, paths: set<Path>, q: Path)
    requires NonEmptyPaths(paths) && Covered(paths, q)
    ensures Lookup(TrimValue(v, paths), q) == Lookup(v, q)
    decreases q
  {
    assert q != [] by {
      var p :| p in paths && p <= q;
    }
    if v.Obj? && q[0] in v.fields {
      SubCovered(paths, q);
      SubNonEmpty(paths, q[0]);
      if [q[0]] !in paths {
        TrimKeeps(v.fields[q[0]], Sub(paths, q[0]), q[1..]);
      }
    }
  }

  /** Nothing else survives: what is not a map and not under a kept path is gone. */
  lemma {:induction false} TrimDrops(v: Value, paths: set<Path>, q: Path)
    requires NonEmptyPaths(paths) && q != [] && !Covered(paths, q)
    ensures Lookup(TrimValue(v, paths), q).Present? ==>
              Lookup(TrimValue(v, paths), q).value.Obj? && exists p | p in paths :: q < p
    decreases q
  {
    if Lookup(TrimValue(v, paths), q).Present? {
      SubCovered(paths, q);
      SubNonEmpty(paths, q[0]);
      if |q| > 1 {
        TrimDrops(v.fields[q[0]], Sub(paths, q[0]), q[1..]);
        var r :| r in Sub(paths, q[0]) && q[1..] < r;
        SubMember(paths, q[0], r);
        assert q < [q[0]] + r;
      } else {
        var r :| r in Sub(paths, q[0]);
        SubMember(paths, q[0], r);
        assert q < [q[0]] + r;
        assert q[1..] == [];
      }
    }
  }

  lemma {:induction false} AboveKept(v: Value, paths: set<Path>, q: Path)
    requires NonEmptyPaths(paths) && q != [] && !Covered(paths, q) && exists p | p in paths :: q < p
    ensures Lookup(v, q).Present? && Lookup(v, q).value.Obj? ==> Lookup(TrimValue(v, paths), q).Present?
    decreases q
  {
    var p :| p in paths && q < p;
    assert p == [q[0]] + p[1..] && q[1..] < p[1..];
    SubMember(paths, q[0], p[1..]);
    SubCovered(paths, q);
    SubNonEmpty(paths, q[0]);
    assert p[1..] in Sub(paths, q[0]) && [q[0]] !in paths;
    if v.Obj? && q[0] in v.fields {
      var child := v.fields[q[0]];
      assert Lookup(v, q) == Lookup(child, q[1..]);
      if child.Obj? {
        assert Kept(q[0], child, paths);
        assert Lookup(TrimValue(v, paths), q) == Lookup(TrimValue(child, Sub(paths, q[0])), q[1..]);
        if |q| > 1 {
          AboveKept(child, Sub(paths, q[0]), q[1..]);
        }
      }
    }
  }

  lemma {:induction false} NothingAppears(v: Value, paths: set<Path>, q: Path)
    ensures Lookup(TrimValue(v, paths), q).Present? ==>
              Lookup(v, q).Present? && (Lookup(TrimValue(v, paths), q).value.Obj? <==> Lookup(v, q).value.Obj?)
    decreases q
  {
    if q != [] && v.Obj? && q[0] in v.fields {
      assert Lookup(v, q) == Lookup(v.fields[q[0]], q[1..]);
      if Kept(q[0], v.fields[q[0]], paths) {
        assert Lookup(TrimValue(v, paths), q) == Lookup(TrimValue(v, paths).fields[q[0]], q[1..]);
        if [q[0]] !in paths {
          NothingAppears(v.fields[q[0]], Sub(paths, q[0]), q[1..]);
        }
      }
    }
  }

  /** Exactly what survives: what a kept path covers, and the maps on the way to one, even those left empty. */
  lemma {:induction false} TrimSurvives(v: Value, paths: set<Path>, q: Path)
    requires NonEmptyPaths(paths) && q != []
    ensures Lookup(TrimValue(v, paths), q).Present? <==>
              && Lookup(v, q).Present?
              && (Covered(paths, q) || (Lookup(v, q).value.Obj? && exists p | p in paths :: q < p))
  {
    NothingAppears(v, paths, q);
    hide TrimValue, Lookup;
    if Covered(paths, q) {
      TrimKeeps(v, paths, q);
    } else {
      TrimDrops(v, paths, q);
      if exists p | p in paths :: q < p {
        AboveKept(v, paths, q);
      }
    }
  }

  // ---- Laws ----

  lemma {:induction false} SubCovers(paths: set<Path>, others: set<Path>, key: string)
    requires NonEmptyPaths(paths) && Covers(paths, others) && [key] !in paths
    ensures Covers(Sub(paths, key), Sub(others, key))
    ensures Sub(others, key) != {} ==> Sub(paths, key) != {}
  {
    forall r | r in Sub(others, key)
      ensures Covered(Sub(paths, key), r)
    {
      SubNonEmpty(others, key);
      SubMember(others, key, r);
      SubCovered(paths, [key] + r);
      assert ([key] + r)[1..] == r;
    }
    if r :| r in Sub(others, key) {
      assert Covered(Sub(paths, key), r);
    }
  }

  lemma {:induction false} LeafCovered(paths: set<Path>, others: set<Path>, key: string)
    requires NonEmptyPaths(paths) && Covers(paths, others) && [key] in others
    ensures [key] in paths
  {
    var p :| p in paths && p <= [key];
    assert p == [key];
  }

  /** Trimming to more first does not change what trimming to less gives. */
  lemma {:induction false} TrimTwice(v: Value, wide: set<Path>, narrow: set<Path>)
    requires NonEmptyPaths(wide) && Covers(wide, narrow)
    ensures TrimValue(TrimValue(v, wide), narrow) == TrimValue(v, narrow)
    decreases v
  {
    if v.Obj? {
      var once, twice, direct := TrimValue(v, wide), TrimValue(TrimValue(v, wide), narrow), TrimValue(v, narrow);
      forall key | key in v.fields
        ensures key in twice.fields <==> key in direct.fields
        ensures key in direct.fields ==> twice.fields[key] == direct.fields[key]
      {
        if [key] in narrow {
          LeafCovered(wide, narrow, key);
        } else if [key] !in wide {
          SubCovers(wide, narrow, key);
          SubNonEmpty(wide, key);
          TrimTwice(v.fields[key], Sub(wide, key), Sub(narrow, key));
        }
      }
      assert twice.fields == direct.fields;
    }
  }

  /** Two path sets that cover each other trim alike: a leaf path absorbs every longer path through it. */
  lemma {:induction false} TrimEquivalent(v: Value, paths: set<Path>, others: set<Path>)
    requires NonEmptyPaths(paths) && NonEmptyPaths(others) && Covers(paths, others) && Covers(others, paths)
    ensures TrimValue(v, paths) == TrimValue(v, others)
    decreases v
  {
    if v.Obj? {
      var a, b := TrimValue(v, paths), TrimValue(v, others);
      forall key | key in v.fields
        ensures key in a.fields <==> key in b.fields
        ensures key in a.fields ==> a.fields[key] == b.fields[key]
      {
        if [key] in paths {
          LeafCovered(others, paths, key);
        } else if [key] in others {
          LeafCovered(paths, others, key);
        } else {
          SubCovers(paths, others, key);
          SubCovers(others, paths, key);
          SubNonEmpty(paths, key);
          SubNonEmpty(others, key);
          TrimEquivalent(v.fields[key], Sub(paths, key), Sub(others, key));
        }
      }
      assert a.fields == b.fields;
    }
  }

  /** Where every path of `narrow` is in `wide`, the cover is immediate. */
  lemma {:induction false} SupersetCovers(wide: set<Path>, narrow: set<Path>)
    requires narrow <= wide
    ensures Covers(wide, narrow)
  {
    forall q | q in narrow ensures Covered(wide, q) { assert q <= q; }
  }

  lemma {:induction false} TrimIdempotent(v: Value, paths: set<Path>)
    requires NonEmptyPaths(paths)
    ensures TrimValue(TrimValue(v, paths), paths) == TrimValue(v, paths)
  {
    SupersetCovers(paths, paths);
    TrimTwice(v, paths, paths);
  }

  // ---- Paths as the strings a policy gives ----

  function PathSet(paths: seq<string>): set<Path> {
    set p | p in paths :: Segments(p)
  }

  const IDENTITY_FIELDS: seq<string> :=
    ["apiVersion", "kind", "metadata.name", "metadata.namespace", "metadata.resourceVersion", "metadata.uid"]

  /** The object that goes into the cache. */
  function TrimObject(v: Value, fields: seq<string>): Value {
    TrimValue(v, PathSet(fields + IDENTITY_FIELDS))
  }

  lemma {:induction false} PathSetNonEmpty(paths: seq<string>)
    ensures NonEmptyPaths(PathSet(paths))
  {}

  lemma {:induction false} PathSetSubset(wide: seq<string>, narrow: seq<string>)
    requires forall p | p in narrow :: p in wide
    ensures PathSet(narrow + IDENTITY_FIELDS) <= PathSet(wide + IDENTITY_FIELDS)
  {}

  lemma {:induction false} IdentityPath(v: Value, fields: seq<string>, i: nat)
    requires i < |IDENTITY_FIELDS|
    ensures Lookup(TrimObject(v, fields), Segments(IDENTITY_FIELDS[i])) == Lookup(v, Segments(IDENTITY_FIELDS[i]))
  {
    var all, path := fields + IDENTITY_FIELDS, Segments(IDENTITY_FIELDS[i]);
    assert all[|fields| + i] == IDENTITY_FIELDS[i];
    hide Segments, TrimValue, Lookup;
    assert path in PathSet(all) && path <= path;
    PathSetNonEmpty(all);
    TrimKeeps(v, PathSet(all), path);
  }

  /** The fields that identify an object survive, whatever is asked for. */
  lemma {:induction false} IdentityKept(v: Value, fields: seq<string>, field: string)
    requires field in ["apiVersion", "kind", "metadata.name", "metadata.namespace", "metadata.resourceVersion",
                       "metadata.uid"]
    ensures Lookup(TrimObject(v, fields), Segments(field)) == Lookup(v, Segments(field))
  {
    hide Segments, TrimObject, Lookup;
    var i :| 0 <= i < |IDENTITY_FIELDS| && IDENTITY_FIELDS[i] == field;
    IdentityPath(v, fields, i);
  }

  /** Order and repetition of the field list do not matter, only which paths it names. */
  lemma {:induction false} TrimObjectOrderIrrelevant(v: Value, a: seq<string>, b: seq<string>)
    requires forall p :: p in a <==> p in b
    ensures TrimObject(v, a) == TrimObject(v, b)
  {
    hide TrimValue, PathSet;
    PathSetSubset(a, b);
    PathSetSubset(b, a);
    assert PathSet(a + IDENTITY_FIELDS) == PathSet(b + IDENTITY_FIELDS);
  }

  /** Narrowing the fields of an object already trimmed is trimming it from scratch. */
  lemma {:induction false} TrimObjectNarrows(v: Value, wide: seq<string>, narrow: seq<string>)
    requires forall p | p in narrow :: p in wide
    ensures TrimObject(TrimObject(v, wide), narrow) == TrimObject(v, narrow)
  {
    PathSetSubset(wide, narrow);
    PathSetNonEmpty(wide + IDENTITY_FIELDS);
    SupersetCovers(PathSet(wide + IDENTITY_FIELDS), PathSet(narrow + IDENTITY_FIELDS));
    TrimTwice(v, PathSet(wide + IDENTITY_FIELDS), PathSet(narrow + IDENTITY_FIELDS));
  }

  // ---- Grouping paths by their first segment ----

  function LeafKeys(paths: seq<string>): set<string> {
    set p | p in paths && !HasDot(p)
  }

  /** What is left of the nested paths that start with `key`, in order. */
  function Rests(paths: seq<string>, key: string): seq<string> {
    if paths == [] then []
    else (if HasDot(paths[0]) && Head(paths[0]) == key then [Rest(paths[0])] else []) + Rests(paths[1..], key)
  }

  lemma {:induction false} RestsOfNone(paths: seq<string>, key: string)
    requires paths == []
    ensures Rests(paths, key) == []
  {}

  lemma {:induction false} RestsSnoc(paths: seq<string>, p: string, key: string)
    ensures Rests(paths + [p], key)
         == Rests(paths, key) + if HasDot(p) && Head(p) == key then [Rest(p)] else []
  {
    if paths == [] {
      assert [] + [p] == [p] && [p][1..] == [];
    } else {
      RestsSnoc(paths[1..], p, key);
      assert (paths + [p])[1..] == paths[1..] + [p];
    }
  }

  lemma {:induction false} RestsAre(paths: seq<string>, key: string, r: string)
    ensures r in Rests(paths, key) <==> exists p | p in paths :: HasDot(p) && Head(p) == key && Rest(p) == r
  {
    if paths != [] {
      RestsAre(paths[1..], key, r);
      assert forall p :: p in paths <==> p == paths[0] || p in paths[1..];
    }
  }

  lemma {:induction false} LeafIsSingleton(paths: seq<string>, key: string)
    ensures key in LeafKeys(paths) <==> [key] in PathSet(paths)
  {
    if [key] in PathSet(paths) {
      var p :| p in paths && Segments(p) == [key];
      assert !HasDot(p);
    }
    if key in LeafKeys(paths) {
      assert Segments(key) == [key];
    }
  }

  lemma {:induction false} RestsAreSub(paths: seq<string>, key: string)
    ensures PathSet(Rests(paths, key)) == Sub(PathSet(paths), key)
  {
    forall q | q in PathSet(Rests(paths, key))
      ensures q in Sub(PathSet(paths), key)
    {
      var r :| r in Rests(paths, key) && Segments(r) == q;
      RestsAre(paths, key, r);
      var p :| p in paths && HasDot(p) && Head(p) == key && Rest(p) == r;
      assert Segments(p) == [key] + q && Segments(p) in PathSet(paths);
      SubMember(PathSet(paths), key, q);
    }
    forall q | q in Sub(PathSet(paths), key)
      ensures q in PathSet(Rests(paths, key))
    {
      SubNonEmpty(PathSet(paths), key);
      SubMember(PathSet(paths), key, q);
      var p :| p in paths && Segments(p) == [key] + q;
      assert HasDot(p) && Head(p) == key && Segments(p)[1..] == Segments(Rest(p)) == q;
      RestsAre(paths, key, Rest(p));
    }
  }

  method GroupPaths(paths: seq<string>) returns (leaf: set<string>, branch: map<string, seq<string>>)
    ensures leaf == LeafKeys(paths)
    ensures forall key :: key in branch <==> key !in leaf && Rests(paths, key) != []
    ensures forall key | key in branch :: branch[key] == Rests(paths, key)
  {
    hide Rests, Rest, DotIndex;
    leaf, branch := {}, map[];
    forall key ensures Rests(paths[..0], key) == [] { RestsOfNone(paths[..0], key); }
    for i := 0 to |paths|
      invariant leaf == LeafKeys(paths[..i])
      invariant forall key :: key in branch <==> key !in leaf && Rests(paths[..i], key) != []
      invariant forall key | key in branch :: branch[key] == Rests(paths[..i], key)
    {
      var p := paths[i];
      assert paths[..i + 1] == paths[..i] + [p];
      forall key
        ensures Rests(paths[..i + 1], key)
             == Rests(paths[..i], key) + if HasDot(p) && Head(p) == key then [Rest(p)] else []
      {
        RestsSnoc(paths[..i], p, key);
      }
      var first := Head(p);
      if !HasDot(p) {
        leaf := leaf + {first};
        branch := branch - {first};
        continue;
      }
      if first in leaf {
        continue;
      }
      branch := branch[first := (if first in branch then branch[first] else []) + [Rest(p)]];
    }
    assert paths[..|paths|] == paths;
  }
}
