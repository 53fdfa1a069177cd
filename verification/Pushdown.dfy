// Projection pushdown: an expression evaluates alike on an object and on its trimmed copy.
module Pushdown {
  import opened Paths
  import opened Trim
  import opened Cel

  // ---- Walking a chain of selects from the root ----

  function Walk(sem: Semantics, r: Result, steps: seq<(string, bool)>): Result
    decreases |steps|
  {
    if steps == [] then r else Walk(sem, SelectStep(sem, r, steps[0].0, steps[0].1), steps[1..])
  }

  lemma {:induction false} WalkSnoc(sem: Semantics, r: Result, steps: seq<(string, bool)>, last: (string, bool))
    ensures Walk(sem, r, steps + [last]) == SelectStep(sem, Walk(sem, r, steps), last.0, last.1)
    decreases |steps|
  {
    if steps == [] {
      assert [] + [last] == [last];
    } else {
      WalkSnoc(sem, SelectStep(sem, r, steps[0].0, steps[0].1), steps[1..], last);
      assert (steps + [last])[1..] == steps[1..] + [last];
    }
  }

  lemma {:induction false} EvalChain(sem: Semantics, e: Expr, env: Env)
    ensures Eval(sem, e, env) == Walk(sem, Eval(sem, Base(e), env), Steps(e))
  {
    if e.Select? {
      EvalChain(sem, e.operand, env);
      WalkSnoc(sem, Eval(sem, Base(e), env), Steps(e.operand), (e.field, e.testOnly));
    }
  }

  /** A chain that ends under a kept path, through maps, cannot tell the trimmed object from the full one. */
  lemma {:induction false} WalkTrimmed(sem: Semantics, v: Value, paths: set<Path>, steps: seq<(string, bool)>)
    requires NonEmptyPaths(paths) && Covered(paths, Names(steps)) && MapsAlong(v, Names(steps))
    ensures Walk(sem, Ok(TrimValue(v, paths)), steps) == Walk(sem, Ok(v), steps)
    decreases |steps|
  {
    var names := Names(steps);
    assert names != [] by {
      var p :| p in paths && p <= names;
    }
    var key := names[0];
    assert Names(steps[1..]) == names[1..];
    if key in v.fields && [key] !in paths {
      SubCovered(paths, names);
      SubNonEmpty(paths, key);
      var r :| r in Sub(paths, key) && r <= names[1..];
      assert names[1..] != [];
      if !steps[0].1 {
        WalkTrimmed(sem, v.fields[key], Sub(paths, key), steps[1..]);
      }
    }
  }

  // ---- Every expression of the fragment ----

  /** The environments differ at most in the root, where one holds the full object and the other its trimmed copy. */
  ghost predicate Related(full: Env, trimmed: Env, bound: set<string>, v: Value, paths: set<Path>) {
    && full.Keys == trimmed.Keys
    && (forall name | name in full.Keys && (name != ROOT || ROOT in bound) :: full[name] == trimmed[name])
    && (ROOT !in bound ==> ROOT in full && full[ROOT] == Ok(v) && trimmed[ROOT] == Ok(TrimValue(v, paths)))
  }

  ghost predicate Answers(needs: seq<Path>, v: Value, paths: set<Path>) {
    forall q | q in needs :: Covered(paths, q) && MapsAlong(v, q)
  }

  lemma {:induction false} PushdownChain(
    sem: Semantics, e: Expr, bound: set<string>, full: Env, trimmed: Env, v: Value, paths: set<Path>)
    requires e.Select? && Base(e).Ident? && NonEmptyPaths(paths)
    requires Related(full, trimmed, bound, v, paths) && Answers(Needs(e), v, paths)
    ensures Eval(sem, e, full) == Eval(sem, e, trimmed)
  {
    EvalChain(sem, e, full);
    EvalChain(sem, e, trimmed);
    if Base(e).name == ROOT && ROOT !in bound {
      NeedsChain(e);
      assert Names(Steps(e)) in Needs(e);
      WalkTrimmed(sem, v, paths, Steps(e));
    }
  }

  lemma {:induction false} PushdownExpr(
    sem: Semantics, e: Expr, bound: set<string>, full: Env, trimmed: Env, v: Value, paths: set<Path>)
    requires Fragment(e, bound) && NonEmptyPaths(paths)
    requires Related(full, trimmed, bound, v, paths) && Answers(Needs(e), v, paths)
    ensures Eval(sem, e, full) == Eval(sem, e, trimmed)
    decreases e, 1, 0
  {
    match e {
      case Const(_) =>
      case Ident(_) =>
      case Select(operand, _, _) =>
        BaseInFragment(e, bound);
        if Base(e).Ident? {
          PushdownChain(sem, e, bound, full, trimmed, v, paths);
        } else {
          PushdownExpr(sem, operand, bound, full, trimmed, v, paths);
        }
      case Call(_, operands) =>
        PushdownAll(sem, operands, bound, full, trimmed, v, paths);
      case Literal(_, parts) =>
        PushdownAll(sem, parts, bound, full, trimmed, v, paths);
      case Comprehension(_, range, accuVar, init, _, _, result) =>
        PushdownExpr(sem, range, bound, full, trimmed, v, paths);
        if Eval(sem, range, full).Ok? {
          PushdownExpr(sem, init, bound, full, trimmed, v, paths);
          var items, accu := sem.elements(Eval(sem, range, full).value), Eval(sem, init, full);
          PushdownFold(sem, e, items, accu, bound, full, trimmed, v, paths);
          var final := Fold(sem, e, items, accu, full);
          PushdownExpr(sem, result, bound + {accuVar}, full[accuVar := final], trimmed[accuVar := final], v, paths);
        }
    }
  }

  lemma {:induction false} PushdownAll(
    sem: Semantics, es: seq<Expr>, bound: set<string>, full: Env, trimmed: Env, v: Value, paths: set<Path>)
    requires FragmentAll(es, bound) && NonEmptyPaths(paths)
    requires Related(full, trimmed, bound, v, paths) && Answers(NeedsAll(es), v, paths)
    ensures EvalAll(sem, es, full) == EvalAll(sem, es, trimmed)
    decreases es, 1, 0
  {
    if es != [] {
      PushdownExpr(sem, es[0], bound, full, trimmed, v, paths);
      PushdownAll(sem, es[1..], bound, full, trimmed, v, paths);
    }
  }

  lemma {:induction false} PushdownFold(
    sem: Semantics, e: Expr, items: seq<Value>, accu: Result, bound: set<string>, full: Env, trimmed: Env,
    v: Value, paths: set<Path>)
    requires e.Comprehension? && Fragment(e, bound) && NonEmptyPaths(paths)
    requires Related(full, trimmed, bound, v, paths) && Answers(Needs(e), v, paths)
    ensures Fold(sem, e, items, accu, full) == Fold(sem, e, items, accu, trimmed)
    decreases e, 0, |items|
  {
    if items != [] {
      var f := full[e.iterVar := Ok(items[0])][e.accuVar := accu];
      var t := trimmed[e.iterVar := Ok(items[0])][e.accuVar := accu];
      var inner := bound + {e.iterVar, e.accuVar};
      PushdownExpr(sem, e.cond, inner, f, t, v, paths);
      PushdownExpr(sem, e.step, inner, f, t, v, paths);
      PushdownFold(sem, e, items[1..], Eval(sem, e.step, f), bound, full, trimmed, v, paths);
    }
  }

  // ---- The theorem, in the terms of the code ----

  /** What the environment of an expression binds: the root, and the item of a forEach metric. */
  function RootEnv(v: Value): Env {
    map[ROOT := Ok(v)]
  }

  function ItemEnv(v: Value, item: Value): Env {
    map[ROOT := Ok(v), "item" := Ok(item)]
  }

  /** Maps, or nothing, above the end of every path the expression requires. */
  predicate Traversable(v: Value, fields: seq<string>) {
    forall f | f in fields :: MapsAlong(v, Segments(f))
  }

  lemma {:induction false} NamesDotFree(e: Expr)
    requires DotFreeNames(e)
    ensures DotFree(Names(Steps(e)))
  {
    if e.Select? {
      NamesDotFree(e.operand);
      NamesAppend(Steps(e.operand), [(e.field, e.testOnly)]);
      assert Names([(e.field, e.testOnly)]) == [e.field];
    }
  }

  lemma {:induction false} NeedsDotFree(e: Expr)
    requires DotFreeNames(e)
    ensures forall q | q in Needs(e) :: q != [] && DotFree(q)
    decreases e
  {
    match e {
      case Const(_) =>
      case Ident(_) =>
      case Select(operand, _, _) =>
        NamesDotFree(e);
        NeedsDotFree(operand);
      case Call(_, operands) => NeedsAllDotFree(operands);
      case Literal(_, parts) => NeedsAllDotFree(parts);
      case Comprehension(_, range, _, init, cond, step, result) =>
        NeedsDotFree(range);
        NeedsDotFree(init);
        NeedsDotFree(cond);
        NeedsDotFree(step);
        NeedsDotFree(result);
    }
  }

  lemma {:induction false} NeedsAllDotFree(es: seq<Expr>)
    requires forall e | e in es :: DotFreeNames(e)
    ensures forall q | q in NeedsAll(es) :: q != [] && DotFree(q)
    decreases es
  {
    if es != [] {
      NeedsDotFree(es[0]);
      NeedsAllDotFree(es[1..]);
    }
  }

  /** The recorded strings name the needed paths: cutting at the dots gives them back. */
  lemma {:induction false} RequiredFieldsCover(e: Expr, v: Value, fields: seq<string>)
    requires Fragment(e, {}) && DotFreeNames(e)
    requires (forall f | f in RequiredFields(e) :: f in fields) && Traversable(v, RequiredFields(e))
    ensures Answers(Needs(e), v, PathSet(fields + IDENTITY_FIELDS))
  {
    RequiredFieldsAreNeeds(e);
    NeedsDotFree(e);
    forall q | q in Needs(e)
      ensures Covered(PathSet(fields + IDENTITY_FIELDS), q) && MapsAlong(v, q)
    {
      var i :| 0 <= i < |Needs(e)| && Needs(e)[i] == q;
      assert Joined(Needs(e))[i] == Join(q);
      assert Join(q) in RequiredFields(e);
      SegmentsOfJoin(q);
      assert Join(q) in fields + IDENTITY_FIELDS;
      assert Segments(Join(q)) in PathSet(fields + IDENTITY_FIELDS) && q <= q;
    }
  }

  /**
   * Evaluating on the object trimmed to any field list that contains the required fields gives the result of the
   * full object, with or without an item in scope.
   */
  lemma {:induction false} PushdownPreservesMeaning(sem: Semantics, e: Expr, v: Value, fields: seq<string>, item: Value)
    requires Fragment(e, {}) && DotFreeNames(e)
    requires (forall f | f in RequiredFields(e) :: f in fields) && Traversable(v, RequiredFields(e))
    ensures Eval(sem, e, RootEnv(TrimObject(v, fields))) == Eval(sem, e, RootEnv(v))
    ensures Eval(sem, e, ItemEnv(TrimObject(v, fields), item)) == Eval(sem, e, ItemEnv(v, item))
  {
    hide TrimValue, PathSet, Fragment, Traversable;
    RequiredFieldsCover(e, v, fields);
    var paths := PathSet(fields + IDENTITY_FIELDS);
    PathSetNonEmpty(fields + IDENTITY_FIELDS);
    var trimmed := TrimObject(v, fields);
    assert trimmed == TrimValue(v, paths);
    PushdownExpr(sem, e, {}, RootEnv(v), RootEnv(trimmed), v, paths);
    PushdownExpr(sem, e, {}, ItemEnv(v, item), ItemEnv(trimmed, item), v, paths);
  }

  // ---- The conditions are needed ----

  /**
   * Selecting through anything but a map yields null; missing keys are errors; calls and map literals are transparent.
   */
  function Transparent(): Semantics {
    Semantics(
      (f: string, args: seq<Result>) => if args == [] then Ok(Null) else args[0],
      (kind: LiteralKind, parts: seq<Result>) => if |parts| == 2 && parts[0].Ok? && parts[0].value.Text? && parts[1].Ok?
        then Ok(Obj(map[parts[0].value.s := parts[1].value])) else Err(1),
      (key: string) => 2,
      (name: string) => 3,
      (v: Value, field: string, testOnly: bool) => Ok(Null),
      (v: Value) => [],
      (r: Result) => false)
  }

  /** A chain of selects whose last step alone may be a presence test, as the parser builds them. */
  predicate TestsOnlyLast(steps: seq<(string, bool)>) {
    forall i | 0 <= i < |steps| - 1 :: !steps[i].1
  }

  lemma {:induction false} WalkStuck(steps: seq<(string, bool)>, r: Result)
    requires r == Ok(Null) || r.Err?
    ensures Walk(Transparent(), r, steps) == r
    decreases |steps|
  {
    if steps != [] {
      WalkStuck(steps[1..], r);
    }
  }

  lemma {:induction false} SubOfOne(names: Path)
    requires |names| > 1
    ensures Sub({names}, names[0]) == {names[1..]} && [names[0]] !in {names}
  {
    forall r | r in Sub({names}, names[0]) ensures r == names[1..] {}
    assert names[1..] in Sub({names}, names[0]);
  }

  /** Trimmed to the very path it reads, a chain that runs into a scalar half-way is told apart. */
  lemma {:induction false} WalkThroughScalar(v: Value, steps: seq<(string, bool)>)
    requires steps != [] && TestsOnlyLast(steps) && v.Obj? && !MapsAlong(v, Names(steps))
    ensures Walk(Transparent(), Ok(v), steps) == Ok(Null)
    ensures Walk(Transparent(), Ok(TrimValue(v, {Names(steps)})), steps).Err?
    decreases |steps|
  {
    var names := Names(steps);
    var key, rest := names[0], names[1..];
    assert names == [key] + rest && Names(steps[1..]) == rest;
    assert key in v.fields && |steps| > 1;
    var child := v.fields[key];
    SubOfOne(names);
    if child.Obj? {
      WalkThroughScalar(child, steps[1..]);
      assert TrimValue(v, {names}).fields[key] == TrimValue(child, {rest});
    } else {
      assert key !in TrimValue(v, {names}).fields;
      WalkStuck(steps[2..], Ok(Null));
      WalkStuck(steps[1..], Err(2));
      assert Walk(Transparent(), Ok(child), steps[1..]) == Walk(Transparent(), Ok(Null), steps[1..][1..])
        by { assert SelectStep(Transparent(), Ok(child), steps[1].0, steps[1].1) == Ok(Null); }
      assert steps[1..][1..] == steps[2..];
    }
  }

  /**
   * For one chain and the one path it reads: trimming is invisible to every runtime exactly if only maps are crossed.
   */
  lemma {:induction false} ChainPushdownExact(v: Value, steps: seq<(string, bool)>)
    requires steps != [] && TestsOnlyLast(steps) && v.Obj?
    ensures MapsAlong(v, Names(steps)) <==>
            forall sem :: Walk(sem, Ok(TrimValue(v, {Names(steps)})), steps) == Walk(sem, Ok(v), steps)
  {
    hide Walk, TrimValue, MapsAlong;
    if MapsAlong(v, Names(steps)) {
      assert Names(steps) <= Names(steps);
      forall sem
        ensures Walk(sem, Ok(TrimValue(v, {Names(steps)})), steps) == Walk(sem, Ok(v), steps)
      {
        WalkTrimmed(sem, v, {Names(steps)}, steps);
      }
    } else {
      WalkThroughScalar(v, steps);
    }
  }

  lemma {:induction false} HeadStart(p: string)
    requires p != "" && p[0] != '.'
    ensures Segments(p)[0] != "" && Segments(p)[0][0] == p[0]
  {}

  lemma {:induction false} NotIdentity(key: string)
    requires key != "" && key[0] !in {'a', 'k', 'm'}
    ensures forall f | f in IDENTITY_FIELDS :: Segments(f)[0] != key
  {
    hide Segments;
    forall f | f in IDENTITY_FIELDS
      ensures Segments(f)[0] != key
    {
      assert f != "" && f[0] in {'a', 'k', 'm'};
      HeadStart(f);
    }
  }

  lemma {:induction false} NothingKept(v: Value, key: string, fields: seq<string>)
    requires v.Obj? && forall f | f in fields + IDENTITY_FIELDS :: Segments(f)[0] != key
    ensures key !in TrimObject(v, fields).fields
  {
    var paths := PathSet(fields + IDENTITY_FIELDS);
    assert forall p | p in paths :: p[0] != key;
  }

  /** Reading the root itself records nothing, and a transparent call sees the difference. */
  lemma {:induction false} BareRootEscapes()
    ensures var e, v := Call("f", [Ident(ROOT)]), Obj(map["spec" := Null]);
            && RequiredFields(e) == []
            && Eval(Transparent(), e, RootEnv(TrimObject(v, RequiredFields(e)))) != Eval(Transparent(), e, RootEnv(v))
  {
    var e, v := Call("f", [Ident(ROOT)]), Obj(map["spec" := Null]);
    assert VisitedAll([Ident(ROOT)], Visit([], [])) == VisitedAll([Ident(ROOT)][1..], Visit([], []));
    assert RequiredFields(e) == [];
    NotIdentity("spec");
    NothingKept(v, "spec", []);
    assert forall w :: Eval(Transparent(), e, RootEnv(w)) == Ok(w) by {
      forall w
        ensures Eval(Transparent(), e, RootEnv(w)) == Ok(w)
      {
        assert EvalAll(Transparent(), [Ident(ROOT)], RootEnv(w))
            == [Ok(w)] + EvalAll(Transparent(), [Ident(ROOT)][1..], RootEnv(w));
      }
    }
  }

  lemma {:induction false} VisitTwo(a: Expr, b: Expr, st: Visit)
    ensures VisitedAll([a, b], st) == Visited(b, Visited(a, st))
  {
    assert [a, b][1..] == [b] && [b][1..] == [];
    assert VisitedAll([b], Visited(a, st)) == VisitedAll([], Visited(b, Visited(a, st)));
  }

  lemma {:induction false} TrimmedAway(v: Value)
    requires v == Obj(map["b" := Number(5)])
    ensures TrimObject(v, ["b.a"]).Obj? && "b" !in TrimObject(v, ["b.a"]).fields
  {
    NotIdentity("b");
    assert HasDot("b.a");
    LeafIsSingleton(["b.a"] + IDENTITY_FIELDS, "b");
  }

  lemma {:induction false} LeakedPath()
    ensures Reverse(["a", "b"]) == ["b", "a"] && Join(["b", "a"]) == "b.a"
  {
    ReverseAppend(["a"], "b");
    ReverseAppend([], "a");
    assert ["a"] + ["b"] == ["a", "b"] && [] + ["a"] == ["a"];
    assert ["b", "a"][1..] == ["a"];
    assert Join(["b", "a"]) == "b" + "." + "a";
  }

  /** Evaluating `{"a": object.b}.a`. */
  lemma {:induction false} ReadThroughLiteral(v: Value)
    requires v.Obj?
    ensures var e := Select(Literal(MapLiteral, [Const(Text("a")), Select(Ident(ROOT), "b", false)]), "a", false);
            Eval(Transparent(), e, RootEnv(v)) == if "b" in v.fields then Ok(v.fields["b"]) else Err(1)
  {
    var inner, env := Select(Ident(ROOT), "b", false), RootEnv(v);
    var parts := [Const(Text("a")), inner];
    var r := Eval(Transparent(), inner, env);
    assert parts[1..] == [inner] && [inner][1..] == [];
    assert EvalAll(Transparent(), [inner], env) == [r] + EvalAll(Transparent(), [], env) == [r];
    assert EvalAll(Transparent(), parts, env) == [Ok(Text("a")), r];
  }

  /** A select on a map literal leaks its name into the path inside: `b.a` is recorded where `b` is read. */
  lemma {:induction false} LiteralSelectEscapes()
    ensures var e := Select(Literal(MapLiteral, [Const(Text("a")), Select(Ident(ROOT), "b", false)]), "a", false);
            && RequiredFields(e) == ["b.a"]
            && exists v :: Eval(Transparent(), e, RootEnv(TrimObject(v, RequiredFields(e)))) != Eval(Transparent(), e,
                RootEnv(v))
  {
    hide Reverse, Join, Eval, TrimObject, Segments;
    var inner := Select(Ident(ROOT), "b", false);
    var literal := Literal(MapLiteral, [Const(Text("a")), inner]);
    var e := Select(literal, "a", false);
    VisitTwo(Const(Text("a")), inner, Visit(["a"], []));
    assert [] + ["a"] == ["a"] && ["a"] + ["b"] == ["a", "b"];
    LeakedPath();
    assert Visited(inner, Visit(["a"], [])) == Visited(Ident(ROOT), Visit(["a", "b"], [])) == Visit([], ["b.a"]);
    assert Visited(e, Visit([], [])) == Visited(literal, Visit(["a"], [])) == Visit([], ["b.a"]);
    var v := Obj(map["b" := Number(5)]);
    var t := TrimObject(v, ["b.a"]);
    assert t.Obj? && "b" !in t.fields by { TrimmedAway(v); }
    ReadThroughLiteral(v);
    ReadThroughLiteral(t);
  }
}
