// A small deep embedding of the expression language, and the static pass that finds the paths an expression needs.
module Cel {
  import opened Paths

  const ROOT := "object"

  datatype LiteralKind = ListLiteral | MapLiteral | MessageLiteral

  /** A member call has its target first among the operands; a map literal alternates keys and values. */
  datatype Expr =
    | Const(value: Value)
    | Ident(name: string)
    | Select(operand: Expr, field: string, testOnly: bool)
    | Call(function_: string, operands: seq<Expr>)
    | Literal(kind: LiteralKind, parts: seq<Expr>)
    | Comprehension(iterVar: string, range: Expr, accuVar: string, init: Expr, cond: Expr, step: Expr, result: Expr)

  datatype Result = Ok(value: Value) | Err(code: int)

  /**
   * What the language leaves to its runtime: functions and operators (errors absorbed or not), literals, and errors.
   */
  datatype Semantics = Semantics(
    call: (string, seq<Result>) -> Result,
    literal: (LiteralKind, seq<Result>) -> Result,
    missingKey: string -> int,
    unbound: string -> int,
    selectNonMap: (Value, string, bool) -> Result,
    elements: Value -> seq<Value>,
    stops: Result -> bool)

  type Env = map<string, Result>

  // ---- Evaluation ----

  function SelectStep(sem: Semantics, r: Result, field: string, testOnly: bool): Result {
    match r
    case Err(_) => r
    case Ok(Obj(fields)) =>
      if testOnly then Ok(Bool(field in fields))
      else if field in fields then Ok(fields[field])
      else Err(sem.missingKey(field))
    case Ok(v) => sem.selectNonMap(v, field, testOnly)
  }

  function Eval(sem: Semantics, e: Expr, env: Env): Result
    decreases e, 1, 0
  {
    match e
    case Const(value) => Ok(value)
    case Ident(name) => if name in env then env[name] else Err(sem.unbound(name))
    case Select(operand, field, testOnly) => SelectStep(sem, Eval(sem, operand, env), field, testOnly)
    case Call(f, operands) => sem.call(f, EvalAll(sem, operands, env))
    case Literal(kind, parts) => sem.literal(kind, EvalAll(sem, parts, env))
    case Comprehension(_, range, accuVar, init, _, _, result) =>
      match Eval(sem, range, env)
      case Err(code) => Err(code)
      case Ok(v) =>
        var accu := Fold(sem, e, sem.elements(v), Eval(sem, init, env), env);
        Eval(sem, result, env[accuVar := accu])
  }

  function EvalAll(sem: Semantics, es: seq<Expr>, env: Env): seq<Result>
    decreases es, 1, 0
  {
    if es == [] then [] else [Eval(sem, es[0], env)] + EvalAll(sem, es[1..], env)
  }

  function Fold(sem: Semantics, e: Expr, items: seq<Value>, accu: Result, env: Env): Result
    requires e.Comprehension?
    decreases e, 0, |items|
  {
    if items == [] then accu
    else
      var inner := env[e.iterVar := Ok(items[0])][e.accuVar := accu];
      if sem.stops(Eval(sem, e.cond, inner)) then accu
      else Fold(sem, e, items[1..], Eval(sem, e.step, inner), env)
  }

  // ---- The visitor ----

  datatype Visit = Visit(pending: seq<string>, out: seq<string>)

  function Reverse(s: seq<string>): (r: seq<string>)
    ensures |r| == |s|
  {
    if s == [] then [] else Reverse(s[1..]) + [s[0]]
  }

  function VisitIdent(name: string, st: Visit): Visit {
    if st.pending == [] then st
    else Visit([], if name == ROOT then st.out + [Join(Reverse(st.pending))] else st.out)
  }

  /** Pre-order: selects push, identifiers and calls clear, everything else lets the pending names through. */
  function Visited(e: Expr, st: Visit): Visit
    decreases e
  {
    match e
    case Const(_) => st
    case Ident(name) => VisitIdent(name, st)
    case Select(operand, field, _) => Visited(operand, st.(pending := st.pending + [field]))
    case Call(_, operands) => VisitedAll(operands, st.(pending := []))
    case Literal(_, parts) => VisitedAll(parts, st)
    case Comprehension(_, range, _, init, cond, step, result) =>
      Visited(result, Visited(step, Visited(cond, Visited(init, Visited(range, st)))))
  }

  function VisitedAll(es: seq<Expr>, st: Visit): Visit
    decreases es
  {
    if es == [] then st else VisitedAll(es[1..], Visited(es[0], st))
  }

  function RequiredFields(e: Expr): seq<string> {
    Visited(e, Visit([], [])).out
  }

  class FieldVisitor {
    var nextToken: seq<string>
    var out: seq<string>

    constructor ()
      ensures nextToken == [] && out == []
    {
      nextToken, out := [], [];
    }

    method PreOrder(e: Expr)
      modifies this
      ensures Visit(nextToken, out) == Visited(e, old(Visit(nextToken, out)))
      decreases e
    {
      match e
      case Const(_) =>
      case Ident(name) =>
        if nextToken != [] {
          if name == ROOT {
            out := out + [Join(Reverse(nextToken))];
          }
          nextToken := [];
        }
      case Select(operand, field, _) =>
        nextToken := nextToken + [field];
        PreOrder(operand);
      case Call(_, operands) =>
        nextToken := [];
        PreOrderAll(operands);
      case Literal(_, parts) =>
        PreOrderAll(parts);
      case Comprehension(_, range, _, init, cond, step, result) =>
        PreOrder(range);
        PreOrder(init);
        PreOrder(cond);
        PreOrder(step);
        PreOrder(result);
    }

    method PreOrderAll(es: seq<Expr>)
      modifies this
      ensures Visit(nextToken, out) == VisitedAll(es, old(Visit(nextToken, out)))
      decreases es
    {
      if es != [] {
        PreOrder(es[0]);
        PreOrderAll(es[1..]);
      }
    }
  }

  method ComputeRequiredFields(e: Expr) returns (out: seq<string>)
    ensures out == RequiredFields(e)
  {
    var v := new FieldVisitor();
    v.PreOrder(e);
    return v.out;
  }

  // ---- The fragment, and the paths it needs by definition ----

  /** The innermost operand of a chain of selects, and the names selected from it, innermost first. */
  function Base(e: Expr): Expr {
    if e.Select? then Base(e.operand) else e
  }

  function Steps(e: Expr): seq<(string, bool)> {
    if e.Select? then Steps(e.operand) + [(e.field, e.testOnly)] else []
  }

  function Names(steps: seq<(string, bool)>): (r: seq<string>)
    ensures |r| == |steps|
  {
    seq(|steps|, i requires 0 <= i < |steps| => steps[i].0)
  }

  /**
   * Every use of the root is under a select, and no select applies to a literal, a constant or a comprehension.
   * `bound` holds the comprehension variables in scope, which hide the root when one has its name.
   */
  predicate Fragment(e: Expr, bound: set<string>)
    decreases e, 1
  {
    match e
    case Const(_) => true
    case Ident(name) => name != ROOT || name in bound
    case Select(operand, _, _) =>
      operand.Ident? || ((operand.Select? || operand.Call?) && Fragment(operand, bound))
    case Call(_, operands) => FragmentAll(operands, bound)
    case Literal(_, parts) => FragmentAll(parts, bound)
    case Comprehension(iterVar, range, accuVar, init, cond, step, result) =>
      && Fragment(range, bound) && Fragment(init, bound)
      && Fragment(cond, bound + {iterVar, accuVar}) && Fragment(step, bound + {iterVar, accuVar})
      && Fragment(result, bound + {accuVar})
  }

  predicate FragmentAll(es: seq<Expr>, bound: set<string>)
    decreases es, 1
  {
    es != [] ==> Fragment(es[0], bound) && FragmentAll(es[1..], bound)
  }

  /** The parser never produces a selected name with a dot. */
  predicate DotFreeNames(e: Expr)
    decreases e
  {
    match e
    case Const(_) => true
    case Ident(_) => true
    case Select(operand, field, _) => !HasDot(field) && DotFreeNames(operand)
    case Call(_, operands) => forall o | o in operands :: DotFreeNames(o)
    case Literal(_, parts) => forall p | p in parts :: DotFreeNames(p)
    case Comprehension(_, range, _, init, cond, step, result) =>
      DotFreeNames(range) && DotFreeNames(init) && DotFreeNames(cond) && DotFreeNames(step) && DotFreeNames(result)
  }

  /** The paths selected from anything called `object`. */
  function Needs(e: Expr): seq<Path>
    decreases e
  {
    match e
    case Const(_) => []
    case Ident(_) => []
    case Select(operand, _, _) =>
      if Base(e) == Ident(ROOT) then [Names(Steps(e))] else Needs(operand)
    case Call(_, operands) => NeedsAll(operands)
    case Literal(_, parts) => NeedsAll(parts)
    case Comprehension(_, range, _, init, cond, step, result) =>
      Needs(range) + Needs(init) + Needs(cond) + Needs(step) + Needs(result)
  }

  function NeedsAll(es: seq<Expr>): seq<Path>
    decreases es
  {
    if es == [] then [] else Needs(es[0]) + NeedsAll(es[1..])
  }

  function Joined(paths: seq<Path>): (r: seq<string>)
    ensures |r| == |paths|
  {
    seq(|paths|, i requires 0 <= i < |paths| => if paths[i] == [] then "" else Join(paths[i]))
  }

  lemma {:induction false} JoinedConcat(a: seq<Path>, b: seq<Path>)
    ensures Joined(a + b) == Joined(a) + Joined(b)
  {}

  lemma {:induction false} ReverseAppend(s: seq<string>, x: string)
    ensures Reverse(s + [x]) == [x] + Reverse(s)
  {
    if s == [] {
      assert [] + [x] == [x];
    } else {
      ReverseAppend(s[1..], x);
      assert (s + [x])[1..] == s[1..] + [x];
    }
  }

  lemma {:induction false} NamesAppend(a: seq<(string, bool)>, b: seq<(string, bool)>)
    ensures Names(a + b) == Names(a) + Names(b)
  {}

  /** A chain down to an identifier is recorded once, with the names pending above it. */
  lemma {:induction false} VisitChain(e: Expr, st: Visit)
    requires Base(e).Ident?
    ensures Visited(e, st) == VisitIdent(Base(e).name, Visit(st.pending + Reverse(Names(Steps(e))), st.out))
  {
    if e.Select? {
      var inner := st.(pending := st.pending + [e.field]);
      VisitChain(e.operand, inner);
      NamesAppend(Steps(e.operand), [(e.field, e.testOnly)]);
      assert Names([(e.field, e.testOnly)]) == [e.field];
      ReverseAppend(Names(Steps(e.operand)), e.field);
      assert inner.pending + Reverse(Names(Steps(e.operand)))
          == st.pending + ([e.field] + Reverse(Names(Steps(e.operand))));
    } else {
      assert st.pending + Reverse(Names(Steps(e))) == st.pending;
    }
  }

  /** A chain down to a call leaves no trace: the call clears what was pending. */
  lemma {:induction false} VisitCallChain(e: Expr, bound: set<string>, st: Visit)
    requires Fragment(e, bound) && Base(e).Call?
    ensures Visited(e, st) == Visit([], st.out + Joined(Needs(e)))
    decreases e, 0
  {
    if e.Select? {
      VisitCallChain(e.operand, bound, st.(pending := st.pending + [e.field]));
    } else {
      VisitFragmentAll(e.operands, bound, st.out);
    }
  }

  lemma {:induction false} ReverseTwice(s: seq<string>)
    ensures Reverse(Reverse(s)) == s
  {
    if s != [] {
      ReverseTwice(s[1..]);
      ReverseAppend(Reverse(s[1..]), s[0]);
    }
  }

  lemma {:induction false} JoinedOfNone(out: seq<string>)
    ensures out + Joined([]) == out
  {}

  lemma {:induction false} NeedsChain(e: Expr)
    requires e.Select? && Base(e).Ident?
    ensures Needs(e) == if Base(e).name == ROOT then [Names(Steps(e))] else []
  {
    if e.operand.Select? {
      NeedsChain(e.operand);
    }
  }

  lemma {:induction false} VisitRootChain(e: Expr, out: seq<string>)
    requires e.Select? && Base(e).Ident?
    ensures Visited(e, Visit([], out)) == Visit([], out + Joined(Needs(e)))
  {
    VisitChain(e, Visit([], out));
    var names := Names(Steps(e));
    assert [] + Reverse(names) == Reverse(names);
    ReverseTwice(names);
    NeedsChain(e);
    assert Joined([names]) == [Join(names)];
    JoinedOfNone(out);
  }

  lemma {:induction false} JoinedFive(
    out: seq<string>, a: seq<Path>, b: seq<Path>, c: seq<Path>, d: seq<Path>, e: seq<Path>)
    ensures out + Joined(a) + Joined(b) + Joined(c) + Joined(d) + Joined(e) == out + Joined(a + b + c + d + e)
  {
    hide Joined;
    JoinedConcat(a, b);
    JoinedConcat(a + b, c);
    JoinedConcat(a + b + c, d);
    JoinedConcat(a + b + c + d, e);
    var j := Joined(a) + Joined(b);
    assert out + Joined(a) + Joined(b) == out + j;
    assert out + j + Joined(c) == out + (j + Joined(c));
    assert out + (j + Joined(c)) + Joined(d) == out + (j + Joined(c) + Joined(d));
  }

  lemma {:induction false} BaseInFragment(e: Expr, bound: set<string>)
    requires Fragment(e, bound) && e.Select?
    ensures Base(e).Ident? || Base(e).Call?
  {
    if e.operand.Select? {
      BaseInFragment(e.operand, bound);
    }
  }

  /** On the fragment the stateful pass records exactly the needed paths and leaves nothing pending. */
  lemma {:induction false} VisitFragment(e: Expr, bound: set<string>, out: seq<string>)
    requires Fragment(e, bound)
    ensures Visited(e, Visit([], out)) == Visit([], out + Joined(Needs(e)))
    decreases e, 1
  {
    hide Joined;
    JoinedOfNone(out);
    match e {
      case Const(_) =>
      case Ident(_) =>
      case Select(operand, _, _) =>
        BaseInFragment(e, bound);
        if Base(e).Ident? {
          VisitRootChain(e, out);
        } else {
          VisitCallChain(e, bound, Visit([], out));
        }
      case Call(_, operands) =>
        VisitFragmentAll(operands, bound, out);
      case Literal(_, parts) =>
        VisitFragmentAll(parts, bound, out);
      case Comprehension(iterVar, range, accuVar, init, cond, step, result) =>
        VisitFragment(range, bound, out);
        var o1 := out + Joined(Needs(range));
        VisitFragment(init, bound, o1);
        var o2 := o1 + Joined(Needs(init));
        VisitFragment(cond, bound + {iterVar, accuVar}, o2);
        var o3 := o2 + Joined(Needs(cond));
        VisitFragment(step, bound + {iterVar, accuVar}, o3);
        VisitFragment(result, bound + {accuVar}, o3 + Joined(Needs(step)));
        JoinedFive(out, Needs(range), Needs(init), Needs(cond), Needs(step), Needs(result));
    }
  }

  lemma {:induction false} VisitFragmentAll(es: seq<Expr>, bound: set<string>, out: seq<string>)
    requires FragmentAll(es, bound)
    ensures VisitedAll(es, Visit([], out)) == Visit([], out + Joined(NeedsAll(es)))
    decreases es, 1
  {
    if es == [] {
      assert out + Joined([]) == out;
    } else {
      VisitFragment(es[0], bound, out);
      VisitFragmentAll(es[1..], bound, out + Joined(Needs(es[0])));
      JoinedConcat(Needs(es[0]), NeedsAll(es[1..]));
    }
  }

  /** The static pass, on the fragment: the joined paths of the selects on the root, in order. */
  lemma {:induction false} RequiredFieldsAreNeeds(e: Expr)
    requires Fragment(e, {})
    ensures RequiredFields(e) == Joined(Needs(e))
  {
    VisitFragment(e, {}, []);
    assert [] + Joined(Needs(e)) == Joined(Needs(e));
  }

  // ---- Exactly what is recorded ----

  /** `c` is `e` or a part of it. */
  predicate Inside(c: Expr, e: Expr)
    decreases e
  {
    || c == e
    || match e
       case Const(_) => false
       case Ident(_) => false
       case Select(operand, _, _) => Inside(c, operand)
       case Call(_, operands) => exists o | o in operands :: Inside(c, o)
       case Literal(_, parts) => exists p | p in parts :: Inside(c, p)
       case Comprehension(_, range, _, init, cond, step, result) =>
         Inside(c, range) || Inside(c, init) || Inside(c, cond) || Inside(c, step) || Inside(c, result)
  }

  /** How often the root is named. */
  function Uses(e: Expr): nat
    decreases e
  {
    match e
    case Const(_) => 0
    case Ident(name) => if name == ROOT then 1 else 0
    case Select(operand, _, _) => Uses(operand)
    case Call(_, operands) => UsesAll(operands)
    case Literal(_, parts) => UsesAll(parts)
    case Comprehension(_, range, _, init, cond, step, result) =>
      Uses(range) + Uses(init) + Uses(cond) + Uses(step) + Uses(result)
  }

  function UsesAll(es: seq<Expr>): nat
    decreases es
  {
    if es == [] then 0 else Uses(es[0]) + UsesAll(es[1..])
  }

  /** No comprehension hides the root. */
  predicate RootFree(e: Expr)
    decreases e
  {
    match e
    case Const(_) => true
    case Ident(_) => true
    case Select(operand, _, _) => RootFree(operand)
    case Call(_, operands) => forall o | o in operands :: RootFree(o)
    case Literal(_, parts) => forall p | p in parts :: RootFree(p)
    case Comprehension(iterVar, range, accuVar, init, cond, step, result) =>
      && iterVar != ROOT && accuVar != ROOT
      && RootFree(range) && RootFree(init) && RootFree(cond) && RootFree(step) && RootFree(result)
  }

  /** A chain of selects from the root. */
  predicate RootChain(c: Expr) {
    c.Select? && Base(c) == Ident(ROOT)
  }

  lemma {:induction false} ChainUses(e: Expr)
    ensures Base(e) == Ident(ROOT) ==> Uses(e) == 1
    ensures Base(e).Ident? && Base(e) != Ident(ROOT) ==> Uses(e) == 0
  {
    if e.Select? {
      ChainUses(e.operand);
    }
  }

  /** One path at most for every use of the root, and one exactly where none is hidden or used on its own. */
  lemma {:induction false} NeedsCount(e: Expr, bound: set<string>)
    ensures |Needs(e)| <= Uses(e)
    ensures Fragment(e, bound) && ROOT !in bound && RootFree(e) ==> |Needs(e)| == Uses(e)
    decreases e, 1
  {
    match e {
      case Const(_) =>
      case Ident(_) =>
      case Select(operand, _, _) =>
        ChainUses(e);
        NeedsCount(operand, bound);
        assert Base(e) == Base(operand);
        if operand.Ident? {
          assert Base(operand) == operand;
        }
      case Call(_, operands) =>
        NeedsCountAll(operands, bound);
      case Literal(_, parts) =>
        NeedsCountAll(parts, bound);
      case Comprehension(iterVar, range, accuVar, init, cond, step, result) =>
        NeedsCount(range, bound);
        NeedsCount(init, bound);
        NeedsCount(cond, bound + {iterVar, accuVar});
        NeedsCount(step, bound + {iterVar, accuVar});
        NeedsCount(result, bound + {accuVar});
    }
  }

  lemma {:induction false} NeedsCountAll(es: seq<Expr>, bound: set<string>)
    ensures |NeedsAll(es)| <= UsesAll(es)
    ensures FragmentAll(es, bound) && ROOT !in bound && (forall o | o in es :: RootFree(o)) ==>
              |NeedsAll(es)| == UsesAll(es)
    decreases es, 1
  {
    if es != [] {
      NeedsCount(es[0], bound);
      NeedsCountAll(es[1..], bound);
    }
  }

  lemma {:induction false} NeedsOfPart(es: seq<Expr>, path: Path)
    ensures path in NeedsAll(es) <==> exists o | o in es :: path in Needs(o)
  {
    if es != [] {
      NeedsOfPart(es[1..], path);
      assert es == [es[0]] + es[1..];
      if path in Needs(es[0]) {
        assert es[0] in es;
      } else if o :| o in es[1..] && path in Needs(o) {
        assert o in es;
      }
    }
  }

  /** Every path is that of some chain in the expression. */
  lemma {:induction false} NeedsOccur(e: Expr, path: Path)
    requires path in Needs(e)
    ensures exists c :: Inside(c, e) && RootChain(c) && path == Names(Steps(c))
    decreases e
  {
    match e {
      case Select(operand, _, _) =>
        if Base(e) == Ident(ROOT) {
          assert Inside(e, e) && RootChain(e);
        } else {
          NeedsOccur(operand, path);
          var c :| Inside(c, operand) && RootChain(c) && path == Names(Steps(c));
          assert Inside(c, e);
        }
      case Call(_, operands) =>
        NeedsOfPart(operands, path);
        var o :| o in operands && path in Needs(o);
        NeedsOccur(o, path);
        var c :| Inside(c, o) && RootChain(c) && path == Names(Steps(c));
        assert Inside(c, e);
      case Literal(_, parts) =>
        NeedsOfPart(parts, path);
        var o :| o in parts && path in Needs(o);
        NeedsOccur(o, path);
        var c :| Inside(c, o) && RootChain(c) && path == Names(Steps(c));
        assert Inside(c, e);
      case Comprehension(_, range, _, init, cond, step, result) =>
        var part := if path in Needs(range) then range else if path in Needs(init) then init
                    else if path in Needs(cond) then cond else if path in Needs(step) then step else result;
        NeedsOccur(part, path);
        var c :| Inside(c, part) && RootChain(c) && path == Names(Steps(c));
        assert Inside(c, e);
    }
  }

  lemma {:induction false} ChainInside(c: Expr, e: Expr)
    requires Base(e).Ident? && Inside(c, e)
    ensures Base(c) == Base(e) && Names(Steps(c)) <= Names(Steps(e))
  {
    if c != e {
      ChainInside(c, e.operand);
      NamesAppend(Steps(e.operand), [(e.field, e.testOnly)]);
    }
  }

  /** Every chain in the expression is on the way to a recorded path. */
  lemma {:induction false} NeedsReach(c: Expr, e: Expr)
    requires Inside(c, e) && RootChain(c)
    ensures exists path | path in Needs(e) :: Names(Steps(c)) <= path
    decreases e
  {
    match e {
      case Select(operand, _, _) =>
        if Base(e) == Ident(ROOT) {
          ChainInside(c, e);
          assert Names(Steps(e)) in Needs(e);
        } else {
          NeedsReach(c, operand);
          var path :| path in Needs(operand) && Names(Steps(c)) <= path;
          assert path in Needs(e);
        }
      case Call(_, operands) =>
        var o :| o in operands && Inside(c, o);
        NeedsReach(c, o);
        var path :| path in Needs(o) && Names(Steps(c)) <= path;
        NeedsOfPart(operands, path);
        assert path in Needs(e) && Names(Steps(c)) <= path;
      case Literal(_, parts) =>
        var o :| o in parts && Inside(c, o);
        NeedsReach(c, o);
        var path :| path in Needs(o) && Names(Steps(c)) <= path;
        NeedsOfPart(parts, path);
        assert path in Needs(e) && Names(Steps(c)) <= path;
      case Comprehension(_, range, _, init, cond, step, result) =>
        var part := if Inside(c, range) then range else if Inside(c, init) then init
                    else if Inside(c, cond) then cond else if Inside(c, step) then step else result;
        NeedsReach(c, part);
        var path :| path in Needs(part) && Names(Steps(c)) <= path;
        assert path in Needs(e);
    }
  }

  /** The recorded string is the path of some chain from the root in the expression. */
  ghost predicate Selected(e: Expr, f: string) {
    exists c :: Inside(c, e) && RootChain(c) && Names(Steps(c)) != [] && f == Join(Names(Steps(c)))
  }

  /** Some recorded string is the path of the chain, or of a longer one. */
  ghost predicate Recorded(fields: seq<string>, c: Expr) {
    exists path: Path :: Names(Steps(c)) <= path && path != [] && Join(path) in fields
  }

  lemma {:induction false} ChainNames(c: Expr)
    requires RootChain(c)
    ensures Names(Steps(c)) != []
  {}

  lemma {:induction false} JoinedSelected(e: Expr, i: nat)
    requires i < |Needs(e)|
    ensures Selected(e, Joined(Needs(e))[i])
  {
    NeedsOccur(e, Needs(e)[i]);
    hide Needs, Inside, RootChain;
    var c :| Inside(c, e) && RootChain(c) && Needs(e)[i] == Names(Steps(c));
    ChainNames(c);
  }

  lemma {:induction false} ReachRecorded(c: Expr, e: Expr)
    requires Inside(c, e) && RootChain(c)
    ensures Recorded(Joined(Needs(e)), c)
  {
    NeedsReach(c, e);
    ChainNames(c);
    hide Needs, Inside, RootChain, Names, Steps;
    var path :| path in Needs(e) && Names(Steps(c)) <= path;
    var i :| 0 <= i < |Needs(e)| && Needs(e)[i] == path;
    assert Joined(Needs(e))[i] == Join(path);
  }

  /**
   * In the fragment nothing is recorded but paths of chains from the root that are there, every such chain is on the
   * way to one, and there is one for every use of the root that no comprehension hides.
   */
  lemma {:induction false} RequiredFieldsExactly(e: Expr)
    requires Fragment(e, {})
    ensures forall f | f in RequiredFields(e) :: Selected(e, f)
    ensures forall c | Inside(c, e) && RootChain(c) :: Recorded(RequiredFields(e), c)
    ensures |RequiredFields(e)| <= Uses(e) && (RootFree(e) ==> |RequiredFields(e)| == Uses(e))
  {
    RequiredFieldsAreNeeds(e);
    NeedsCount(e, {});
    hide RequiredFields, Fragment, Needs, Inside, RootChain, Uses, RootFree, Selected, Recorded, Joined;
    forall f | f in RequiredFields(e)
      ensures Selected(e, f)
    {
      var i :| 0 <= i < |Joined(Needs(e))| && Joined(Needs(e))[i] == f;
      JoinedSelected(e, i);
    }
    forall c | Inside(c, e) && RootChain(c)
      ensures Recorded(RequiredFields(e), c)
    {
      ReachRecorded(c, e);
    }
  }
}
