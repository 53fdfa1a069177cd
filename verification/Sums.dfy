// Sums of a measure over a sequence, used by every size estimate.
module Sums {

  function SumBy<T>(f: T -> nat, xs: seq<T>): nat {
    if xs == [] then 0 else f(xs[0]) + SumBy(f, xs[1..])
  }

  function Total(sizes: seq<nat>): nat {
    if sizes == [] then 0 else sizes[0] + Total(sizes[1..])
  }

  lemma {:induction false} TotalSnoc(sizes: seq<nat>, size: nat)
    ensures Total(sizes + [size]) == Total(sizes) + size
  {
    if sizes == [] {
      assert Total([size]) == size + Total([size][1..]);
    } else {
      TotalSnoc(sizes[1..], size);
      assert (sizes + [size])[1..] == sizes[1..] + [size];
    }
  }

  lemma {:induction false} SumByAppend<T>(f: T -> nat, xs: seq<T>, ys: seq<T>)
    ensures SumBy(f, xs + ys) == SumBy(f, xs) + SumBy(f, ys)
  {
    if xs == [] {
      assert xs + ys == ys;
    } else {
      SumByAppend(f, xs[1..], ys);
      assert (xs + ys)[1..] == xs[1..] + ys;
    }
  }

  lemma {:induction false} SumBySnoc<T>(f: T -> nat, xs: seq<T>, i: nat)
    requires i < |xs|
    ensures SumBy(f, xs[..i + 1]) == SumBy(f, xs[..i]) + f(xs[i])
  {
    assert xs[..i + 1] == xs[..i] + [xs[i]];
    SumByAppend(f, xs[..i], [xs[i]]);
  }

  lemma {:induction false} SumByOne<T>(f: T -> nat, x: T)
    ensures SumBy(f, [x]) == f(x)
  {
    assert SumBy(f, [x]) == f(x) + SumBy(f, [x][1..]);
  }

  /** A pointwise bound carries over to the sums, with a constant slack paid back once per element. */
  lemma {:induction false} SumByBound<T>(f: T -> nat, g: T -> nat, slack: nat, xs: seq<T>)
    requires forall x | x in xs :: f(x) + slack <= g(x)
    ensures SumBy(f, xs) + slack * |xs| <= SumBy(g, xs)
  {
    if xs != [] {
      SumByBound(f, g, slack, xs[1..]);
    }
  }

  lemma {:induction false} SumByConstant<T>(f: T -> nat, c: nat, xs: seq<T>)
    requires forall x | x in xs :: f(x) == c
    ensures SumBy(f, xs) == c * |xs|
  {
    if xs != [] {
      SumByConstant(f, c, xs[1..]);
    }
  }

  // ---- Sequences of sequences ----

  function FlatMap<T, U>(f: T -> seq<U>, xs: seq<T>): seq<U> {
    if xs == [] then [] else f(xs[0]) + FlatMap(f, xs[1..])
  }

  function Flatten<U>(parts: seq<seq<U>>): seq<U> {
    if parts == [] then [] else parts[0] + Flatten(parts[1..])
  }

  lemma {:induction false} Assoc<U>(a: seq<U>, b: seq<U>, c: seq<U>)
    ensures a + (b + c) == (a + b) + c
  {}

  lemma {:induction false} FlatMapAppend<T, U>(f: T -> seq<U>, xs: seq<T>, ys: seq<T>)
    ensures FlatMap(f, xs + ys) == FlatMap(f, xs) + FlatMap(f, ys)
  {
    if xs == [] {
      assert xs + ys == ys;
    } else {
      FlatMapAppend(f, xs[1..], ys);
      assert (xs + ys)[0] == xs[0] && (xs + ys)[1..] == xs[1..] + ys;
      Assoc(f(xs[0]), FlatMap(f, xs[1..]), FlatMap(f, ys));
    }
  }

  lemma {:induction false} FlatMapSnoc<T, U>(f: T -> seq<U>, xs: seq<T>, y: T)
    ensures FlatMap(f, xs + [y]) == FlatMap(f, xs) + f(y)
  {
    FlatMapAppend(f, xs, [y]);
    assert FlatMap(f, [y]) == f(y) + FlatMap(f, [y][1..]) == f(y);
  }

  lemma {:induction false} FlattenAppend<U>(xs: seq<seq<U>>, ys: seq<seq<U>>)
    ensures Flatten(xs + ys) == Flatten(xs) + Flatten(ys)
  {
    if xs == [] {
      assert xs + ys == ys;
    } else {
      FlattenAppend(xs[1..], ys);
      assert (xs + ys)[0] == xs[0] && (xs + ys)[1..] == xs[1..] + ys;
      Assoc(xs[0], Flatten(xs[1..]), Flatten(ys));
    }
  }

  lemma {:induction false} FlattenSnoc<U>(xs: seq<seq<U>>, y: seq<U>)
    ensures Flatten(xs + [y]) == Flatten(xs) + y
  {
    FlattenAppend(xs, [y]);
    assert Flatten([y]) == y + Flatten([y][1..]) == y;
  }
}
