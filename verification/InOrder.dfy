// One sequence read off another: piece by piece, or leaving some elements out.
module InOrder {
  import opened Sums
  import opened PolicyModel

  /** `out` is what each element does, one after the other. */
  ghost predicate InTurn<T(!new), E(!new)>(xs: seq<T>, does: (T, seq<E>) -> bool, out: seq<E>) {
    exists parts: seq<seq<E>> ::
      |parts| == |xs| && out == Flatten(parts) && forall i | 0 <= i < |xs| :: does(xs[i], parts[i])
  }

  predicate Increasing(places: seq<nat>) {
    forall i, j | 0 <= i < j < |places| :: places[i] < places[j]
  }

  /** At these places `pick` chooses these elements. */
  predicate Chooses<T, U(==)>(xs: seq<T>, pick: T -> Option<U>, places: seq<nat>, ys: seq<U>) {
    |ys| == |places| && forall k | 0 <= k < |places| :: places[k] < |xs| && pick(xs[places[k]]) == Some(ys[k])
  }

  /** At no other place does it choose any. */
  predicate AllPlaces<T, U>(xs: seq<T>, pick: T -> Option<U>, places: seq<nat>) {
    forall i | 0 <= i < |xs| && pick(xs[i]).Some? :: i in places
  }

  /** `places` are the indices at which `pick` chooses something, in order, and `ys` is what it chooses there. */
  predicate PickedAt<T, U(==)>(xs: seq<T>, pick: T -> Option<U>, places: seq<nat>, ys: seq<U>) {
    Increasing(places) && Chooses(xs, pick, places, ys) && AllPlaces(xs, pick, places)
  }

  ghost predicate Picked<T(!new), U(!new)>(xs: seq<T>, pick: T -> Option<U>, ys: seq<U>) {
    exists places: seq<nat> :: PickedAt(xs, pick, places, ys)
  }

  lemma {:induction false} NothingInTurn<T(!new), E(!new)>(xs: seq<T>, does: (T, seq<E>) -> bool)
    requires xs == []
    ensures InTurn(xs, does, [])
  {
    var none: seq<seq<E>> := [];
    assert Flatten(none) == [];
  }

  lemma {:induction false} NextInTurn<T(
    !new) , E(!new)>(xs: seq<T>, does: (T, seq<E>) -> bool, head: seq<E>, rest: seq<E>)
    requires xs != [] && does(xs[0], head) && InTurn(xs[1..], does, rest)
    ensures InTurn(xs, does, head + rest)
  {
    var parts: seq<seq<E>> :| |parts| == |xs[1..]| && rest == Flatten(parts) &&
      forall i | 0 <= i < |xs[1..]| :: does(xs[1..][i], parts[i]);
    var all := [head] + parts;
    assert all[1..] == parts;
    forall i | 0 <= i < |xs|
      ensures does(xs[i], all[i])
    {
      if i > 0 {
        assert xs[i] == xs[1..][i - 1] && all[i] == parts[i - 1];
      }
    }
  }

  /** When each element does only one thing, they do only one thing together. */
  lemma {:induction false} InTurnOnce<T(!new), E(!new)>(xs: seq<T>, does: (T, seq<E>) -> bool, a: seq<E>, b: seq<E>)
    requires InTurn(xs, does, a) && InTurn(xs, does, b)
    requires forall x, p, q | x in xs && does(x, p) && does(x, q) :: p == q
    ensures a == b
  {
    var p: seq<seq<E>> :| |p| == |xs| && a == Flatten(p) && forall i | 0 <= i < |xs| :: does(xs[i], p[i]);
    var q: seq<seq<E>> :| |q| == |xs| && b == Flatten(q) && forall i | 0 <= i < |xs| :: does(xs[i], q[i]);
    forall i | 0 <= i < |xs|
      ensures p[i] == q[i]
    {
      assert xs[i] in xs && does(xs[i], p[i]) && does(xs[i], q[i]);
    }
    assert p == q;
  }

  lemma {:induction false} NothingPicked<T(!new), U(!new)>(xs: seq<T>, pick: T -> Option<U>)
    requires xs == []
    ensures Picked(xs, pick, [])
  {
    assert PickedAt(xs, pick, [], []);
  }

  function Shifted(places: seq<nat>): (r: seq<nat>)
    ensures |r| == |places| && forall k | 0 <= k < |r| :: r[k] == places[k] + 1
  {
    seq(|places|, k requires 0 <= k < |places| => places[k] + 1)
  }

  lemma {:induction false} ShiftedIn(places: seq<nat>, i: nat)
    requires i in places
    ensures i + 1 in Shifted(places)
  {
    var k :| 0 <= k < |places| && places[k] == i;
    assert Shifted(places)[k] == i + 1;
  }

  lemma {:induction false} IncreasingShifted(places: seq<nat>)
    requires Increasing(places)
    ensures Increasing(Shifted(places)) && Increasing([0] + Shifted(places))
  {
    var all := [0] + Shifted(places);
    forall i, j | 0 <= i < j < |all|
      ensures all[i] < all[j]
    {
      if i > 0 {
        assert places[i - 1] < places[j - 1];
      }
    }
  }

  lemma {:induction false} ChoosesLater<T, U>(xs: seq<T>, pick: T -> Option<U>, places: seq<nat>, rest: seq<U>)
    requires xs != [] && Chooses(xs[1..], pick, places, rest)
    ensures Chooses(xs, pick, Shifted(places), rest)
  {
    forall k | 0 <= k < |places|
      ensures Shifted(places)[k] < |xs| && pick(xs[Shifted(places)[k]]) == Some(rest[k])
    {
      assert xs[places[k] + 1] == xs[1..][places[k]];
    }
  }

  lemma {:induction false} ChoosesFirst<T, U>(xs: seq<T>, pick: T -> Option<U>, places: seq<nat>, ys: seq<U>, y: U)
    requires xs != [] && pick(xs[0]) == Some(y) && Chooses(xs, pick, places, ys)
    ensures Chooses(xs, pick, [0] + places, [y] + ys)
  {
    forall k | 0 <= k < |places| + 1
      ensures ([0] + places)[k] < |xs| && pick(xs[([0] + places)[k]]) == Some(([y] + ys)[k])
    {
      if k > 0 {
        assert ([0] + places)[k] == places[k - 1] && ([y] + ys)[k] == ys[k - 1];
      }
    }
  }

  lemma {:induction false} AllPlacesLater<T, U>(xs: seq<T>, pick: T -> Option<U>, places: seq<nat>)
    requires xs != [] && AllPlaces(xs[1..], pick, places)
    ensures forall i | 0 < i < |xs| && pick(xs[i]).Some? :: i in Shifted(places)
  {
    forall i | 0 < i < |xs| && pick(xs[i]).Some?
      ensures i in Shifted(places)
    {
      assert xs[i] == xs[1..][i - 1];
      ShiftedIn(places, i - 1);
    }
  }

  lemma {:induction false} NextPicked<T(!new), U(!new)>(xs: seq<T>, pick: T -> Option<U>, rest: seq<U>)
    requires xs != [] && Picked(xs[1..], pick, rest)
    ensures Picked(xs, pick, if pick(xs[0]).Some? then [pick(xs[0]).value] + rest else rest)
  {
    hide Increasing, Chooses;
    var places: seq<nat> :| PickedAt(xs[1..], pick, places, rest);
    IncreasingShifted(places);
    ChoosesLater(xs, pick, places, rest);
    AllPlacesLater(xs, pick, places);
    if pick(xs[0]).Some? {
      ChoosesFirst(xs, pick, Shifted(places), rest, pick(xs[0]).value);
      assert PickedAt(xs, pick, [0] + Shifted(places), [pick(xs[0]).value] + rest);
    } else {
      assert PickedAt(xs, pick, Shifted(places), rest);
    }
  }

  lemma {:induction false} FirstPlace<T, U>(
    xs: seq<T>, pick: T -> Option<U>, a: seq<nat>, ya: seq<U>, b: seq<nat>, yb: seq<U>, k: nat)
    requires PickedAt(xs, pick, a, ya) && PickedAt(xs, pick, b, yb) && k < |a|
    ensures k < |b| && a[k] == b[k]
    decreases k
  {
    if k > 0 {
      FirstPlace(xs, pick, a, ya, b, yb, k - 1);
    }
    assert pick(xs[a[k]]).Some?;
    assert a[k] in b;
    var p :| 0 <= p < |b| && b[p] == a[k];
    assert p >= k;
    assert pick(xs[b[k]]).Some?;
    assert b[k] in a;
    var q :| 0 <= q < |a| && a[q] == b[k];
    assert q >= k;
  }

  /** What is picked is determined. */
  lemma {:induction false} PickedOnce<T(!new), U(!new)>(xs: seq<T>, pick: T -> Option<U>, ya: seq<U>, yb: seq<U>)
    requires Picked(xs, pick, ya) && Picked(xs, pick, yb)
    ensures ya == yb
  {
    var a: seq<nat> :| PickedAt(xs, pick, a, ya);
    var b: seq<nat> :| PickedAt(xs, pick, b, yb);
    if |a| < |b| {
      FirstPlace(xs, pick, b, yb, a, ya, |a|);
    } else if |b| < |a| {
      FirstPlace(xs, pick, a, ya, b, yb, |b|);
    }
    forall k | 0 <= k < |ya|
      ensures ya[k] == yb[k]
    {
      FirstPlace(xs, pick, a, ya, b, yb, k);
      assert Some(ya[k]) == pick(xs[a[k]]) == pick(xs[b[k]]) == Some(yb[k]);
    }
  }
}
