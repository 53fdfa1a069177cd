// Strings in the order of their characters, sorting, and membership by binary search.
module StringOrder {

  predicate Less(a: string, b: string) {
    b != [] && (a == [] || a[0] < b[0] || (a[0] == b[0] && Less(a[1..], b[1..])))
  }

  /** A proper prefix, or smaller at the first difference. */
  lemma {:induction false} LessMeans(a: string, b: string)
    ensures Less(a, b) <==>
              || (a <= b && a != b)
              || exists i | 0 <= i < |a| && i < |b| :: a[i] < b[i] && a[..i] == b[..i]
  {
    if a != [] && b != [] && a[0] == b[0] {
      LessMeans(a[1..], b[1..]);
      assert a <= b && a != b <==> a[1..] <= b[1..] && a[1..] != b[1..];
      if i :| 0 <= i < |a| && i < |b| && a[i] < b[i] && a[..i] == b[..i] {
        assert i > 0 && a[..i][1..] == a[1..][..i - 1] && b[..i][1..] == b[1..][..i - 1];
        assert a[1..][i - 1] < b[1..][i - 1];
      }
      if i :| 0 <= i < |a[1..]| && i < |b[1..]| && a[1..][i] < b[1..][i] && a[1..][..i] == b[1..][..i] {
        assert a[..i + 1] == [a[0]] + a[1..][..i] && b[..i + 1] == [b[0]] + b[1..][..i];
        assert a[i + 1] < b[i + 1];
      }
    } else if a != [] && b != [] && a[0] < b[0] {
      assert a[..0] == b[..0];
    }
  }

  lemma {:induction false} LessTransitive(a: string, b: string, c: string)
    requires Less(a, b) && Less(b, c)
    ensures Less(a, c)
  {
    if a != [] && a[0] == b[0] == c[0] {
      LessTransitive(a[1..], b[1..], c[1..]);
    }
  }

  lemma {:induction false} LessIrreflexive(a: string)
    ensures !Less(a, a)
  {
    if a != [] {
      LessIrreflexive(a[1..]);
    }
  }

  lemma {:induction false} LessTotal(a: string, b: string)
    ensures Less(a, b) || a == b || Less(b, a)
  {
    if a != [] && b != [] && a[0] == b[0] {
      LessTotal(a[1..], b[1..]);
      assert a == [a[0]] + a[1..] && b == [b[0]] + b[1..];
    }
  }

  lemma {:induction false} LessAsymmetric(a: string, b: string)
    requires Less(a, b)
    ensures !Less(b, a)
  {
    hide Less;
    if Less(b, a) {
      LessTransitive(a, b, a);
      LessIrreflexive(a);
    }
  }

  predicate Sorted(s: seq<string>) {
    forall i, j | 0 <= i < j < |s| :: !Less(s[j], s[i])
  }

  predicate StrictlySorted(s: seq<string>) {
    forall i, j | 0 <= i < j < |s| :: Less(s[i], s[j])
  }

  lemma {:induction false} StrictlySortedIsSorted(s: seq<string>)
    requires StrictlySorted(s)
    ensures Sorted(s)
    ensures forall i, j | 0 <= i < j < |s| :: s[i] != s[j]
  {
    hide Less;
    forall i, j | 0 <= i < j < |s|
      ensures !Less(s[j], s[i]) && s[i] != s[j]
    {
      LessAsymmetric(s[i], s[j]);
    }
  }

  lemma {:induction false} HeadIsLeast(a: seq<string>, b: seq<string>)
    requires StrictlySorted(a) && a != [] && b != []
    requires forall x :: x in a <==> x in b
    ensures a[0] == b[0] || Less(a[0], b[0])
  {
    hide Less;
    assert b[0] in a;
    var i :| 0 <= i < |a| && a[i] == b[0];
  }

  lemma {:induction false} TailElements(a: seq<string>, b: seq<string>)
    requires StrictlySorted(a) && StrictlySorted(b) && a != [] && b != [] && a[0] == b[0]
    requires forall x :: x in a <==> x in b
    ensures forall x | x in a[1..] :: x in b[1..]
  {
    StrictlySortedIsSorted(a);
    hide Less;
    forall x | x in a[1..]
      ensures x in b[1..]
    {
      var i :| 0 < i < |a| && a[i] == x;
      assert x != a[0] && x in b;
    }
  }

  /** A strictly sorted sequence is determined by its elements. */
  lemma {:induction false} SameElements(a: seq<string>, b: seq<string>)
    requires StrictlySorted(a) && StrictlySorted(b)
    requires forall x :: x in a <==> x in b
    ensures a == b
  {
    hide Less;
    assert forall i | 0 <= i < |b| :: b[i] in a;
    assert forall i | 0 <= i < |a| :: a[i] in b;
    if a == [] {
      assert b == [];
    } else {
      assert a[0] in b;
      HeadIsLeast(a, b);
      HeadIsLeast(b, a);
      if a[0] != b[0] {
        LessAsymmetric(a[0], b[0]);
      }
      TailElements(a, b);
      TailElements(b, a);
      SameElements(a[1..], b[1..]);
      assert a == [a[0]] + a[1..] && b == [b[0]] + b[1..];
    }
  }

  // ---- Sorting and removing adjacent duplicates ----

  function Insert(x: string, s: seq<string>): seq<string> {
    if s == [] || !Less(s[0], x) then [x] + s else [s[0]] + Insert(x, s[1..])
  }

  function Sort(s: seq<string>): seq<string> {
    if s == [] then [] else Insert(s[0], Sort(s[1..]))
  }

  function Compact(s: seq<string>): seq<string> {
    if |s| <= 1 then s else if s[0] == s[1] then Compact(s[1..]) else [s[0]] + Compact(s[1..])
  }

  lemma {:induction false} InsertElements(x: string, s: seq<string>)
    ensures forall y :: y in Insert(x, s) <==> y == x || y in s
  {
    if s != [] && Less(s[0], x) {
      InsertElements(x, s[1..]);
      assert s == [s[0]] + s[1..];
    }
  }

  /** Sorted, by the first element: easier to work with than all pairs. */
  lemma {:induction false} SortedCons(x: string, s: seq<string>)
    requires Sorted(s) && forall y | y in s :: !Less(y, x)
    ensures Sorted([x] + s)
  {
    hide Less;
    var t := [x] + s;
    forall i, j | 0 <= i < j < |t|
      ensures !Less(t[j], t[i])
    {
      assert t[j] == s[j - 1];
      if i > 0 {
        assert t[i] == s[i - 1];
      }
    }
  }

  lemma {:induction false} InsertSorts(x: string, s: seq<string>)
    requires Sorted(s)
    ensures Sorted(Insert(x, s))
  {
    hide Less;
    if s == [] {
    } else if !Less(s[0], x) {
      forall y | y in s
        ensures !Less(y, x)
      {
        var i :| 0 <= i < |s| && s[i] == y;
        assert i > 0 ==> !Less(s[i], s[0]);
        if Less(y, x) {
          LessTotal(s[0], x);
          if s[0] != x {
            LessTransitive(y, x, s[0]);
          }
        }
      }
      SortedCons(x, s);
    } else {
      InsertSorts(x, s[1..]);
      InsertElements(x, s[1..]);
      LessAsymmetric(s[0], x);
      forall y | y in Insert(x, s[1..])
        ensures !Less(y, s[0])
      {
        if y != x {
          var i :| 0 < i < |s| && s[i] == y;
        }
      }
      SortedCons(s[0], Insert(x, s[1..]));
    }
  }

  lemma {:induction false} SortSorts(s: seq<string>)
    ensures Sorted(Sort(s)) && forall x :: x in Sort(s) <==> x in s
  {
    hide Less, Insert;
    if s != [] {
      SortSorts(s[1..]);
      InsertSorts(s[0], Sort(s[1..]));
      InsertElements(s[0], Sort(s[1..]));
      assert s == [s[0]] + s[1..];
    }
  }

  lemma {:induction false} CompactElements(s: seq<string>)
    ensures forall x :: x in Compact(s) <==> x in s
    ensures s != [] ==> Compact(s) != []
  {
    if |s| > 1 {
      CompactElements(s[1..]);
      assert s == [s[0]] + s[1..];
    }
  }

  lemma {:induction false} CompactSorts(s: seq<string>)
    requires Sorted(s)
    ensures StrictlySorted(Compact(s))
  {
    hide Less;
    if |s| > 1 {
      CompactSorts(s[1..]);
      CompactElements(s[1..]);
      if s[0] != s[1] {
        var t := Compact(s[1..]);
        forall y | y in t
          ensures Less(s[0], y)
        {
          var i :| 0 < i < |s| && s[i] == y;
          assert !Less(s[1], s[0]) && !Less(s[i], s[0]);
          assert i > 1 ==> !Less(s[i], s[1]);
          LessTotal(s[0], s[1]);
          LessTotal(s[0], s[i]);
        }
        forall i, j | 0 <= i < j < |[s[0]] + t|
          ensures Less(([s[0]] + t)[i], ([s[0]] + t)[j])
        {}
      }
    }
  }

  /** Sorting and then removing adjacent duplicates gives the elements in strict order. */
  lemma {:induction false} SortedAndCompacted(s: seq<string>)
    ensures StrictlySorted(Compact(Sort(s))) && forall x :: x in Compact(Sort(s)) <==> x in s
  {
    hide *;
    SortSorts(s);
    CompactSorts(Sort(s));
    CompactElements(Sort(s));
  }

  // ---- Searching ----

  /** Everything before an element below `x` is below `x`, and nothing after one that is not. */
  lemma {:induction false} Split(s: seq<string>, x: string, middle: nat)
    requires Sorted(s) && middle < |s|
    ensures Less(s[middle], x) ==> forall k | 0 <= k <= middle :: Less(s[k], x)
    ensures !Less(s[middle], x) ==> forall k | middle <= k < |s| :: !Less(s[k], x)
  {
    hide Less;
    forall k | 0 <= k < middle && Less(s[middle], x)
      ensures Less(s[k], x)
    {
      assert !Less(s[middle], s[k]);
      LessTotal(s[k], s[middle]);
      if s[k] != s[middle] {
        LessTransitive(s[k], s[middle], x);
      }
    }
    forall k | middle < k < |s| && !Less(s[middle], x)
      ensures !Less(s[k], x)
    {
      if Less(s[k], x) {
        assert !Less(s[k], s[middle]);
        LessTotal(s[middle], s[k]);
        if s[middle] != s[k] {
          LessTransitive(s[middle], s[k], x);
        }
      }
    }
  }

  method BinarySearch(s: seq<string>, x: string) returns (found: bool)
    requires Sorted(s)
    ensures found <==> x in s
  {
    hide Less;
    var low, high := 0, |s|;
    while low < high
      invariant 0 <= low <= high <= |s|
      invariant forall k | 0 <= k < low :: Less(s[k], x)
      invariant forall k | high <= k < |s| :: !Less(s[k], x)
    {
      var middle := (low + high) / 2;
      Split(s, x, middle);
      if Less(s[middle], x) {
        low := middle + 1;
      } else {
        high := middle;
      }
    }
    LessIrreflexive(x);
    found := low < |s| && s[low] == x;
    if x in s {
      var k :| 0 <= k < |s| && s[k] == x;
      assert low <= k && !Less(s[k], s[low]);
      LessTotal(s[low], x);
    }
  }

  /** Whether every element of `a` is in the sorted sequence `b`. */
  method Subset(a: seq<string>, b: seq<string>) returns (r: bool)
    requires Sorted(b)
    ensures r <==> forall x | x in a :: x in b
  {
    hide *;
    for i := 0 to |a|
      invariant forall x | x in a[..i] :: x in b
    {
      var found := BinarySearch(b, a[i]);
      if !found {
        assert a[i] in a;
        return false;
      }
      assert a[..i + 1] == a[..i] + [a[i]];
    }
    assert a[..|a|] == a;
    return true;
  }
}
