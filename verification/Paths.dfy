// Dotted field paths, as strings and as sequences of segments.
module Paths {

  /** A decoded object: what an informer caches and what an expression reads. */
  datatype Value =
    | Null
    | Bool(b: bool)
    | Number(n: int)
    | Text(s: string)
    | List(items: seq<Value>)
    | Obj(fields: map<string, Value>)

  type Path = seq<string>

  // ---- Strings and segments ----

  predicate HasDot(p: string) { '.' in p }

  /** The index of the first dot. */
  function DotIndex(p: string): (i: nat)
    requires HasDot(p)
    ensures i < |p| && p[i] == '.' && !HasDot(p[..i])
  {
    if p[0] == '.' then 0
    else
      var rest := DotIndex(p[1..]);
      assert p[..rest + 1] == [p[0]] + p[1..][..rest];
      rest + 1
  }

  function Head(p: string): string {
    if HasDot(p) then p[..DotIndex(p)] else p
  }

  function Rest(p: string): string
    requires HasDot(p)
  {
    p[DotIndex(p) + 1..]
  }

  function Segments(p: string): (r: Path)
    ensures |r| >= 1 && r[0] == Head(p)
    decreases |p|
  {
    if HasDot(p) then [Head(p)] + Segments(Rest(p)) else [p]
  }

  function Join(segments: Path): string
    requires segments != []
  {
    if |segments| == 1 then segments[0] else segments[0] + "." + Join(segments[1..])
  }

  predicate DotFree(segments: Path) {
    forall s | s in segments :: !HasDot(s)
  }

  lemma {:induction false} DotIndexIs(p: string, i: nat)
    requires i < |p| && p[i] == '.' && forall j | 0 <= j < i :: p[j] != '.'
    ensures HasDot(p) && DotIndex(p) == i
  {
    if i > 0 {
      DotIndexIs(p[1..], i - 1);
    }
  }

  lemma {:induction false} FirstDot(s: string, tail: string)
    requires !HasDot(s)
    ensures HasDot(s + "." + tail) && Head(s + "." + tail) == s && Rest(s + "." + tail) == tail
  {
    var p := s + "." + tail;
    assert p[|s|] == '.';
    DotIndexIs(p, |s|);
    assert p[|s| + 1..] == tail && p[..|s|] == s;
  }

  /** Joining names without dots loses nothing. */
  lemma {:induction false} SegmentsOfJoin(segments: Path)
    requires segments != [] && DotFree(segments)
    ensures Segments(Join(segments)) == segments
  {
    assert segments[0] in segments;
    if |segments| > 1 {
      assert DotFree(segments[1..]);
      SegmentsOfJoin(segments[1..]);
      FirstDot(segments[0], Join(segments[1..]));
    }
  }

  lemma {:induction false} JoinOfSegments(p: string)
    ensures Join(Segments(p)) == p && DotFree(Segments(p))
    decreases |p|
  {
    if HasDot(p) {
      JoinOfSegments(Rest(p));
      assert Segments(p)[1..] == Segments(Rest(p));
      assert p == p[..DotIndex(p)] + [p[DotIndex(p)]] + p[DotIndex(p) + 1..];
    }
  }

  // ---- Looking a path up ----

  datatype Found = Missing | Present(value: Value)

  function Lookup(v: Value, path: Path): Found {
    if path == [] then Present(v)
    else if v.Obj? && path[0] in v.fields then Lookup(v.fields[path[0]], path[1..])
    else Missing
  }

  /** Every value strictly above the end of `path` is a map or missing. */
  predicate MapsAlong(v: Value, path: Path) {
    path != [] ==> v.Obj? && (path[0] in v.fields ==> MapsAlong(v.fields[path[0]], path[1..]))
  }
}
