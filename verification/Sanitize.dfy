// Cleaning and truncating a label value without splitting a character.
module Sanitize {

  type Byte = bv8

  const SPACE: Byte := 0x20
  const DEFAULT_MAX_BYTES := 1024

  predicate IsControl(c: Byte) { c < 0x20 || c == 0x7f }

  /** A byte that continues a character: its two high bits are 10. */
  predicate IsTail(c: Byte) { c & 0xC0 == 0x80 }

  // ---- UTF-8, section 4 of RFC 3629 ----

  predicate Between(c: Byte, low: Byte, high: Byte) { low <= c <= high }

  predicate Tails(s: seq<Byte>, n: nat) {
    n <= |s| && forall i | 2 <= i < n :: Between(s[i], 0x80, 0xBF)
  }

  /** The length of the well-formed character `s` starts with, or 0. */
  function CharLength(s: seq<Byte>): (n: nat)
    ensures n <= |s| && n <= 4
  {
    if s == [] then 0
    else if s[0] <= 0x7F then 1
    else if Between(s[0], 0xC2, 0xDF) then if |s| >= 2 && Between(s[1], 0x80, 0xBF) then 2 else 0
    else if Between(s[0], 0xE0, 0xEF) then
      var low, high := if s[0] == 0xE0 then 0xA0 else 0x80, if s[0] == 0xED then 0x9F else 0xBF;
      if Tails(s, 3) && Between(s[1], low, high) then 3 else 0
    else if Between(s[0], 0xF0, 0xF4) then
      var low, high := if s[0] == 0xF0 then 0x90 else 0x80, if s[0] == 0xF4 then 0x8F else 0xBF;
      if Tails(s, 4) && Between(s[1], low, high) then 4 else 0
    else 0
  }

  predicate Utf8(s: seq<Byte>) {
    s == [] || (CharLength(s) > 0 && Utf8(s[CharLength(s)..]))
  }

  // ---- Character boundaries ----

  lemma {:induction false} TailRange(c: Byte)
    ensures IsTail(c) <==> Between(c, 0x80, 0xBF)
  {}

  /** Within a character every byte but the first is a tail. */
  lemma {:induction false} TailsInside(s: seq<Byte>, k: nat)
    requires k < CharLength(s)
    ensures IsTail(s[k]) <==> k > 0
  {
    TailRange(s[k]);
  }

  /** What a character is depends on its own bytes only. */
  lemma {:induction false} CharLengthOfPrefix(s: seq<Byte>, k: nat)
    requires k <= |s| && CharLength(s) > 0
    ensures CharLength(s[..k]) == if CharLength(s) <= k then CharLength(s) else 0
  {}

  /** In valid UTF-8 a prefix is valid exactly when it does not end inside a character. */
  lemma {:induction false} PrefixValid(s: seq<Byte>, k: nat)
    requires Utf8(s) && k <= |s|
    ensures Utf8(s[..k]) <==> k == |s| || !IsTail(s[k])
    decreases |s|
  {
    hide CharLength, IsTail;
    if s == [] {
    } else {
      var n := CharLength(s);
      if k == 0 {
        TailsInside(s, 0);
      } else {
        CharLengthOfPrefix(s, k);
        if k < n {
          TailsInside(s, k);
          assert s[..k] != [];
        } else {
          assert s[..k][n..] == s[n..][..k - n];
          PrefixValid(s[n..], k - n);
        }
      }
    }
  }

  // ---- Cleaning ----

  function CleanByte(c: Byte): Byte { if IsControl(c) then SPACE else c }

  function Clean(s: seq<Byte>): (r: seq<Byte>)
    ensures |r| == |s| && forall i | 0 <= i < |s| :: r[i] == CleanByte(s[i])
  {
    seq(|s|, i requires 0 <= i < |s| => CleanByte(s[i]))
  }

  lemma {:induction false} CleanKeepsChars(s: seq<Byte>)
    ensures CharLength(Clean(s)) == CharLength(s)
  {
    forall i | 0 <= i < |s|
      ensures s[i] > 0x7F ==> Clean(s)[i] == s[i]
      ensures s[i] <= 0x7F ==> Clean(s)[i] <= 0x7F
    {}
    hide CleanByte;
  }

  /** Replacing control bytes by spaces neither makes nor breaks valid UTF-8. */
  lemma {:induction false} CleanKeepsUtf8(s: seq<Byte>)
    ensures Utf8(Clean(s)) <==> Utf8(s)
    decreases |s|
  {
    hide CharLength;
    CleanKeepsChars(s);
    if s != [] && CharLength(s) > 0 {
      CleanKeepsUtf8(s[CharLength(s)..]);
      assert Clean(s)[CharLength(s)..] == Clean(s[CharLength(s)..]);
    }
  }

  // ---- The contract ----

  function Limit(max: int): (n: nat) { if max <= 0 then DEFAULT_MAX_BYTES else max }

  /** Cut after at most `limit` bytes, at the last place where the next byte does not continue a character. */
  predicate CutAt(s: seq<Byte>, limit: nat, end: nat) {
    if |s| <= limit then end == |s|
    else end <= limit && (forall k | end < k <= limit :: IsTail(s[k])) && (end > 0 ==> !IsTail(s[end]))
  }

  predicate SanitizedTo(s: seq<Byte>, max: int, r: seq<Byte>) {
    |r| <= |s| && CutAt(Clean(s), Limit(max), |r|) && r == Clean(s)[..|r|]
  }

  method SanitizeLabelValue(s: seq<Byte>, max: int) returns (r: seq<Byte>, fired: bool)
    ensures SanitizedTo(s, max, r)
    ensures fired <==> r != s
    ensures |r| <= |s| && forall i | 0 <= i < |r| :: r[i] == if s[i] < 0x20 || s[i] == 0x7f then 0x20 else s[i]
    ensures |r| <= if max <= 0 then 1024 else max
  {
    var limit := if max <= 0 then DEFAULT_MAX_BYTES else max;
    hide IsTail;
    fired := false;

    var needsSanitize := false;
    var i := 0;
    while i < |s|
      invariant 0 <= i <= |s| && !needsSanitize
      invariant forall k | 0 <= k < i :: !IsControl(s[k])
    {
      if IsControl(s[i]) {
        needsSanitize := true;
        break;
      }
      i := i + 1;
    }

    var cleaned := s;
    if needsSanitize {
      assert Clean(s)[i] != s[i];
      var b: seq<Byte> := [];
      for j := 0 to |s|
        invariant |b| == j && forall k | 0 <= k < j :: b[k] == CleanByte(s[k])
      {
        b := b + [if IsControl(s[j]) then SPACE else s[j]];
      }
      cleaned := b;
      fired := true;
    }
    assert cleaned == Clean(s);

    if |cleaned| > limit {
      var end := limit;
      while end > 0 && IsTail(cleaned[end])
        invariant 0 <= end <= limit
        invariant forall k | end < k <= limit :: IsTail(cleaned[k])
      {
        end := end - 1;
      }
      cleaned := cleaned[..end];
      fired := true;
    }
    r := cleaned;
  }

  // ---- What the contract means ----

  /** For valid UTF-8 the result is the longest valid prefix, of at most the limit, of the cleaned input. */
  lemma {:induction false} LongestValidPrefix(s: seq<Byte>, max: int, r: seq<Byte>)
    requires Utf8(s) && SanitizedTo(s, max, r)
    ensures Utf8(r) && r <= Clean(s) && |r| <= Limit(max)
    ensures forall k | |r| < k <= Limit(max) && k <= |s| :: !Utf8(Clean(s)[..k])
  {
    hide IsTail;
    var cleaned, limit := Clean(s), Limit(max);
    CleanKeepsUtf8(s);
    hide Clean;
    PrefixValid(cleaned, |r|);
    if |cleaned| <= limit {
      assert cleaned[..|r|] == cleaned;
    } else if |r| == 0 {
      assert Utf8([]);
    }
    forall k | |r| < k <= limit && k <= |s|
      ensures !Utf8(cleaned[..k])
    {
      PrefixValid(cleaned, k);
      assert IsTail(cleaned[k]);
    }
  }

  /** The result is determined by the input. */
  lemma {:induction false} SanitizedOnce(s: seq<Byte>, max: int, r: seq<Byte>, other: seq<Byte>)
    requires SanitizedTo(s, max, r) && SanitizedTo(s, max, other)
    ensures r == other
  {
    hide IsTail, Clean;
  }

  /** Sanitizing again changes nothing, so it does not fire the hook. */
  lemma {:induction false} SanitizeTwice(s: seq<Byte>, max: int, r: seq<Byte>, again: seq<Byte>)
    requires SanitizedTo(s, max, r) && SanitizedTo(r, max, again)
    ensures again == r
  {
    hide IsTail;
    assert |r| <= Limit(max);
    assert forall i | 0 <= i < |r| :: r[i] == CleanByte(s[i]);
    assert Clean(r) == r;
  }
}
