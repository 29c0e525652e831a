/**
 * The JavaScript built-ins the chat client relies on, over typed values:
 * Array.prototype.filter, String.prototype.trim, toLowerCase and includes.
 */
module Builtins {

  /** `a` is `b` with some elements dropped, the rest kept in order. */
  predicate IsSubsequence<T(==)>(a: seq<T>, b: seq<T>)
  {
    a == [] ||
    (b != [] && ((a[0] == b[0] && IsSubsequence(a[1..], b[1..])) || IsSubsequence(a, b[1..])))
  }

  /**
   * Array.prototype.filter: the elements of `s` that `keep` accepts, in their order.
   * The result is exactly the accepted elements (with their multiplicities), as a
   * subsequence of `s`.
   */
  function Filter<T(==,!new)>(s: seq<T>, keep: T -> bool): (r: seq<T>)
    ensures |r| <= |s|
    ensures IsSubsequence(r, s)
    ensures forall x :: multiset(r)[x] == if keep(x) then multiset(s)[x] else 0
    ensures forall x :: x in r <==> x in s && keep(x)
    ensures (forall i :: 0 <= i < |s| ==> keep(s[i])) ==> r == s
  {
    if s == [] then []
    else
      assert s == [s[0]] + s[1..];
      var rest := Filter(s[1..], keep);
      if keep(s[0]) then [s[0]] + rest else rest
  }

  // ---------------------------------------------------------------------------
  // Strings

  /** The characters String.prototype.trim removes: ECMAScript WhiteSpace and LineTerminator. */
  predicate IsSpace(c: char)
  {
    c == '\t' || c == '\n' || c == '\U{000B}' || c == '\U{000C}' || c == '\r' || c == ' ' ||
    c == '\U{00A0}' || c == '\U{1680}' || ('\U{2000}' <= c <= '\U{200A}') ||
    c == '\U{2028}' || c == '\U{2029}' || c == '\U{202F}' || c == '\U{205F}' || c == '\U{3000}' ||
    c == '\U{FEFF}'
  }

  /** A string made of whitespace only (the empty string included). */
  predicate IsBlank(s: string)
  {
    forall i :: 0 <= i < |s| ==> IsSpace(s[i])
  }

  /** The first position at or after `i` that does not hold whitespace (or |s|). */
  function SkipSpaceForward(s: string, i: nat): (j: nat)
    requires i <= |s|
    ensures i <= j <= |s|
    ensures forall k :: i <= k < j ==> IsSpace(s[k])
    ensures j < |s| ==> !IsSpace(s[j])
    decreases |s| - i
  {
    if i < |s| && IsSpace(s[i]) then SkipSpaceForward(s, i + 1) else i
  }

  /** The end of the last non-whitespace character before `j`, going no lower than `lo`. */
  function SkipSpaceBackward(s: string, lo: nat, j: nat): (e: nat)
    requires lo <= j <= |s|
    ensures lo <= e <= j
    ensures forall k :: e <= k < j ==> IsSpace(s[k])
    ensures e > lo ==> !IsSpace(s[e - 1])
  {
    if j > lo && IsSpace(s[j - 1]) then SkipSpaceBackward(s, lo, j - 1) else j
  }

  /** `needle` sits in `hay` starting at position `k`. */
  predicate OccursAt(hay: string, needle: string, k: int)
  {
    0 <= k && k + |needle| <= |hay| && hay[k..k + |needle|] == needle
  }

  /** `r` sits in `s` at position `k` with only whitespace before and after it. */
  predicate TrimmedAt(s: string, r: string, k: int)
  {
    && OccursAt(s, r, k)
    && (forall i :: 0 <= i < k ==> IsSpace(s[i]))
    && (forall i :: k + |r| <= i < |s| ==> IsSpace(s[i]))
  }

  /**
   * String.prototype.trim: the slice of `s` left between its leading and
   * trailing whitespace. It is empty exactly when `s` is blank.
   */
  function Trim(s: string): (r: string)
    ensures r == [] <==> IsBlank(s)
    ensures r != [] ==> !IsSpace(r[0]) && !IsSpace(r[|r| - 1])
    ensures exists k :: TrimmedAt(s, r, k)
  {
    var start := SkipSpaceForward(s, 0);
    var end := SkipSpaceBackward(s, start, |s|);
    var r := s[start..end];
    assert TrimmedAt(s, r, start);
    r
  }

  /** Trimming twice is trimming once. */
  lemma TrimIdempotent(s: string)
    ensures Trim(Trim(s)) == Trim(s)
  {
  }

  /** toLowerCase on one character; only the ASCII letters are folded. */
  function LowerChar(c: char): (d: char)
    ensures !('A' <= d <= 'Z')
    ensures 'A' <= c <= 'Z' ==> d == (c as int + 32) as char
    ensures 'a' <= d <= 'z' ==> c == d || c == (d as int - 32) as char
    ensures !('A' <= c <= 'Z') ==> d == c
  {
    if 'A' <= c <= 'Z' then (c as int + 32) as char else c
  }

  /** String.prototype.toLowerCase (ASCII case folding). */
  function Lower(s: string): (r: string)
    ensures |r| == |s|
    ensures forall i :: 0 <= i < |s| ==> r[i] == LowerChar(s[i])
  {
    seq(|s|, i requires 0 <= i < |s| => LowerChar(s[i]))
  }

  /** Lowering a lowered string changes nothing. */
  lemma LowerIdempotent(s: string)
    ensures Lower(Lower(s)) == Lower(s)
  {
  }

  /**
   * String.prototype.includes: `needle` occurs in `hay` at some position. The
   * empty string occurs in every string, and a needle longer than `hay` in none.
   */
  predicate Includes(hay: string, needle: string): (b: bool)
    ensures needle == [] ==> b
    ensures b ==> |needle| <= |hay|
  {
    needle <= hay || (hay != [] && Includes(hay[1..], needle))
  }

  /** The recursive definition of Includes agrees with "`needle` occurs at some position of `hay`". */
  lemma {:induction false} IncludesIffOccurs(hay: string, needle: string)
    ensures Includes(hay, needle) <==> exists k :: OccursAt(hay, needle, k)
  {
    if needle <= hay {
      assert OccursAt(hay, needle, 0);
    } else if hay == [] {
      assert forall k :: !OccursAt(hay, needle, k);
    } else {
      IncludesIffOccurs(hay[1..], needle);
      if exists k :: OccursAt(hay, needle, k) {
        var k :| OccursAt(hay, needle, k);
        assert hay[1..][k - 1..k - 1 + |needle|] == hay[k..k + |needle|];
        assert OccursAt(hay[1..], needle, k - 1);
      }
      if Includes(hay[1..], needle) {
        var k :| OccursAt(hay[1..], needle, k);
        assert hay[k + 1..k + 1 + |needle|] == hay[1..][k..k + |needle|];
        assert OccursAt(hay, needle, k + 1);
      }
    }
  }
}
