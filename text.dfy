/**
 * String operations the pages rely on: `toLowerCase`, `toUpperCase`,
 * `includes` and `replace` with a one-character pattern. Case mapping is
 * modelled on ASCII letters only.
 */
module Text {

  predicate IsUpperAscii(c: char) { 'A' <= c <= 'Z' }

  predicate IsLowerAscii(c: char) { 'a' <= c <= 'z' }

  function LowerChar(c: char): char
  {
    if IsUpperAscii(c) then (c as int + 32) as char else c
  }

  function UpperChar(c: char): char
  {
    if IsLowerAscii(c) then (c as int - 32) as char else c
  }

  /** `s.toLowerCase()`: each upper-case letter becomes its lower-case letter, every other character is kept. */
  function Lower(s: string): (r: string)
    ensures |r| == |s|
    ensures forall i :: 0 <= i < |r| ==> !IsUpperAscii(r[i])
    ensures forall i :: 0 <= i < |s| && IsUpperAscii(s[i]) ==> IsLowerAscii(r[i]) && r[i] as int == s[i] as int + 32
    ensures forall i :: 0 <= i < |s| && !IsUpperAscii(s[i]) ==> r[i] == s[i]
  {
    seq(|s|, i requires 0 <= i < |s| => LowerChar(s[i]))
  }

  /** `s.toUpperCase()`: each lower-case letter becomes its upper-case letter, every other character is kept. */
  function Upper(s: string): (r: string)
    ensures |r| == |s|
    ensures forall i :: 0 <= i < |r| ==> !IsLowerAscii(r[i])
    ensures forall i :: 0 <= i < |s| && IsLowerAscii(s[i]) ==> IsUpperAscii(r[i]) && r[i] as int == s[i] as int - 32
    ensures forall i :: 0 <= i < |s| && !IsLowerAscii(s[i]) ==> r[i] == s[i]
  {
    seq(|s|, i requires 0 <= i < |s| => UpperChar(s[i]))
  }

  /** Two strings that differ only in letter case lower-case to the same string. */
  predicate SameIgnoringCase(a: string, b: string)
  {
    Lower(a) == Lower(b)
  }

  /** `t` occurs in `s` starting at index `i`. */
  predicate OccursAt(t: string, s: string, i: nat)
  {
    i + |t| <= |s| && s[i..i + |t|] == t
  }

  /** `s.includes(t)`. */
  predicate IsSubstring(t: string, s: string)
  {
    exists i: nat | i <= |s| :: OccursAt(t, s, i)
  }

  /** The empty string is included in every string. */
  lemma EmptyIsSubstring(s: string)
    ensures IsSubstring("", s)
  {
    assert OccursAt("", s, 0);
  }

  /** Inclusion of strings is transitive. */
  lemma SubstringTransitive(a: string, b: string, c: string)
    requires IsSubstring(a, b) && IsSubstring(b, c)
    ensures IsSubstring(a, c)
  {
    var i: nat :| i <= |b| && OccursAt(a, b, i);
    var j: nat :| j <= |c| && OccursAt(b, c, j);
    assert b == c[j..j + |b|];
    forall k | 0 <= k < |a| ensures c[j + i + k] == a[k] {
      assert a[k] == b[i + k] == c[j + i + k];
    }
    assert c[j + i..j + i + |a|] == a;
    assert OccursAt(a, c, j + i);
  }

  /** Lower-casing both sides keeps an inclusion. */
  lemma LowerKeepsSubstring(t: string, s: string)
    requires IsSubstring(t, s)
    ensures IsSubstring(Lower(t), Lower(s))
  {
    var i: nat :| i <= |s| && OccursAt(t, s, i);
    assert Lower(s)[i..i + |t|] == Lower(t);
    assert OccursAt(Lower(t), Lower(s), i);
  }

  /** Index of the first `c` in `s`, or `|s|` when there is none (`indexOf`, with `|s|` for -1). */
  function IndexOf(s: string, c: char): (i: nat)
    ensures i <= |s|
    ensures i < |s| ==> s[i] == c
    ensures forall j :: 0 <= j < i ==> s[j] != c
  {
    if s == [] then 0
    else if s[0] == c then 0
    else 1 + IndexOf(s[1..], c)
  }

  /** The first `c` in `s` stands at `k`. */
  lemma {:induction false} IndexOfIs(s: string, c: char, k: nat)
    requires k < |s| && s[k] == c
    requires forall j :: 0 <= j < k ==> s[j] != c
    ensures IndexOf(s, c) == k
  {
    if k > 0 {
      IndexOfIs(s[1..], c, k - 1);
    }
  }

  /**
   * `s.replace(from, to)` for one-character strings `from` and `to`:
   * JavaScript replaces the first occurrence only.
   */
  function ReplaceFirst(s: string, from: char, to: char): (r: string)
    ensures |r| == |s|
    ensures IndexOf(s, from) == |s| ==> r == s
    ensures IndexOf(s, from) < |s| ==>
      r == s[..IndexOf(s, from)] + [to] + s[IndexOf(s, from) + 1..]
  {
    if s == [] then []
    else if s[0] == from then [to] + s[1..]
    else [s[0]] + ReplaceFirst(s[1..], from, to)
  }

  /** When the first `from` stands at `k`, the replacement puts `to` there and keeps the rest. */
  lemma ReplaceFirstAt(s: string, from: char, to: char, k: nat, expected: string)
    requires k < |s| && s[k] == from
    requires forall j :: 0 <= j < k ==> s[j] != from
    requires s[..k] + [to] + s[k + 1..] == expected
    ensures ReplaceFirst(s, from, to) == expected
  {
    IndexOfIs(s, from, k);
  }

  /** `c` occurs at most once in `s`. */
  predicate AtMostOnce(s: string, c: char)
  {
    forall i, j :: 0 <= i < j < |s| && s[i] == c ==> s[j] != c
  }

  /** If `from` occurs at most once, replacing its first occurrence replaces every occurrence. */
  lemma ReplaceFirstSingle(s: string, from: char, to: char)
    requires AtMostOnce(s, from)
    ensures forall i :: 0 <= i < |s| ==> ReplaceFirst(s, from, to)[i] == if s[i] == from then to else s[i]
  {
    var r, k := ReplaceFirst(s, from, to), IndexOf(s, from);
    forall n | 0 <= n < |s| ensures r[n] == if s[n] == from then to else s[n] {
      if k < |s| && n > k {
        assert r[n] == s[n];
      }
    }
  }

  /** If `from` occurs at most once, replacing its first occurrence leaves none. */
  lemma ReplaceFirstClearsSingle(s: string, from: char, to: char)
    requires from != to && AtMostOnce(s, from)
    ensures from !in ReplaceFirst(s, from, to)
  {
    var r, k := ReplaceFirst(s, from, to), IndexOf(s, from);
    forall n | 0 <= n < |r| ensures r[n] != from {
      if k < |s| && n > k {
        assert r[n] == s[n];
      }
    }
  }

  /** If `from` occurs twice, one occurrence survives the replacement. */
  lemma ReplaceFirstKeepsSecond(s: string, from: char, to: char)
    requires from != to && !AtMostOnce(s, from)
    ensures from in ReplaceFirst(s, from, to)
  {
    var i, j :| 0 <= i < j < |s| && s[i] == from && s[j] == from;
    var k := IndexOf(s, from);
    assert k <= i;
    assert ReplaceFirst(s, from, to)[j] == from;
  }
}
