/**
 The string operations the workflow relies on: Python's `str.lower`,
 `str.upper`, the `in` substring test, prefix slicing `s[:n]` and
 `dict.get(key, default)` on string-valued dictionaries.
 Case mapping covers the ASCII letters only.
 */
module Text {

  predicate IsUpperAscii(c: char) { 'A' <= c <= 'Z' }

  predicate IsLowerAscii(c: char) { 'a' <= c <= 'z' }

  predicate IsAsciiLetter(c: char) { IsUpperAscii(c) || IsLowerAscii(c) }

  predicate IsDigit(c: char) { '0' <= c <= '9' }

  function LowerChar(c: char): (d: char)
    ensures !IsUpperAscii(d)
    ensures IsAsciiLetter(c) <==> IsLowerAscii(d)
    ensures !IsUpperAscii(c) ==> d == c
  {
    if IsUpperAscii(c) then (c as int + 32) as char else c
  }

  function UpperChar(c: char): (d: char)
    ensures !IsLowerAscii(d)
    ensures IsAsciiLetter(c) <==> IsUpperAscii(d)
    ensures !IsLowerAscii(c) ==> d == c
  {
    if IsLowerAscii(c) then (c as int - 32) as char else c
  }

  /** Each ASCII letter's case partner maps back to it. */
  lemma CasePartners(c: char)
    ensures IsUpperAscii(c) ==> UpperChar(LowerChar(c)) == c
    ensures IsLowerAscii(c) ==> LowerChar(UpperChar(c)) == c
  {
  }

  /** `s.lower()`: every character mapped by LowerChar, in place. */
  function Lower(s: string): (r: string)
    ensures |r| == |s|
    ensures forall i :: 0 <= i < |s| ==> r[i] == LowerChar(s[i])
  {
    seq(|s|, i requires 0 <= i < |s| => LowerChar(s[i]))
  }

  /** `s.upper()`: every character mapped by UpperChar, in place. */
  function Upper(s: string): (r: string)
    ensures |r| == |s|
    ensures forall i :: 0 <= i < |s| ==> r[i] == UpperChar(s[i])
  {
    seq(|s|, i requires 0 <= i < |s| => UpperChar(s[i]))
  }

  /** `sub` occurs in `s` starting at index `i`. */
  predicate OccursAt(s: string, sub: string, i: int)
  {
    0 <= i <= |s| - |sub| && s[i..i + |sub|] == sub
  }

  /** Python's `sub in s`. The empty string occurs in every string. */
  predicate Contains(s: string, sub: string)
  {
    exists i | 0 <= i <= |s| - |sub| :: OccursAt(s, sub, i)
  }

  predicate StartsWith(s: string, prefix: string)
  {
    |prefix| <= |s| && s[..|prefix|] == prefix
  }

  predicate EndsWith(s: string, suffix: string)
  {
    |suffix| <= |s| && s[|s| - |suffix|..] == suffix
  }

  /** Python's `s[:n]` for a non-negative `n`: never out of range. */
  function Take(s: string, n: nat): (r: string)
    ensures |r| == if n < |s| then n else |s|
    ensures StartsWith(s, r)
  {
    if n < |s| then s[..n] else s
  }

  /** `d.get(key, default)` on a dictionary of strings. */
  function GetOr(d: map<string, string>, key: string, default: string): (r: string)
    ensures key in d ==> r == d[key]
    ensures key !in d ==> r == default
  {
    if key in d then d[key] else default
  }

  lemma LowerOfUpper(s: string)
    ensures Lower(Upper(s)) == Lower(s)
  {
  }

  lemma LowerIdempotent(s: string)
    ensures Lower(Lower(s)) == Lower(s)
  {
  }

  /** A text without upper-case letters is its own lower case. */
  lemma LowerKeeps(s: string)
    requires forall i :: 0 <= i < |s| ==> !IsUpperAscii(s[i])
    ensures Lower(s) == s
  {
  }

  lemma LowerAppend(a: string, b: string)
    ensures Lower(a + b) == Lower(a) + Lower(b)
  {
  }

  /** Any occurrence of `sub` in `s` lies inside a longer text `p + s + q`. */
  lemma ContainsInContext(p: string, s: string, q: string, sub: string)
    requires Contains(s, sub)
    ensures Contains(p + s + q, sub)
  {
    var i :| 0 <= i <= |s| - |sub| && OccursAt(s, sub, i);
    var t := p + s + q;
    assert t[|p| + i..|p| + i + |sub|] == s[i..i + |sub|];
    assert OccursAt(t, sub, |p| + i);
  }

  /** A text that lacks one of the characters of `sub` cannot contain `sub`. */
  lemma MissingCharExcludes(s: string, sub: string, c: char)
    requires c in sub && c !in s
    ensures !Contains(s, sub)
  {
  }

  /** A text that lacks a letter in both cases lacks it after lower-casing. */
  lemma LowerLacks(s: string, c: char)
    requires IsLowerAscii(c) && c !in s && UpperChar(c) !in s
    ensures c !in Lower(s)
  {
  }

  lemma StartsWithConcat(a: string, b: string)
    ensures StartsWith(a + b, a)
  {
  }

  lemma EndsWithConcat(a: string, b: string)
    ensures EndsWith(a + b, b)
  {
  }

  /** Two prefixes that disagree at position `k` cannot both start `s`. */
  lemma StartsWithExcludes(s: string, p: string, q: string, k: nat)
    requires StartsWith(s, p) && k < |p| && k < |q| && p[k] != q[k]
    ensures !StartsWith(s, q)
  {
  }

  /** Two suffixes that disagree `k` places from their ends cannot both end `s`. */
  lemma EndsWithExcludes(s: string, p: string, q: string, k: nat)
    requires EndsWith(s, p) && 0 < k <= |p| && k <= |q| && p[|p| - k] != q[|q| - k]
    ensures !EndsWith(s, q)
  {
  }

  /** Whatever occurs in a prefix of `s` occurs in `s`. */
  lemma ContainsThroughPrefix(s: string, prefix: string, sub: string)
    requires StartsWith(s, prefix) && Contains(prefix, sub)
    ensures Contains(s, sub)
  {
    assert s == prefix + s[|prefix|..];
    ContainsInContext([], prefix, s[|prefix|..], sub);
    assert [] + prefix + s[|prefix|..] == s;
  }

  /** The middle part of a concatenation occurs in it. */
  lemma ContainsMiddle(a: string, b: string, c: string)
    ensures Contains(a + b + c, b)
  {
    assert (a + b + c)[|a|..|a| + |b|] == b;
    assert OccursAt(a + b + c, b, |a|);
  }

  /** Each of four concatenated parts occurs in the whole, the first as a prefix and the last as a suffix. */
  lemma FourParts(a: string, b: string, c: string, d: string)
    ensures StartsWith(a + b + c + d, a)
    ensures Contains(a + b + c + d, b)
    ensures Contains(a + b + c + d, c)
    ensures EndsWith(a + b + c + d, d)
  {
    var w := a + b + c + d;
    assert w == a + (b + c + d);
    StartsWithConcat(a, b + c + d);
    assert w == a + b + (c + d);
    ContainsMiddle(a, b, c + d);
    ContainsMiddle(a + b, c, d);
    EndsWithConcat(a + b + c, d);
  }
}
