/** Text primitives shared by both engines: lowercasing, whitespace,
    stripping and substring containment, as Python's str type provides them. */
module Strings {

  datatype Option<+T> = None | Some(value: T)

  /** `str.lower()` on one character (ASCII letters only). */
  function Lower(c: char): char {
    if 'A' <= c <= 'Z' then (c as int + 32) as char else c
  }

  /** `str.lower()` on a whole string; it keeps every position in place. */
  function LowerStr(s: string): string {
    seq(|s|, i requires 0 <= i < |s| => Lower(s[i]))
  }

  predicate IsUpper(c: char) {
    'A' <= c <= 'Z'
  }

  /** `str.isspace()` on one character, which is also what the regular
      expression class `\s` matches in a `str` pattern. */
  predicate IsSpace(c: char) {
    || c == ' '
    || '\t' <= c <= '\r'
    || '\U{1c}' <= c <= '\U{1f}'
    || c == '\U{85}' || c == '\U{a0}' || c == '\U{1680}'
    || '\U{2000}' <= c <= '\U{200a}'
    || c == '\U{2028}' || c == '\U{2029}' || c == '\U{202f}'
    || c == '\U{205f}' || c == '\U{3000}'
  }

  /** `p` occurs in `s` starting at position `k`. */
  predicate OccursAt(s: string, p: string, k: nat) {
    k + |p| <= |s| && s[k..k + |p|] == p
  }

  /** `p in s` for two strings: `p` occurs somewhere in `s`. */
  predicate Contains(s: string, p: string) {
    exists k: nat | k <= |s| :: OccursAt(s, p, k)
  }

  /** Number of whitespace characters that `str.strip()` removes at the front. */
  function LeadingSpaces(s: string): (n: nat)
    ensures n <= |s|
    ensures forall k :: 0 <= k < n ==> IsSpace(s[k])
    ensures n == |s| || !IsSpace(s[n])
  {
    if |s| > 0 && IsSpace(s[0]) then 1 + LeadingSpaces(s[1..]) else 0
  }

  /** Where `str.strip()` cuts the end of `s`, never before `lo`. */
  function TrailingCut(s: string, lo: nat): (m: nat)
    requires lo <= |s|
    ensures lo <= m <= |s|
    ensures forall k :: m <= k < |s| ==> IsSpace(s[k])
    ensures m == lo || !IsSpace(s[m - 1])
    decreases |s|
  {
    if |s| > lo && IsSpace(s[|s| - 1]) then TrailingCut(s[..|s| - 1], lo) else |s|
  }

  /** `str.strip()`: the string without its leading and trailing whitespace. */
  function Strip(s: string): string {
    var lo := LeadingSpaces(s);
    s[lo..TrailingCut(s, lo)]
  }

  /** `str.strip()` keeps a contiguous part of its input and removes only
      whitespace around it; what it keeps neither starts nor ends with
      whitespace. */
  lemma StripShape(s: string)
    ensures var lo, hi := LeadingSpaces(s), TrailingCut(s, LeadingSpaces(s));
      && Strip(s) == s[lo..hi]
      && (forall k :: 0 <= k < lo ==> IsSpace(s[k]))
      && (forall k :: hi <= k < |s| ==> IsSpace(s[k]))
      && (lo < hi ==> !IsSpace(s[lo]) && !IsSpace(s[hi - 1]))
  {
  }

  lemma ContainsSlice(s: string, a: nat, b: nat)
    requires a <= b <= |s|
    ensures Contains(s, s[a..b])
  {
    assert OccursAt(s, s[a..b], a);
  }

  /** Containment is transitive: an infix of an infix is an infix. */
  lemma {:induction false} ContainsTransitive(a: string, b: string, c: string)
    requires Contains(a, b) && Contains(b, c)
    ensures Contains(a, c)
  {
    var i: nat :| i <= |a| && OccursAt(a, b, i);
    var j: nat :| j <= |b| && OccursAt(b, c, j);
    assert forall t :: 0 <= t < |c| ==> a[i + j + t] == b[j + t] == c[t];
    assert a[i + j..i + j + |c|] == c;
    assert OccursAt(a, c, i + j);
  }

  /** Lowercasing commutes with taking a slice. */
  lemma LowerSlice(s: string, a: nat, b: nat)
    requires a <= b <= |s|
    ensures LowerStr(s[a..b]) == LowerStr(s)[a..b]
  {
  }

  /** A string found in `b` is found in anything containing `b`, after
      lowercasing both. */
  lemma {:induction false} ContainsLowered(a: string, b: string, kw: string)
    requires Contains(a, b) && Contains(LowerStr(b), kw)
    ensures Contains(LowerStr(a), kw)
  {
    var i: nat :| i <= |a| && OccursAt(a, b, i);
    LowerSlice(a, i, i + |b|);
    ContainsSlice(LowerStr(a), i, i + |b|);
    ContainsTransitive(LowerStr(a), LowerStr(b), kw);
  }

  /** Lowercased text holds no upper-case ASCII letter, so a pattern that
      starts with one is never found in it. */
  lemma {:induction false} LoweredLacksUpper(s: string, p: string)
    requires |p| > 0 && IsUpper(p[0])
    ensures !Contains(LowerStr(s), p)
  {
    forall k: nat ensures !OccursAt(LowerStr(s), p, k) {
      if k + |p| <= |s| {
        assert LowerStr(s)[k..k + |p|][0] == LowerStr(s)[k];
      }
    }
  }

  lemma LowerIdempotent(s: string)
    ensures LowerStr(LowerStr(s)) == LowerStr(s)
  {
  }

  lemma EmptyContainsNothing(p: string)
    requires |p| > 0
    ensures !Contains("", p)
  {
  }

  /** Decimal digits of a natural number, as `str(n)` writes them. */
  function NatToString(n: nat): (r: string)
    ensures |r| >= 1
    ensures forall i :: 0 <= i < |r| ==> '0' <= r[i] <= '9'
  {
    if n < 10 then [Digit(n)] else NatToString(n / 10) + [Digit(n % 10)]
  }

  function Digit(d: nat): (c: char)
    requires d < 10
  {
    ['0', '1', '2', '3', '4', '5', '6', '7', '8', '9'][d]
  }

  /** `s[:n]` for a list: at most the first `n` elements. */
  function Take<T>(s: seq<T>, n: nat): (r: seq<T>)
    ensures |r| == if |s| < n then |s| else n
    ensures forall i :: 0 <= i < |r| ==> r[i] == s[i]
  {
    if |s| <= n then s else s[..n]
  }

  /** `any(kw in t for kw in kws)` */
  predicate AnyPresent(kws: seq<string>, t: string) {
    exists i :: 0 <= i < |kws| && Contains(t, kws[i])
  }

  /** `sep.join(parts)` */
  function Join(parts: seq<string>, sep: string): string {
    if |parts| == 0 then ""
    else if |parts| == 1 then parts[0]
    else Join(parts[..|parts| - 1], sep) + sep + parts[|parts| - 1]
  }
}
