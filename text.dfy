/** The string operations the log parser relies on: substring search (`t in s`,
    `s.find(t)`), ASCII lowercasing (`s.lower()`), the newline-flattened preview
    (`s[:n].replace("\n", " ")`) and decimal rendering of a line number (`str(n)`). */
module Text {

  /** `t` occurs in `s` starting at position `i`. */
  predicate OccursAt(s: string, t: string, i: nat)
  {
    i + |t| <= |s| && s[i..i + |t|] == t
  }

  /** Python's `t in s`: the empty string occurs everywhere, and nothing longer
      than `s` occurs in it. */
  predicate Contains(s: string, t: string)
    ensures t == [] ==> Contains(s, t)
    ensures Contains(s, t) ==> |t| <= |s|
  {
    assert t == [] ==> OccursAt(s, t, 0);
    exists i: nat | i <= |s| :: OccursAt(s, t, i)
  }

  /** The first occurrence of `t` in `s` at or after `i`, or -1. */
  function FindFrom(s: string, t: string, i: nat): (r: int)
    decreases |s| + 1 - i
    ensures r == -1 || (i <= r && OccursAt(s, t, r))
    ensures forall j: nat :: i <= j && (r == -1 || j < r) ==> !OccursAt(s, t, j)
  {
    if i + |t| > |s| then -1
    else if s[i..i + |t|] == t then i
    else FindFrom(s, t, i + 1)
  }

  /** Python's `s.find(t)`: the index of the first occurrence of `t`, or -1 when there is none. */
  function IndexOf(s: string, t: string): (r: int)
    ensures r == -1 <==> !Contains(s, t)
    ensures r != -1 ==> 0 <= r && OccursAt(s, t, r)
    ensures forall j: nat :: r != -1 && j < r ==> !OccursAt(s, t, j)
  {
    FindFrom(s, t, 0)
  }

  /** A marker whose first character does not occur in `pre` is first found right after `pre`. */
  lemma FirstOccurrenceAfter(pre: string, m: string, post: string)
    requires |m| > 0 && m[0] !in pre
    ensures IndexOf(pre + m + post, m) == |pre|
  {
    var s := pre + m + post;
    assert s[|pre|..|pre| + |m|] == m;
    assert OccursAt(s, m, |pre|);
    forall j | 0 <= j < |pre|
      ensures !OccursAt(s, m, j)
    {
      assert s[j] == pre[j];
      assert j + |m| <= |s| ==> s[j..j + |m|][0] == s[j];
    }
  }

  /** A string with a character that `s` lacks does not occur in `s`. */
  lemma MissingCharNotContained(s: string, t: string, k: nat)
    requires k < |t| && t[k] !in s
    ensures !Contains(s, t)
  {
  }

  /** ASCII lowercasing of one character; other characters are left alone. */
  function LowerChar(c: char): char
  {
    if 'A' <= c <= 'Z' then (c as int + 32) as char else c
  }

  /** `s.lower()`, restricted to ASCII letters. */
  function Lower(s: string): (r: string)
    ensures |r| == |s|
    ensures forall i :: 0 <= i < |s| ==> r[i] == LowerChar(s[i])
  {
    seq(|s|, i requires 0 <= i < |s| => LowerChar(s[i]))
  }

  /** `t in s.lower()`, the case-insensitive test the parser uses with a lower-case `t`. */
  predicate ContainsIgnoreCase(s: string, t: string)
  {
    Contains(Lower(s), t)
  }

  /** An occurrence survives lowercasing both strings. */
  lemma LowerOccurs(s: string, t: string, i: nat)
    requires OccursAt(s, t, i)
    ensures OccursAt(Lower(s), Lower(t), i)
  {
  }

  /** An occurrence of an occurrence is an occurrence. */
  lemma OccursWithin(a: string, b: string, c: string, i: nat, j: nat)
    requires OccursAt(a, b, i) && OccursAt(b, c, j)
    ensures OccursAt(a, c, i + j)
  {
    forall k | 0 <= k < |c| ensures a[i + j..i + j + |c|][k] == c[k] {
      assert b[j + k] == c[k];
      assert a[i + j + k] == b[j + k];
    }
  }

  /** If `t` occurs in `s` and the lowered `t` contains `u`, then the lowered `s` contains `u`. */
  lemma ContainsThroughLower(s: string, t: string, u: string, p: nat)
    requires Contains(s, t)
    requires OccursAt(Lower(t), u, p)
    ensures Contains(Lower(s), u)
  {
    var i: nat :| i <= |s| && OccursAt(s, t, i);
    LowerOccurs(s, t, i);
    OccursWithin(Lower(s), Lower(t), u, i, p);
  }

  /** Python's `s[:n].replace("\n", " ")`. */
  function Preview(s: string, n: nat): (r: string)
    ensures |r| == if |s| < n then |s| else n
    ensures '\n' !in r
    ensures forall k :: 0 <= k < |r| ==> r[k] == (if s[k] == '\n' then ' ' else s[k])
  {
    var head := if |s| < n then s else s[..n];
    seq(|head|, k requires 0 <= k < |head| => if head[k] == '\n' then ' ' else head[k])
  }

  function DigitChar(d: nat): char
    requires d < 10
  {
    ('0' as int + d) as char
  }

  /** Python's `str(n)` for a non-negative integer: decimal digits, with no
      leading zero except for 0 itself. */
  function NatToString(n: nat): (r: string)
    ensures |r| >= 1
    ensures forall k :: 0 <= k < |r| ==> '0' <= r[k] <= '9'
    ensures n >= 10 ==> r[0] != '0'
    ensures n < 10 <==> |r| == 1
  {
    if n < 10 then [DigitChar(n)] else NatToString(n / 10) + [DigitChar(n % 10)]
  }

  /** The value of a string of decimal digits. */
  function DecimalValue(s: string): nat
    requires forall k :: 0 <= k < |s| ==> '0' <= s[k] <= '9'
  {
    if s == [] then 0
    else DecimalValue(s[..|s| - 1]) * 10 + (s[|s| - 1] as int - '0' as int)
  }

  /** Rendering a line number in decimal loses nothing. */
  lemma {:induction false} NatToStringRoundTrip(n: nat)
    ensures DecimalValue(NatToString(n)) == n
  {
    if n >= 10 {
      NatToStringRoundTrip(n / 10);
      var r := NatToString(n);
      assert r[..|r| - 1] == NatToString(n / 10);
    }
  }
}
