/** Character and string helpers with Python's `str` semantics (ASCII for case mapping). */
module Strings {

  /** Index of the last occurrence of `c` in `s`, or -1 (`str.rfind`). */
  function LastIndexOf(s: string, c: char): (r: int)
    ensures -1 <= r < |s|
    ensures r >= 0 ==> s[r] == c
    ensures forall k :: r < k < |s| ==> s[k] != c
  {
    if |s| == 0 then -1
    else if s[|s| - 1] == c then |s| - 1
    else LastIndexOf(s[..|s| - 1], c)
  }

  /** The postconditions of LastIndexOf pin its value down. */
  lemma LastIndexOfUnique(s: string, c: char, r: int)
    requires -1 <= r < |s|
    requires r >= 0 ==> s[r] == c
    requires forall k :: r < k < |s| ==> s[k] != c
    ensures LastIndexOf(s, c) == r
  {
  }

  /** Index of the first occurrence of `c` in `s`, or -1 (`str.find`). */
  function IndexOf(s: string, c: char): (r: int)
    ensures -1 <= r < |s|
    ensures r >= 0 ==> s[r] == c
    ensures forall k :: 0 <= k < |s| && (r < 0 || k < r) ==> s[k] != c
  {
    if |s| == 0 then -1
    else if s[0] == c then 0
    else var q := IndexOf(s[1..], c); if q < 0 then -1 else q + 1
  }

  /** The first occurrence of `c` in `a + b` is the first in `a`, else the first in `b` shifted by `|a|`. */
  lemma {:induction false} IndexOfAppend(a: string, b: string, c: char)
    ensures IndexOf(a + b, c) ==
      if IndexOf(a, c) >= 0 then IndexOf(a, c)
      else if IndexOf(b, c) >= 0 then |a| + IndexOf(b, c)
      else -1
  {
    if a != [] {
      assert (a + b)[1..] == a[1..] + b;
      IndexOfAppend(a[1..], b, c);
    } else {
      assert a + b == b;
    }
  }

  /** `s.split(c)` for a one-character separator: never empty, no part contains `c`. */
  function SplitOn(s: string, c: char): (parts: seq<string>)
    ensures |parts| >= 1
    ensures forall i :: 0 <= i < |parts| ==> c !in parts[i]
    decreases |s|
  {
    var i := IndexOf(s, c);
    if i < 0 then [s]
    else
      var first, rest := s[..i], SplitOn(s[i + 1..], c);
      assert forall k :: 0 <= k < |first| ==> first[k] != c;
      [first] + rest
  }

  /** A string without the separator splits into itself. */
  lemma SplitOnNoSeparator(s: string, c: char)
    requires c !in s
    ensures SplitOn(s, c) == [s]
  {
  }

  /** A split into a single part has no separator to split at. */
  lemma SplitOnSingle(s: string, c: char)
    requires |SplitOn(s, c)| < 2
    ensures SplitOn(s, c) == [s]
  {
  }

  /** Splitting at the first separator of `s`, found at `i`. */
  lemma SplitOnAt(s: string, c: char, i: nat)
    requires i < |s| && IndexOf(s, c) == i
    ensures SplitOn(s, c) == [s[..i]] + SplitOn(s[i + 1..], c)
  {
  }

  /** The first separator of `a + [c] + b` is that of `a`, or the joining `c`. */
  lemma IndexOfJoined(a: string, c: char, b: string)
    ensures IndexOf(a + [c] + b, c) == (if IndexOf(a, c) >= 0 then IndexOf(a, c) else |a|)
  {
    assert a + [c] + b == a + ([c] + b);
    assert ([c] + b)[0] == c;
    IndexOfAppend(a, [c] + b, c);
  }

  /** Splitting `a + [c] + b` on `c` splits `a` and `b` separately. */
  lemma {:induction false} SplitOnAppend(a: string, c: char, b: string)
    ensures SplitOn(a + [c] + b, c) == SplitOn(a, c) + SplitOn(b, c)
    decreases |a|, 1
  {
    var s := a + [c] + b;
    var i := IndexOf(a, c);
    IndexOfJoined(a, c, b);
    if i < 0 {
      SplitOnAt(s, c, |a|);
      assert s[..|a|] == a;
      assert s[|a| + 1..] == b;
    } else {
      SplitOnSeparated(a, c, b, i);
    }
  }

  /** Two separator-free parts joined by one separator split back into the two. */
  lemma SplitOnTwo(a: string, c: char, b: string)
    requires c !in a && c !in b
    ensures SplitOn(a + [c] + b, c) == [a, b]
  {
    SplitOnAppend(a, c, b);
    SplitOnNoSeparator(a, c);
    SplitOnNoSeparator(b, c);
  }

  /** The inductive step of `SplitOnAppend`, when `a` holds a separator at `i`. */
  lemma {:induction false} SplitOnSeparated(a: string, c: char, b: string, i: nat)
    requires i < |a| && IndexOf(a, c) == i
    ensures SplitOn(a + [c] + b, c) == SplitOn(a, c) + SplitOn(b, c)
    decreases |a|, 0
  {
    var rest := a[i + 1..];
    SplitOnFirstOfJoined(a, c, b, i);
    SplitOnAt(a, c, i);
    SplitOnAppend(rest, c, b);
    AppendAssociative([a[..i]], SplitOn(rest, c), SplitOn(b, c));
  }

  lemma AppendAssociative<T>(x: seq<T>, y: seq<T>, z: seq<T>)
    ensures x + (y + z) == (x + y) + z
  {
  }

  lemma AppendEmpty<T>(s: seq<T>)
    ensures s + [] == s
  {
  }

  lemma TakeDrop<T>(s: seq<T>, i: nat)
    requires i <= |s|
    ensures s[..i] + s[i..] == s
  {
  }

  lemma TakeAll<T>(s: seq<T>)
    ensures s[..|s|] == s
  {
  }

  /** A prefix of a prefix is a prefix of the whole. */
  lemma PrefixOfPrefix<T>(s: seq<T>, i: nat, j: nat)
    requires i <= j <= |s|
    ensures s[..j][..i] == s[..i]
  {
  }

  /** The three parts of a concatenation of three, cut out again. */
  lemma SliceOfConcat<T>(a: seq<T>, b: seq<T>, c: seq<T>)
    ensures (a + b + c)[..|a|] == a
    ensures (a + b + c)[|a|..|a| + |b|] == b
    ensures (a + b + c)[|a| + |b|..] == c
  {
  }

  /** A prefix one longer is the prefix followed by the element at its end. */
  lemma SliceSnoc<T>(s: seq<T>, k: nat)
    requires k < |s|
    ensures s[..k] + [s[k]] == s[..k + 1]
  {
  }

  /** The first part of `a + [c] + b` ends at the first separator of `a`. */
  lemma SplitOnFirstOfJoined(a: string, c: char, b: string, i: nat)
    requires i < |a| && IndexOf(a, c) == i
    ensures SplitOn(a + [c] + b, c) == [a[..i]] + SplitOn(a[i + 1..] + [c] + b, c)
  {
    var s := a + [c] + b;
    IndexOfJoined(a, c, b);
    SplitOnAt(s, c, i);
    assert s[i + 1..] == a[i + 1..] + [c] + b;
    assert s[..i] == a[..i];
  }

  /** `c.join(parts)`: the parts with one `c` between neighbours. */
  function JoinOn(parts: seq<string>, c: char): string {
    if |parts| == 0 then []
    else if |parts| == 1 then parts[0]
    else parts[0] + [c] + JoinOn(parts[1..], c)
  }

  /** Joining the parts of a split with the separator gives the string back. */
  lemma {:induction false} JoinOnSplitOn(s: string, c: char)
    ensures JoinOn(SplitOn(s, c), c) == s
    decreases |s|
  {
    var i := IndexOf(s, c);
    if i >= 0 {
      var rest := s[i + 1..];
      var tail := SplitOn(rest, c);
      SplitOnAt(s, c, i);
      assert ([s[..i]] + tail)[1..] == tail;
      JoinOnSplitOn(rest, c);
      assert s == s[..i] + [c] + rest;
    }
  }

  /** Cutting a prefix at `i` and then at `j - i` is cutting at `j`. */
  lemma SliceSplit(p: string, i: nat, j: nat)
    requires i <= j <= |p|
    ensures p[..j] == p[..i] + p[i..][..j - i]
    ensures p[j..] == p[i..][j - i..]
    ensures p == p[..i] + p[i..]
  {
  }

  predicate OccursAt(s: string, pat: string, i: nat) {
    i + |pat| <= |s| && s[i..i + |pat|] == pat
  }

  /** `s.replace(pat, rep)`: every non-overlapping occurrence, scanning left to right. */
  function ReplaceAll(s: string, pat: string, rep: string): (r: string)
    requires |pat| > 0
    ensures rep == pat ==> r == s
    decreases |s|
  {
    if |s| < |pat| then s
    else if s[..|pat|] == pat then rep + ReplaceAll(s[|pat|..], pat, rep)
    else [s[0]] + ReplaceAll(s[1..], pat, rep)
  }

  /** A string without any occurrence of `pat` is left alone by ReplaceAll. */
  lemma {:induction false} ReplaceAllAbsent(s: string, pat: string, rep: string)
    requires |pat| > 0
    ensures (forall i: nat :: i < |s| ==> !OccursAt(s, pat, i)) ==> ReplaceAll(s, pat, rep) == s
    decreases |s|
  {
    if |s| >= |pat| && forall i: nat :: i < |s| ==> !OccursAt(s, pat, i) {
      assert !OccursAt(s, pat, 0);
      forall i: nat | i < |s[1..]| ensures !OccursAt(s[1..], pat, i) {
        if i + |pat| <= |s[1..]| {
          assert s[1..][i..i + |pat|] == s[i + 1..i + 1 + |pat|];
          assert !OccursAt(s, pat, i + 1);
        }
      }
      ReplaceAllAbsent(s[1..], pat, rep);
    }
  }

  /** When `pat` occurs in `a + pat` only at its end, replacing it rewrites just that suffix. */
  lemma {:induction false} ReplaceAllSuffix(a: string, pat: string, rep: string)
    requires |pat| > 0
    requires forall i: nat :: i < |a| ==> !OccursAt(a + pat, pat, i)
    ensures ReplaceAll(a + pat, pat, rep) == a + rep
    decreases |a|
  {
    var s := a + pat;
    if a == [] {
      assert s == pat && s[..|pat|] == pat && s[|pat|..] == [];
    } else {
      assert !OccursAt(s, pat, 0);
      assert s[1..] == a[1..] + pat;
      forall i: nat | i < |a[1..]| ensures !OccursAt(a[1..] + pat, pat, i) {
        if i + |pat| <= |a[1..] + pat| {
          assert (a[1..] + pat)[i..i + |pat|] == s[i + 1..i + 1 + |pat|];
          assert !OccursAt(s, pat, i + 1);
        }
      }
      ReplaceAllSuffix(a[1..], pat, rep);
      assert [s[0]] + (a[1..] + rep) == a + rep;
    }
  }

  predicate StartsWith(s: string, prefix: string) {
    |prefix| <= |s| && s[..|prefix|] == prefix
  }

  lemma PrefixStartsWith(s: string, k: nat)
    requires k <= |s|
    ensures StartsWith(s, s[..k])
  {
  }

  predicate EndsWith(s: string, suffix: string) {
    |suffix| <= |s| && s[|s| - |suffix|..] == suffix
  }

  function LowerChar(c: char): char {
    if 'A' <= c <= 'Z' then (c as int + 32) as char else c
  }

  function UpperChar(c: char): char {
    if 'a' <= c <= 'z' then (c as int - 32) as char else c
  }

  /** `str.lower()` on an ASCII byte string. */
  function Lower(s: string): (r: string)
    ensures |r| == |s| && forall k :: 0 <= k < |s| ==> r[k] == LowerChar(s[k])
  {
    seq(|s|, k requires 0 <= k < |s| => LowerChar(s[k]))
  }

  /** `str.upper()` on an ASCII byte string. */
  function Upper(s: string): (r: string)
    ensures |r| == |s| && forall k :: 0 <= k < |s| ==> r[k] == UpperChar(s[k])
  {
    seq(|s|, k requires 0 <= k < |s| => UpperChar(s[k]))
  }

  predicate IsDigit(c: char) { '0' <= c <= '9' }

  predicate AllDigits(s: string) { forall k :: 0 <= k < |s| ==> IsDigit(s[k]) }

  function DigitChar(d: nat): (c: char)
    requires d < 10
    ensures IsDigit(c) && c as int - '0' as int == d
  {
    ('0' as int + d) as char
  }

  /** `int(s)` for a string of ASCII decimal digits. */
  function DigitsValue(s: string): nat
    requires AllDigits(s)
  {
    if s == [] then 0
    else DigitsValue(s[..|s| - 1]) * 10 + (s[|s| - 1] as int - '0' as int)
  }

  /** Decimal rendering of a natural number (`str(n)`, `"%s" % n`, JavaScript `"" + n`). */
  function NatToString(n: nat): (r: string)
    ensures |r| >= 1 && AllDigits(r)
  {
    if n < 10 then [DigitChar(n)] else NatToString(n / 10) + [DigitChar(n % 10)]
  }

  /** Decimal rendering of an integer, with a leading minus sign when negative. */
  function IntToString(i: int): (r: string)
    ensures forall k :: 0 <= k < |r| ==> IsDigit(r[k]) || r[k] == '-'
  {
    if i < 0 then "-" + NatToString(-i) else NatToString(i)
  }

  /** Parsing the decimal rendering gives the number back. */
  lemma {:induction false} NatToStringRoundTrip(n: nat)
    ensures DigitsValue(NatToString(n)) == n
  {
    if n >= 10 {
      var r := NatToString(n);
      assert r[..|r| - 1] == NatToString(n / 10);
      NatToStringRoundTrip(n / 10);
    }
  }
}
