/**
 * Shared vocabulary of the model: Python's None-or-value and exception
 * results, and the handful of Python `str` operations the core relies on
 * (strip, startswith, find, split, lower, int() and str() of integers).
 */
module Common {

  datatype Option<T> = None | Some(value: T)

  /** An operation that either returns a value or raises `error`. */
  datatype Result<T, E> = Ok(value: T) | Err(error: E)

  // ----- characters -----

  /** Python's `str.isspace` on the ASCII range. */
  predicate IsSpace(c: char) {
    var k := c as int;
    k == 32 || 9 <= k <= 13 || 28 <= k <= 31
  }

  predicate IsDigit(c: char) { '0' <= c <= '9' }

  predicate AllSpace(s: string) { forall i :: 0 <= i < |s| ==> IsSpace(s[i]) }

  predicate AllDigits(s: string) { forall i :: 0 <= i < |s| ==> IsDigit(s[i]) }

  // ----- Python slicing -----

  /** `s[:n]` for a non-negative `n`: at most the first `n` characters. */
  function Take<T>(s: seq<T>, n: nat): (r: seq<T>)
    ensures |r| == if n < |s| then n else |s|
    ensures r <= s
  {
    if n < |s| then s[..n] else s
  }

  /** `s[n:]` for a non-negative `n`: empty once `n` passes the end. */
  function Drop<T>(s: seq<T>, n: nat): (r: seq<T>)
    ensures |r| == if n < |s| then |s| - n else 0
    ensures Take(s, n) + r == s
  {
    if n < |s| then s[n..] else []
  }

  /** The bound on a series' length: `limit` samples, none when `limit` is not positive. */
  function Cap(limit: int): nat {
    if limit > 0 then limit else 0
  }

  /** The last `limit` elements of `all`; none when `limit` is not positive. */
  function LastN<T>(all: seq<T>, limit: int): (r: seq<T>)
    ensures |r| == if |all| <= Cap(limit) then |all| else Cap(limit)
  {
    if limit <= 0 then [] else if |all| <= limit then all else all[|all| - limit..]
  }

  /** A window of a window is the shorter window of the whole. */
  lemma LastNOfLastN<T>(all: seq<T>, n: int, m: int)
    requires m <= n
    ensures LastN(LastN(all, n), m) == LastN(all, m)
  {
  }

  /** Appending to a window and cutting it back is the window of the appended whole. */
  lemma LastNAppend<T>(all: seq<T>, x: T, n: int)
    ensures LastN(LastN(all, n) + [x], n) == LastN(all + [x], n)
  {
    if n > 0 && |all| > n {
      assert (LastN(all, n) + [x])[1..] == (all + [x])[|all| + 1 - n..];
    }
  }

  /** Older elements do not reach a window that the newer ones already fill. */
  lemma LastNIgnoresOlder<T>(older: seq<T>, newer: seq<T>, m: int)
    requires |newer| >= m
    ensures LastN(older + newer, m) == LastN(newer, m)
  {
    if m > 0 {
      assert (older + newer)[|older + newer| - m..] == newer[|newer| - m..];
    }
  }

  // ----- strip -----

  /** The length of the whitespace run `s` starts with. */
  function LeadingSpace(s: string): (n: nat)
    ensures n <= |s| && AllSpace(s[..n]) && (n == |s| || !IsSpace(s[n]))
  {
    if |s| > 0 && IsSpace(s[0]) then
      var k := LeadingSpace(s[1..]);
      assert s[..k + 1] == [s[0]] + s[1..][..k];
      k + 1
    else 0
  }

  /** The length of `s` without the whitespace run it ends with. */
  function TrailingStart(s: string): (n: nat)
    ensures n <= |s| && AllSpace(s[n..]) && (n == 0 || !IsSpace(s[n - 1]))
  {
    if |s| > 0 && IsSpace(s[|s| - 1]) then
      var k := TrailingStart(s[..|s| - 1]);
      assert s[k..] == s[..|s| - 1][k..] + [s[|s| - 1]];
      k
    else |s|
  }

  /** `r` is `s` with the whitespace runs `s[..a]` and `s[a + |r|..]` removed. */
  predicate IsStripOf(s: string, r: string, a: int) {
    0 <= a <= |s| - |r| && s[a..a + |r|] == r && AllSpace(s[..a]) && AllSpace(s[a + |r|..])
  }

  /** Python's `str.strip()` with no argument. */
  function Strip(s: string): (r: string)
    ensures |r| <= |s|
    ensures r == [] || (!IsSpace(r[0]) && !IsSpace(r[|r| - 1]))
    ensures exists a :: IsStripOf(s, r, a)
  {
    var a := LeadingSpace(s);
    var t := s[a..];
    var k := TrailingStart(t);
    var r := t[..k];
    assert r == s[a..a + k] && t[k..] == s[a + k..];
    assert r != [] ==> r[0] == s[a] && r[k - 1] == t[k - 1];
    assert IsStripOf(s, r, a);
    r
  }

  /** A string with no whitespace at either end is its own strip. */
  lemma StripFixed(s: string)
    requires s == [] || (!IsSpace(s[0]) && !IsSpace(s[|s| - 1]))
    ensures Strip(s) == s
  {
  }

  lemma {:induction false} StripAllSpace(s: string)
    ensures Strip(s) == [] <==> AllSpace(s)
  {
    var a :| IsStripOf(s, Strip(s), a);
    if Strip(s) == [] {
      assert s == s[..a] + s[a..];
    } else {
      assert !IsSpace(s[a]);
    }
  }

  // ----- prefixes and search -----

  predicate StartsWith(s: string, p: string) { |p| <= |s| && s[..|p|] == p }

  predicate EndsWith(s: string, p: string) { |p| <= |s| && s[|s| - |p|..] == p }

  predicate OccursAt(s: string, pat: string, i: int) {
    0 <= i && i + |pat| <= |s| && s[i..i + |pat|] == pat
  }

  /** Python's `pat in s`. */
  predicate Contains(s: string, pat: string) { exists i :: 0 <= i <= |s| && OccursAt(s, pat, i) }

  /** Python's `s.find(pat, start)`, with `None` for -1. */
  function FindFrom(s: string, pat: string, start: nat): (r: Option<nat>)
    ensures r.Some? ==> start <= r.value && OccursAt(s, pat, r.value)
    ensures forall j :: start <= j && (r.None? || j < r.value) ==> !OccursAt(s, pat, j)
    decreases |s| - start
  {
    if start + |pat| > |s| then None
    else if s[start..start + |pat|] == pat then Some(start)
    else FindFrom(s, pat, start + 1)
  }

  /** Python's `s.find(pat)`: the first occurrence, or `None` exactly when `pat` is absent. */
  function Find(s: string, pat: string): (r: Option<nat>)
    ensures r.None? <==> !Contains(s, pat)
    ensures r.Some? ==> OccursAt(s, pat, r.value)
    ensures forall j :: 0 <= j && (r.None? || j < r.value) ==> !OccursAt(s, pat, j)
  {
    FindFrom(s, pat, 0)
  }

  /** An occurrence inside a slice is an occurrence in the whole text. */
  lemma OccursInSlice(s: string, a: nat, b: nat, pat: string, j: int)
    requires a <= b <= |s| && OccursAt(s[a..b], pat, j)
    ensures OccursAt(s, pat, a + j)
  {
    forall k | 0 <= k < |pat|
      ensures s[a + j..a + j + |pat|][k] == pat[k]
    {
      assert s[a..b][j..j + |pat|][k] == pat[k];
    }
    assert s[a + j..a + j + |pat|] == pat;
  }

  /** The text before the first occurrence of `pat` does not contain it. */
  lemma PrefixBeforeFirst(s: string, pat: string, i: nat)
    requires |pat| > 0 && i <= |s| && forall j :: 0 <= j < i ==> !OccursAt(s, pat, j)
    ensures !Contains(s[..i], pat)
  {
    forall j | 0 <= j <= i && OccursAt(s[..i], pat, j)
      ensures false
    {
      OccursInSlice(s, 0, i, pat, j);
    }
  }

  /** Stripping never introduces a substring. */
  lemma StripKeepsAbsence(s: string, pat: string)
    requires !Contains(s, pat)
    ensures !Contains(Strip(s), pat)
  {
    var r := Strip(s);
    var a :| IsStripOf(s, r, a);
    forall j | 0 <= j <= |r| && OccursAt(r, pat, j)
      ensures false
    {
      OccursInSlice(s, a, a + |r|, pat, j);
    }
  }

  /** `s.split(pat)[0]`: the text before the first occurrence of `pat`, or all of `s`. */
  function BeforeFirst(s: string, pat: string): (r: string)
    requires |pat| > 0
    ensures r <= s && !Contains(r, pat)
    ensures Contains(s, pat) ==> OccursAt(s, pat, |r|)
    ensures !Contains(s, pat) ==> r == s
  {
    match Find(s, pat)
    case Some(i) => PrefixBeforeFirst(s, pat, i); s[..i]
    case None => s
  }

  // ----- case -----

  function LowerChar(c: char): char {
    if 'A' <= c <= 'Z' then (c as int + 32) as char else c
  }

  /** Python's `str.lower()` on ASCII letters. */
  function Lower(s: string): (r: string)
    ensures |r| == |s|
    ensures forall i :: 0 <= i < |s| ==> r[i] == LowerChar(s[i])
  {
    if s == [] then [] else [LowerChar(s[0])] + Lower(s[1..])
  }

  // ----- integers as text -----

  function DigitChar(d: nat): (c: char)
    requires d < 10
    ensures IsDigit(c)
  {
    ('0' as int + d) as char
  }

  function DigitValue(c: char): nat
    requires IsDigit(c)
  {
    c as int - '0' as int
  }

  /** Python's `str(n)` for a non-negative integer. */
  function NatToString(n: nat): (r: string)
    ensures |r| > 0 && AllDigits(r)
    decreases n
  {
    if n < 10 then [DigitChar(n)] else NatToString(n / 10) + [DigitChar(n % 10)]
  }

  /** Python's `str(i)`. */
  function IntToString(i: int): (r: string)
    ensures |r| > 0 && forall k :: 0 <= k < |r| ==> r[k] == '-' || IsDigit(r[k])
  {
    if i < 0 then "-" + NatToString(-i) else NatToString(i)
  }

  function DigitsValue(s: string): nat
    requires AllDigits(s)
  {
    if s == [] then 0 else DigitsValue(s[..|s| - 1]) * 10 + DigitValue(s[|s| - 1])
  }

  /**
   * Python's `int(s)` on a string: surrounding whitespace, an optional sign
   * and at least one decimal digit; anything else raises ValueError (`None`).
   */
  function ParseInt(s: string): Option<int> {
    var t := Strip(s);
    if |t| > 1 && (t[0] == '-' || t[0] == '+') && AllDigits(t[1..]) then
      var v: int := DigitsValue(t[1..]);
      Some(if t[0] == '-' then -v else v)
    else if |t| > 0 && AllDigits(t) then Some(DigitsValue(t))
    else None
  }

  lemma {:induction false} DigitsOfNat(n: nat)
    ensures DigitsValue(NatToString(n)) == n
    decreases n
  {
    if n >= 10 {
      var s := NatToString(n);
      assert s[..|s| - 1] == NatToString(n / 10);
      DigitsOfNat(n / 10);
    }
  }

  /** `int(str(i)) == i`: integer text round-trips. */
  lemma ParseIntToString(i: int)
    ensures ParseInt(IntToString(i)) == Some(i)
  {
    var s := IntToString(i);
    var n: nat := if i < 0 then -i else i;
    var d := NatToString(n);
    DigitsOfNat(n);
    assert IsDigit(d[0]) && IsDigit(d[|d| - 1]);
    if i < 0 {
      assert s == "-" + d;
      assert s[1..] == d;
      assert s[|s| - 1] == d[|d| - 1];
      StripFixed(s);
    } else {
      assert s == d;
      StripFixed(s);
      assert !(s[0] == '-' || s[0] == '+');
    }
  }

  /** Text with no digit at all is never a Python integer. */
  lemma ParseIntNeedsDigit(s: string)
    requires forall i :: 0 <= i < |s| ==> !IsDigit(s[i])
    ensures ParseInt(s) == None
  {
    var t := Strip(s);
    var a :| IsStripOf(s, t, a);
    if |t| > 0 {
      assert t[|t| - 1] == s[a + |t| - 1];
    }
  }

  /** Python's `sum` over a list of floats, added left to right. */
  function Sum(s: seq<real>): real {
    if s == [] then 0.0 else Sum(s[..|s| - 1]) + s[|s| - 1]
  }

  // ----- split -----

  /** Python's `s.split(sep)` for a one-character separator. */
  function Split(s: string, sep: char): (parts: seq<string>)
    ensures |parts| >= 1
    ensures forall k :: 0 <= k < |parts| ==> sep !in parts[k]
  {
    if s == [] then [""]
    else
      var rest := Split(s[1..], sep);
      if s[0] == sep then [""] + rest else [[s[0]] + rest[0]] + rest[1..]
  }

  /** Python's `sep.join(parts)`. */
  function Join(parts: seq<string>, sep: char): string
    requires |parts| >= 1
  {
    if |parts| == 1 then parts[0] else parts[0] + [sep] + Join(parts[1..], sep)
  }

  function CountChar(s: string, c: char): nat {
    if s == [] then 0 else (if s[0] == c then 1 else 0) + CountChar(s[1..], c)
  }

  /** Joining the parts of a split gives back the text, and there is one more part than separators. */
  lemma {:induction false} SplitJoin(s: string, sep: char)
    ensures Join(Split(s, sep), sep) == s
    ensures |Split(s, sep)| == CountChar(s, sep) + 1
  {
    if s != [] {
      SplitJoin(s[1..], sep);
      var rest := Split(s[1..], sep);
      if s[0] != sep {
        if |rest| > 1 {
          assert ([[s[0]] + rest[0]] + rest[1..])[1..] == rest[1..];
        }
      } else {
        assert ([""] + rest)[1..] == rest;
      }
    }
  }

  /** With no separator in `s`, the split is `s` alone. */
  lemma {:induction false} SplitNoSep(s: string, sep: char)
    requires sep !in s
    ensures Split(s, sep) == [s]
  {
    if s != [] {
      assert s[0] != sep && sep !in s[1..] by {
        assert s == [s[0]] + s[1..];
      }
      SplitNoSep(s[1..], sep);
    }
  }

  /** With exactly one separator at `i`, the split is the text before and the text after it. */
  lemma {:induction false} SplitOneSep(s: string, sep: char, i: nat)
    requires i < |s| && s[i] == sep && sep !in s[..i] && sep !in s[i + 1..]
    ensures Split(s, sep) == [s[..i], s[i + 1..]]
  {
    if i == 0 {
      SplitNoSep(s[1..], sep);
    } else {
      assert s[1..][..i - 1] == s[1..i];
      assert s[1..][i..] == s[i + 1..];
      SplitOneSep(s[1..], sep, i - 1);
      assert [s[0]] + s[1..i] == s[..i];
    }
  }
}
