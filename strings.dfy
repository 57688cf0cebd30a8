/**
 * The handful of Python string operations the release logic relies on:
 * `str.strip`, `str.lower`, `os.path.join`, `str.split('/')[1]`, `int(...)` on a
 * run of decimal digits and `f'{n}'` on a non-negative integer.
 */
module Strings {
  import opened Wrappers

  // ---------------------------------------------------------------------------
  // str.strip()
  // ---------------------------------------------------------------------------

  /** The characters for which Python's `str.isspace` holds. */
  predicate IsSpace(c: char) {
    || c == ' '
    || '\t' <= c <= '\r'
    || '\U{1c}' <= c <= '\U{1f}'
    || c == '\U{85}' || c == '\U{a0}' || c == '\U{1680}'
    || '\U{2000}' <= c <= '\U{200a}'
    || c == '\U{2028}' || c == '\U{2029}' || c == '\U{202f}' || c == '\U{205f}' || c == '\U{3000}'
  }

  predicate AllSpace(s: string) {
    forall k :: 0 <= k < |s| ==> IsSpace(s[k])
  }

  /** Neither end of `s` is whitespace (vacuously so for the empty string). */
  predicate Trimmed(s: string) {
    s == [] || (!IsSpace(s[0]) && !IsSpace(s[|s| - 1]))
  }

  /** The number of whitespace characters at the front of `s`. */
  function LeadingSpaces(s: string): (n: nat)
    ensures n <= |s|
    ensures forall k :: 0 <= k < n ==> IsSpace(s[k])
    ensures n < |s| ==> !IsSpace(s[n])
  {
    if s == [] || !IsSpace(s[0]) then 0 else 1 + LeadingSpaces(s[1..])
  }

  /** The number of whitespace characters at the end of `s`. */
  function TrailingSpaces(s: string): (n: nat)
    ensures n <= |s|
    ensures forall k :: |s| - n <= k < |s| ==> IsSpace(s[k])
    ensures n < |s| ==> !IsSpace(s[|s| - 1 - n])
  {
    if s == [] || !IsSpace(s[|s| - 1]) then 0 else 1 + TrailingSpaces(s[..|s| - 1])
  }

  /** Python's `s.strip()`: `s` without its leading and trailing whitespace. */
  function Strip(s: string): (r: string)
    ensures Trimmed(r)
    ensures r == [] <==> AllSpace(s)
    ensures |r| <= |s|
  {
    var i := LeadingSpaces(s);
    if i == |s| then []
    else
      var n := TrailingSpaces(s);
      assert !IsSpace(s[i]);
      s[i..|s| - n]
  }

  /** Stripping whitespace padding from around a trimmed core gives back exactly the core. */
  lemma StripPadded(p: string, t: string, q: string)
    requires AllSpace(p) && AllSpace(q) && Trimmed(t)
    ensures Strip(p + t + q) == t
  {
    var s := p + t + q;
    if t == [] {
      assert s == p + q;
      assert AllSpace(s) by {
        forall k | 0 <= k < |s| ensures IsSpace(s[k]) {
          if k < |p| { assert s[k] == p[k]; } else { assert s[k] == q[k - |p|]; }
        }
      }
    } else {
      var i := LeadingSpaces(s);
      assert s[|p|] == t[0];
      assert forall k :: 0 <= k < |p| ==> s[k] == p[k];
      assert i == |p|;
      var n := TrailingSpaces(s);
      assert s[|s| - 1 - |q|] == t[|t| - 1];
      assert forall k :: |s| - |q| <= k < |s| ==> s[k] == q[k - (|s| - |q|)];
      assert n == |q|;
      assert s[i..|s| - n] == t;
    }
  }

  /** Stripping twice is the same as stripping once. */
  lemma StripIdempotent(s: string)
    ensures Strip(Strip(s)) == Strip(s)
  {
    StripPadded([], Strip(s), []);
    assert [] + Strip(s) + [] == Strip(s);
  }

  // ---------------------------------------------------------------------------
  // str.lower() and os.path.join
  // ---------------------------------------------------------------------------

  /** `c.lower()` for ASCII letters; other characters are left alone. */
  function LowerChar(c: char): char {
    if 'A' <= c <= 'Z' then (c as int + 32) as char else c
  }

  function Lower(s: string): (r: string)
    ensures |r| == |s|
    ensures forall k :: 0 <= k < |s| ==> r[k] == LowerChar(s[k])
  {
    if s == [] then [] else [LowerChar(s[0])] + Lower(s[1..])
  }

  /**
   * `os.path.join(a, b)` on POSIX: an absolute `b` replaces `a`; otherwise a single
   * '/' is put between the two unless `a` is empty or already ends in '/'.
   */
  function Join(a: string, b: string): (r: string)
    ensures |b| > 0 && b[0] == '/' ==> r == b
    ensures (|b| == 0 || b[0] != '/') ==> |r| >= |a| + |b| && r[..|a|] == a && r[|r| - |b|..] == b
  {
    if |b| > 0 && b[0] == '/' then b
    else if a == [] || a[|a| - 1] == '/' then a + b
    else a + "/" + b
  }

  // ---------------------------------------------------------------------------
  // str.split('/')[1]
  // ---------------------------------------------------------------------------

  /** The index of the first `c` in `s`, if any. */
  function IndexOf(s: string, c: char): (r: Option<nat>)
    ensures r.None? <==> c !in s
    ensures r.Some? ==> r.value < |s| && s[r.value] == c && c !in s[..r.value]
  {
    if s == [] then None
    else if s[0] == c then Some(0)
    else match IndexOf(s[1..], c)
      case None => None
      case Some(i) => assert s[..i + 1] == [s[0]] + s[1..][..i]; Some(i + 1)
  }

  /** Python's `s.split(sep)[1]`; `None` where Python raises `IndexError` (no `sep` in `s`). */
  function SplitField1(s: string, sep: char): (r: Option<string>)
    ensures r.None? <==> sep !in s
    ensures r.Some? ==> sep !in r.value
  {
    match IndexOf(s, sep)
    case None => None
    case Some(i) =>
      var rest := s[i + 1..];
      match IndexOf(rest, sep)
      case None => Some(rest)
      case Some(j) => Some(rest[..j])
  }

  /** The first `c` after a `c`-free prefix is found right after that prefix. */
  lemma {:induction false} IndexOfAfter(a: string, c: char, b: string)
    requires c !in a
    ensures IndexOf(a + [c] + b, c) == Some(|a|)
  {
    if a != [] {
      assert (a + [c] + b)[1..] == a[1..] + [c] + b;
      IndexOfAfter(a[1..], c, b);
    }
  }

  /** Splitting "owner/repo" (and anything after a further '/') on '/' gives the repository name. */
  lemma SplitOwnerRepo(owner: string, repo: string, tail: string)
    requires '/' !in owner && '/' !in repo
    requires tail == [] || tail[0] == '/'
    ensures SplitField1(owner + "/" + repo + tail, '/') == Some(repo)
  {
    var s := owner + "/" + repo + tail;
    assert s == owner + ['/'] + (repo + tail);
    IndexOfAfter(owner, '/', repo + tail);
    var rest := s[|owner| + 1..];
    assert rest == repo + tail;
    if tail == [] {
      assert rest == repo;
    } else {
      assert rest == repo + ['/'] + tail[1..];
      IndexOfAfter(repo, '/', tail[1..]);
      assert rest[..|repo|] == repo;
    }
  }

  // ---------------------------------------------------------------------------
  // Decimal numerals: int(digits) and f'{n}'
  // ---------------------------------------------------------------------------

  /** The ASCII digits; the model reads `\d` and `int()` as ASCII-only. */
  predicate IsDigit(c: char) {
    '0' <= c <= '9'
  }

  predicate AllDigits(s: string) {
    forall k :: 0 <= k < |s| ==> IsDigit(s[k])
  }

  function DigitChar(d: nat): (c: char)
    requires d < 10
    ensures IsDigit(c)
  {
    ('0' as int + d) as char
  }

  function DigitValue(c: char): (d: nat)
    requires IsDigit(c)
    ensures d < 10
  {
    c as int - '0' as int
  }

  /** `f'{n}'`: the decimal numeral of `n`, without leading zeros. */
  function NatToString(n: nat): (s: string)
    ensures |s| >= 1 && AllDigits(s)
    ensures |s| > 1 ==> s[0] != '0'
    decreases n
  {
    if n < 10 then [DigitChar(n)] else NatToString(n / 10) + [DigitChar(n % 10)]
  }

  /** `int(s)` for a non-empty run of decimal digits (leading zeros allowed). */
  function ParseDigits(s: string): nat
    requires AllDigits(s)
  {
    if s == [] then 0 else 10 * ParseDigits(s[..|s| - 1]) + DigitValue(s[|s| - 1])
  }

  /** Printing a number and reading it back gives the same number. */
  lemma {:induction false} ParseNatToString(n: nat)
    ensures ParseDigits(NatToString(n)) == n
    decreases n
  {
    if n >= 10 {
      var s := NatToString(n);
      assert s[..|s| - 1] == NatToString(n / 10);
      ParseNatToString(n / 10);
    }
  }

  /** The length of the longest run of digits that starts `s` (what a greedy `\d+` consumes). */
  function DigitRun(s: string): (k: nat)
    ensures k <= |s|
    ensures AllDigits(s[..k])
    ensures k < |s| ==> !IsDigit(s[k])
  {
    if s == [] || !IsDigit(s[0]) then 0
    else
      var k := 1 + DigitRun(s[1..]);
      assert s[..k] == [s[0]] + s[1..][..k - 1];
      k
  }

  /** A greedy `\d+` over a digit run followed by a non-digit stops exactly at the end of the run. */
  lemma {:induction false} DigitRunOfRun(d: string, rest: string)
    requires AllDigits(d)
    requires rest == [] || !IsDigit(rest[0])
    ensures DigitRun(d + rest) == |d|
    ensures (d + rest)[..|d|] == d && (d + rest)[|d|..] == rest
    decreases |d|
  {
    var s := d + rest;
    if d == [] {
      assert s == rest;
    } else {
      assert s[0] == d[0];
      assert s[1..] == d[1..] + rest;
      DigitRunOfRun(d[1..], rest);
    }
  }


}
