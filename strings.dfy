/**
  The few Python string operations the reply pipeline relies on, over `string` (a sequence of
  Unicode scalar values): substring test (`t in s`), `sep.join(xs)`, `s.split(c)` for a
  one-character separator, `s.strip()` and `str(n)` for integers.
 */
module Strings {

  /** Python's `t in s` on strings: `t` occurs as a contiguous substring of `s`. */
  predicate Contains(s: string, t: string)
  {
    exists i: nat | i <= |s| :: OccursAt(s, t, i)
  }

  /** `t` occurs in `s` starting at index `i`. */
  predicate OccursAt(s: string, t: string, i: nat)
  {
    i + |t| <= |s| && s[i..i + |t|] == t
  }

  lemma ContainsAt(s: string, t: string, i: nat)
    requires OccursAt(s, t, i)
    ensures Contains(s, t)
  {
  }

  /** An occurrence of `t` in `p + d` can start inside `p` only at a character of `p` that equals `t[0]`. */
  lemma {:induction false} ContainsAfterPrefix(p: string, d: string, t: string)
    requires |t| > 0 && t[0] !in p
    ensures Contains(p + d, t) <==> Contains(d, t)
  {
    var s := p + d;
    if Contains(s, t) {
      var i: nat :| i <= |s| && OccursAt(s, t, i);
      assert i + |t| <= |s| && s[i..i + |t|] == t;
      assert s[i] == t[0];
      assert i >= |p|;
      assert d[i - |p|..i - |p| + |t|] == s[i..i + |t|];
      ContainsAt(d, t, i - |p|);
    }
    if Contains(d, t) {
      var j: nat :| j <= |d| && OccursAt(d, t, j);
      assert j + |t| <= |d| && d[j..j + |t|] == t;
      assert s[|p| + j..|p| + j + |t|] == d[j..j + |t|];
      ContainsAt(s, t, |p| + j);
    }
  }

  /** A substring of `t` is a substring of any text that embeds `t`. */
  lemma ContainsInMiddle(a: string, t: string, b: string, x: string)
    requires Contains(t, x)
    ensures Contains(a + t + b, x)
  {
    var i: nat :| i <= |t| && OccursAt(t, x, i);
    assert i + |x| <= |t| && t[i..i + |x|] == x;
    assert (a + t + b)[|a| + i..|a| + i + |x|] == t[i..i + |x|];
    ContainsAt(a + t + b, x, |a| + i);
  }

  /** `sep.join(xs)`: the items in order, with `sep` between neighbours. */
  function Join(xs: seq<string>, sep: string): string
  {
    if |xs| == 0 then ""
    else if |xs| == 1 then xs[0]
    else xs[0] + sep + Join(xs[1..], sep)
  }

  /** Every item occurs in the joined text. */
  lemma {:induction false} JoinContainsItem(xs: seq<string>, sep: string, k: nat)
    requires k < |xs|
    ensures Contains(Join(xs, sep), xs[k])
  {
    if |xs| == 1 || k == 0 {
      var j := Join(xs, sep);
      assert j[..|xs[0]|] == xs[0];
      ContainsAt(j, xs[0], 0);
    } else {
      JoinContainsItem(xs[1..], sep, k - 1);
      ContainsInMiddle(xs[0] + sep, Join(xs[1..], sep), "", xs[k]);
      assert xs[0] + sep + Join(xs[1..], sep) + "" == Join(xs, sep);
    }
  }

  /** Joining loses the difference between no items and one empty item. */
  lemma JoinEmptyIsJoinOfEmptyItem(sep: string)
    ensures Join([], sep) == Join([""], sep) == ""
  {
  }

  /** Index of the first occurrence of `c` in `s`. */
  function IndexOf(s: string, c: char): (i: nat)
    requires c in s
    ensures i < |s| && s[i] == c && c !in s[..i]
  {
    if s[0] == c then 0 else 1 + IndexOf(s[1..], c)
  }

  /** Python's `s.split(c)` for a one-character separator: always at least one field. */
  function Split(s: string, c: char): (fields: seq<string>)
    ensures |fields| >= 1
    ensures forall k :: 0 <= k < |fields| ==> c !in fields[k]
    decreases |s|
  {
    if c !in s then [s]
    else
      var i := IndexOf(s, c);
      [s[..i]] + Split(s[i + 1..], c)
  }

  /** Splitting a string and joining the fields back with the same separator gives the string. */
  lemma {:induction false} JoinSplit(s: string, c: char)
    ensures Join(Split(s, c), [c]) == s
    decreases |s|
  {
    if c in s {
      var i := IndexOf(s, c);
      var rest := Split(s[i + 1..], c);
      JoinSplit(s[i + 1..], c);
      assert Split(s, c) == [s[..i]] + rest;
      assert ([s[..i]] + rest)[1..] == rest;
      calc {
        Join(Split(s, c), [c]);
        s[..i] + [c] + Join(rest, [c]);
        s[..i] + [c] + s[i + 1..];
        s;
      }
    }
  }

  /** The first separator of `a + [c] + b` is the one after `a` when `a` holds none. */
  lemma {:induction false} IndexOfAfter(a: string, c: char, b: string)
    requires c !in a
    ensures IndexOf(a + [c] + b, c) == |a|
  {
    if a != [] {
      assert (a + [c] + b)[0] == a[0];
      assert (a + [c] + b)[1..] == a[1..] + [c] + b;
      IndexOfAfter(a[1..], c, b);
    }
  }

  /** A separator that the two leading parts do not hold splits equal strings in equal places. */
  lemma SplitAtSeparator(a1: string, b1: string, a2: string, b2: string, c: char)
    requires c !in a1 && c !in a2
    requires a1 + [c] + b1 == a2 + [c] + b2
    ensures a1 == a2 && b1 == b2
  {
    IndexOfAfter(a1, c, b1);
    IndexOfAfter(a2, c, b2);
    var s := a1 + [c] + b1;
    assert a1 == s[..|a1|] && b1 == s[|a1| + 1..];
    assert a2 == s[..|a2|] && b2 == s[|a2| + 1..];
  }

  /** Joining a non-empty list of separator-free items and splitting again gives the list back. */
  lemma {:induction false} SplitJoin(xs: seq<string>, c: char)
    requires |xs| > 0
    requires forall k :: 0 <= k < |xs| ==> c !in xs[k]
    ensures Split(Join(xs, [c]), c) == xs
  {
    if |xs| > 1 {
      var x, rest := xs[0], Join(xs[1..], [c]);
      var s := x + [c] + rest;
      assert Join(xs, [c]) == s;
      IndexOfAfter(x, c, rest);
      assert s[..|x|] == x;
      assert s[|x| + 1..] == rest;
      SplitJoin(xs[1..], c);
      assert Split(s, c) == [x] + xs[1..];
    }
  }

  /** Python's `str.isspace()` for one character. */
  predicate IsSpace(c: char)
  {
    c in {'\t', '\n', '\U{0B}', '\U{0C}', '\r', '\U{1C}', '\U{1D}', '\U{1E}', '\U{1F}', ' ',
          '\U{85}', '\U{A0}', '\U{1680}', '\U{2000}', '\U{2001}', '\U{2002}', '\U{2003}',
          '\U{2004}', '\U{2005}', '\U{2006}', '\U{2007}', '\U{2008}', '\U{2009}', '\U{200A}',
          '\U{2028}', '\U{2029}', '\U{202F}', '\U{205F}', '\U{3000}'}
  }

  predicate AllSpace(s: string)
  {
    forall k :: 0 <= k < |s| ==> IsSpace(s[k])
  }

  /** Length of the run of whitespace at the front of `s`. */
  function LeadingSpaceCount(s: string): (n: nat)
    ensures n <= |s| && AllSpace(s[..n])
    ensures n < |s| ==> !IsSpace(s[n])
  {
    if |s| > 0 && IsSpace(s[0]) then
      assert forall k :: 1 <= k < 1 + LeadingSpaceCount(s[1..]) ==> s[k] == s[1..][k - 1];
      1 + LeadingSpaceCount(s[1..])
    else 0
  }

  /** Where the run of whitespace at the back of `s` begins. */
  function ContentEnd(s: string): (n: nat)
    ensures n <= |s| && AllSpace(s[n..])
    ensures n > 0 ==> !IsSpace(s[n - 1])
  {
    if |s| > 0 && IsSpace(s[|s| - 1]) then
      var n := ContentEnd(s[..|s| - 1]);
      assert forall k :: n <= k < |s| - 1 ==> s[k] == s[..|s| - 1][k];
      n
    else |s|
  }

  /** Python's `s.strip()`: `s` without its leading and trailing whitespace. */
  function Strip(s: string): (r: string)
    ensures |r| <= |s|
    ensures r != [] ==> !IsSpace(r[0]) && !IsSpace(r[|r| - 1])
    ensures exists i :: 0 <= i <= |s| - |r| && s[i..i + |r|] == r && AllSpace(s[..i]) && AllSpace(s[i + |r|..])
  {
    var i := LeadingSpaceCount(s);
    var rest := s[i..];
    var r := rest[..ContentEnd(rest)];
    assert s[i..i + |r|] == r;
    assert s[i + |r|..] == rest[ContentEnd(rest)..];
    r
  }

  /**
    The result of `Strip` is determined by its promise: whatever text without whitespace at its
    ends sits between two whitespace-only runs is what `Strip` returns.
   */
  lemma StripUnique(a: string, r: string, b: string)
    requires AllSpace(a) && AllSpace(b)
    requires r != [] ==> !IsSpace(r[0]) && !IsSpace(r[|r| - 1])
    ensures Strip(a + r + b) == r
  {
    var s := a + r + b;
    var i := LeadingSpaceCount(s);
    if r == [] {
      assert AllSpace(s);
      assert i == |s|;
    } else {
      assert s[|a|] == r[0];
      assert i == |a|;
      var rest := s[i..];
      assert rest == r + b;
      var n := ContentEnd(rest);
      assert rest[|r| - 1] == r[|r| - 1];
      assert n == |r|;
    }
  }

  lemma StripIdempotent(s: string)
    ensures Strip(Strip(s)) == Strip(s)
  {
    var r := Strip(s);
    assert r == "" + r + "";
    StripUnique("", r, "");
  }

  function DigitChar(d: nat): (c: char)
    requires d < 10
    ensures '0' <= c <= '9'
  {
    (48 + d) as char
  }

  /** Python's `str(n)` for a natural number: its decimal digits, most significant first. */
  function NatToString(n: nat): (s: string)
    ensures |s| >= 1
    ensures forall k :: 0 <= k < |s| ==> '0' <= s[k] <= '9'
  {
    if n < 10 then [DigitChar(n)] else NatToString(n / 10) + [DigitChar(n % 10)]
  }

  /** Different numbers have different decimal renderings. */
  lemma {:induction false} NatToStringInjective(m: nat, n: nat)
    requires NatToString(m) == NatToString(n)
    ensures m == n
  {
    if m >= 10 && n >= 10 {
      var sm, sn := NatToString(m), NatToString(n);
      assert sm[|sm| - 1] == DigitChar(m % 10) && sn[|sn| - 1] == DigitChar(n % 10);
      assert sm[..|sm| - 1] == NatToString(m / 10);
      assert sn[..|sn| - 1] == NatToString(n / 10);
      NatToStringInjective(m / 10, n / 10);
    }
  }

  /** Python's `str(i)` for an integer. */
  function IntToString(i: int): string
  {
    if i < 0 then "-" + NatToString(-i) else NatToString(i)
  }
}
