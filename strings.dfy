/** Python string operations the service relies on, with Python's semantics:
    `sub in s`, `s.replace(old, new)`, `str(n)`, `int(s)`, `s.split(sep)`,
    `s.split(sep, 1)[1]`, `sep.join(parts)` and `s.strip(c)`. */
module Strings {
  import opened Base

  // ---------------------------------------------------------------- substrings

  /** `p` occurs in `s` starting at index `i`. */
  predicate OccursAt(s: string, p: string, i: nat) {
    i + |p| <= |s| && s[i..i + |p|] == p
  }

  /** Python's `p in s`. */
  predicate Contains(s: string, p: string) {
    exists i: nat :: i <= |s| && OccursAt(s, p, i)
  }

  /** Python's `s.replace(p, r)` for a non-empty `p`: occurrences are found from the left
      and do not overlap; the text produced by the replacement is not searched again. */
  function Replace(s: string, p: string, r: string): string
    requires |p| > 0
    decreases |s|
  {
    if |s| < |p| then s
    else if s[..|p|] == p then r + Replace(s[|p|..], p, r)
    else [s[0]] + Replace(s[1..], p, r)
  }

  lemma OccursAtShift(c: char, s: string, p: string, i: nat)
    ensures OccursAt([c] + s, p, i + 1) <==> OccursAt(s, p, i)
  {
    if i + |p| <= |s| {
      assert ([c] + s)[i + 1..i + 1 + |p|] == s[i..i + |p|];
    }
  }

  /** Replacing a pattern that does not occur changes nothing. */
  lemma {:induction false} ReplaceAbsent(s: string, p: string, r: string)
    requires |p| > 0
    requires !Contains(s, p)
    ensures Replace(s, p, r) == s
    decreases |s|
  {
    if |s| >= |p| {
      assert !OccursAt(s, p, 0);
      assert s[..|p|] != p;
      assert s == [s[0]] + s[1..];
      forall i: nat | i <= |s[1..]| ensures !OccursAt(s[1..], p, i) {
        OccursAtShift(s[0], s[1..], p, i);
      }
      ReplaceAbsent(s[1..], p, r);
    }
  }

  /** A text none of whose characters appears in `p` cannot contain `p`. */
  lemma DisjointNotContains(b: string, p: string)
    requires |p| > 0
    requires forall j :: 0 <= j < |b| ==> b[j] !in p
    ensures !Contains(b, p)
  {
    forall i: nat | i <= |b| ensures !OccursAt(b, p, i) {
      if i + |p| <= |b| {
        assert b[i..i + |p|][0] == b[i] && b[i] !in p && p[0] in p;
      }
    }
  }

  /** An occurrence at the start of `a + b` lies inside `a` when `b` is disjoint from `p`. */
  lemma NoStraddle(a: string, b: string, p: string)
    requires |p| > 0 && |b| > 0 && |a + b| >= |p|
    requires forall j :: 0 <= j < |b| ==> b[j] !in p
    requires (a + b)[..|p|] == p
    ensures |a| >= |p|
  {
    var s := a + b;
    assert s[|a|] == b[0] && b[0] !in p;
    assert forall k :: 0 <= k < |p| ==> s[k] == p[k] && p[k] in p;
  }

  /** Replacing over `a + b` touches only `a` when no character of `b` belongs to the
      pattern: no occurrence lies in `b` or straddles the boundary. */
  lemma {:induction false} ReplaceAppendDisjoint(a: string, b: string, p: string, r: string)
    requires |p| > 0
    requires forall j :: 0 <= j < |b| ==> b[j] !in p
    ensures Replace(a + b, p, r) == Replace(a, p, r) + b
    decreases |a|
  {
    var s := a + b;
    if b == [] {
      assert s == a;
    } else if a == [] {
      assert s == b;
      DisjointNotContains(b, p);
      ReplaceAbsent(b, p, r);
    } else if |s| < |p| {
    } else if s[..|p|] == p {
      NoStraddle(a, b, p);
      assert a[..|p|] == p;
      assert s[|p|..] == a[|p|..] + b;
      ReplaceAppendDisjoint(a[|p|..], b, p, r);
    } else {
      assert s[1..] == a[1..] + b;
      ReplaceAppendDisjoint(a[1..], b, p, r);
      if |a| >= |p| {
        assert a[..|p|] == s[..|p|];
      } else {
        assert a == [a[0]] + a[1..];
      }
    }
  }

  // ---------------------------------------------------------------- decimal numbers

  predicate IsDigit(c: char) { '0' <= c <= '9' }

  predicate AllDigits(s: string) { forall i :: 0 <= i < |s| ==> IsDigit(s[i]) }

  function DigitChar(d: nat): (c: char)
    requires d < 10
    ensures IsDigit(c) && c as int - '0' as int == d
  {
    (('0' as int) + d) as char
  }

  /** Python's `str(n)` for a natural number. */
  function Decimal(n: nat): string
    decreases n
  {
    if n < 10 then [DigitChar(n)] else Decimal(n / 10) + [DigitChar(n % 10)]
  }

  /** The value of a string of decimal digits. */
  function DigitsValue(s: string): nat
    requires AllDigits(s)
    decreases |s|
  {
    if s == [] then 0 else DigitsValue(s[..|s| - 1]) * 10 + (s[|s| - 1] as int - '0' as int)
  }

  /** A canonical decimal numeral: at least one digit and no leading zero. */
  predicate Canonical(s: string) {
    |s| > 0 && AllDigits(s) && (s[0] == '0' ==> |s| == 1)
  }

  /** `str(n)` is canonical, reads back as `n`, and has three digits at most below 1000. */
  lemma {:induction false} DecimalValue(n: nat)
    ensures Canonical(Decimal(n)) && DigitsValue(Decimal(n)) == n
    ensures n < 10 <==> |Decimal(n)| == 1
    ensures n < 1000 ==> |Decimal(n)| <= 3
    decreases n
  {
    if n >= 10 {
      DecimalValue(n / 10);
      var s := Decimal(n);
      assert s[..|s| - 1] == Decimal(n / 10);
    }
  }

  /** Every canonical numeral is `str` of its value. */
  lemma {:induction false} CanonicalIsDecimal(s: string)
    requires Canonical(s)
    ensures Decimal(DigitsValue(s)) == s
    decreases |s|
  {
    if |s| > 1 {
      var init := s[..|s| - 1];
      assert Canonical(init);
      CanonicalIsDecimal(init);
      var v := DigitsValue(init);
      var d := s[|s| - 1] as int - '0' as int;
      assert DigitsValue(s) == v * 10 + d;
      assert DigitsValue(s) / 10 == v && DigitsValue(s) % 10 == d;
      assert s == init + [s[|s| - 1]];
    }
  }

  /** `str` is injective on natural numbers. */
  lemma DecimalInjective(m: nat, n: nat)
    requires Decimal(m) == Decimal(n)
    ensures m == n
  {
    DecimalValue(m);
    DecimalValue(n);
  }

  /** Python's `int(s)` on a text made of an optional sign and decimal digits.
      Surrounding whitespace and `_` separators, which Python also admits, are not modelled. */
  function ParseInt(s: string): Option<int> {
    if |s| > 0 && (s[0] == '-' || s[0] == '+') then
      var body := s[1..];
      if |body| > 0 && AllDigits(body) then
        Some(if s[0] == '-' then -(DigitsValue(body) as int) else DigitsValue(body) as int)
      else None
    else if |s| > 0 && AllDigits(s) then Some(DigitsValue(s) as int)
    else None
  }

  /** `int(str(n)) == n`. */
  lemma ParseIntDecimal(n: nat)
    ensures ParseInt(Decimal(n)) == Some(n as int)
  {
    DecimalValue(n);
    assert IsDigit(Decimal(n)[0]);
  }

  // ---------------------------------------------------------------- split and join

  /** The index of the first `c` in `s`. */
  function IndexOf(s: string, c: char): (i: nat)
    requires c in s
    ensures i < |s| && s[i] == c && c !in s[..i]
  {
    if s[0] == c then 0 else 1 + IndexOf(s[1..], c)
  }

  /** Python's `s.split(c)` for a one-character separator: always at least one piece. */
  function Split(s: string, c: char): (r: seq<string>)
    ensures |r| > 0
    decreases |s|
  {
    if c !in s then [s]
    else
      var i := IndexOf(s, c);
      [s[..i]] + Split(s[i + 1..], c)
  }

  /** Python's `c.join(parts)`. */
  function Join(parts: seq<string>, c: char): string
    decreases |parts|
  {
    if parts == [] then ""
    else if |parts| == 1 then parts[0]
    else parts[0] + [c] + Join(parts[1..], c)
  }

  /** Joining the pieces of a split gives the text back. */
  lemma {:induction false} JoinSplit(s: string, c: char)
    ensures Join(Split(s, c), c) == s
    decreases |s|
  {
    if c in s {
      var i := IndexOf(s, c);
      JoinSplit(s[i + 1..], c);
      assert s == s[..i] + [c] + s[i + 1..];
    }
  }

  /** No piece of a split contains the separator. */
  lemma {:induction false} SplitPiecesFree(s: string, c: char)
    ensures forall k :: 0 <= k < |Split(s, c)| ==> c !in Split(s, c)[k]
    decreases |s|
  {
    if c in s {
      var i := IndexOf(s, c);
      SplitPiecesFree(s[i + 1..], c);
    }
  }

  /** The first `c` in `x + [c] + y` is the one after `x` when `x` has none. */
  lemma {:induction false} IndexOfAfter(x: string, y: string, c: char)
    requires c !in x
    ensures c in x + [c] + y && IndexOf(x + [c] + y, c) == |x|
    decreases |x|
  {
    var s := x + [c] + y;
    assert s[|x|] == c;
    if x != [] {
      assert s[1..] == x[1..] + [c] + y;
      IndexOfAfter(x[1..], y, c);
    }
  }

  /** Splitting a join of separator-free pieces gives the pieces back. */
  lemma {:induction false} SplitJoin(parts: seq<string>, c: char)
    requires |parts| > 0
    requires forall k :: 0 <= k < |parts| ==> c !in parts[k]
    ensures Split(Join(parts, c), c) == parts
    decreases |parts|
  {
    if |parts| > 1 {
      var s := Join(parts, c);
      var head := parts[0];
      assert s == head + [c] + Join(parts[1..], c);
      IndexOfAfter(head, Join(parts[1..], c), c);
      assert s[..|head|] == head;
      assert s[|head| + 1..] == Join(parts[1..], c);
      SplitJoin(parts[1..], c);
    } else {
      assert Join(parts, c) == parts[0];
    }
  }

  /** Python's `s.split(c, 1)[1]`: the text after the first `c`; an `IndexError` when
      `c` does not occur. */
  function AfterFirst(s: string, c: char): (r: Result<string>)
    ensures r.Err? <==> c !in s
    ensures r.Err? ==> r.error == Uncaught(IndexError)
    ensures r.Ok? ==> exists i :: 0 <= i < |s| && s[i] == c && c !in s[..i] && r.value == s[i + 1..]
  {
    if c in s then Ok(s[IndexOf(s, c) + 1..]) else Err(Uncaught(IndexError))
  }

  // ---------------------------------------------------------------- strip

  /** The number of leading `c` in `s`. */
  function LeadingCount(s: string, c: char): (n: nat)
    ensures n <= |s| && (forall k :: 0 <= k < n ==> s[k] == c) && (n < |s| ==> s[n] != c)
    decreases |s|
  {
    if |s| > 0 && s[0] == c then 1 + LeadingCount(s[1..], c) else 0
  }

  /** The number of trailing `c` in `s`. */
  function TrailingCount(s: string, c: char): (n: nat)
    ensures n <= |s| && (forall k :: |s| - n <= k < |s| ==> s[k] == c) && (n < |s| ==> s[|s| - 1 - n] != c)
    decreases |s|
  {
    if |s| > 0 && s[|s| - 1] == c then 1 + TrailingCount(s[..|s| - 1], c) else 0
  }

  /** Python's `s.strip(c)` for one character: the longest middle part of `s` that neither
      starts nor ends with `c`, everything removed around it being `c`. */
  function Strip(s: string, c: char): (r: string)
    ensures |r| > 0 ==> r[0] != c && r[|r| - 1] != c
    ensures exists i, j :: 0 <= i <= j <= |s| && r == s[i..j]
              && (forall k :: 0 <= k < i ==> s[k] == c)
              && (forall k :: j <= k < |s| ==> s[k] == c)
  {
    var i := LeadingCount(s, c);
    var t := s[i..];
    var n := TrailingCount(t, c);
    assert forall k :: |s| - n <= k < |s| ==> s[k] == t[k - i];
    s[i..|s| - n]
  }
}
