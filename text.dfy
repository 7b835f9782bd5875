/**
 * Python's rendering of an `int` (`str(n)`, `f'{n}'`, `f'{n:d}'`) and a
 * scanner that reads such a rendering back.  Both the likwid option strings
 * and the CI notifier's count line embed integers this way; the scanner is
 * what lets the other modules state that the numbers can be recovered from
 * the text they build.
 */
module Text {
  import opened Wrappers

  predicate IsDigit(c: char) { '0' <= c <= '9' }

  predicate AllDigits(s: string) { forall i :: 0 <= i < |s| ==> IsDigit(s[i]) }

  function DigitChar(d: nat): (c: char)
    requires d < 10
    ensures IsDigit(c) && c as int - '0' as int == d
  {
    (d + '0' as int) as char
  }

  /** Decimal digits of `n`, most significant first, without leading zeros. */
  function Decimal(n: nat): (s: string)
    ensures |s| > 0 && AllDigits(s)
    ensures s[0] == '0' ==> n == 0
    decreases n
  {
    if n < 10 then [DigitChar(n)] else Decimal(n / 10) + [DigitChar(n % 10)]
  }

  /** Python's `str(i)` for an integer: a minus sign, then the digits of |i|. */
  function IntText(i: int): string {
    if i < 0 then "-" + Decimal(-i) else Decimal(i)
  }

  /** The number a string of decimal digits denotes. */
  function DigitsValue(s: string): nat
    requires AllDigits(s)
  {
    if s == [] then 0
    else DigitsValue(s[..|s| - 1]) * 10 + (s[|s| - 1] as int - '0' as int)
  }

  lemma {:induction false} DecimalValue(n: nat)
    ensures DigitsValue(Decimal(n)) == n
    decreases n
  {
    if n >= 10 {
      DecimalValue(n / 10);
      var s := Decimal(n);
      assert s[..|s| - 1] == Decimal(n / 10);
    }
  }

  /** Length of the longest all-digit prefix of `s`. */
  function LeadingDigits(s: string): (k: nat)
    ensures k <= |s| && AllDigits(s[..k])
    ensures k == |s| || !IsDigit(s[k])
  {
    if s == [] || !IsDigit(s[0]) then 0
    else
      var k := 1 + LeadingDigits(s[1..]);
      assert s[..k] == [s[0]] + s[1..][..k - 1];
      k
  }

  lemma {:induction false} LeadingDigitsOf(d: string, rest: string)
    requires AllDigits(d)
    requires rest == [] || !IsDigit(rest[0])
    ensures LeadingDigits(d + rest) == |d|
  {
    if d != [] {
      assert (d + rest)[1..] == d[1..] + rest;
      LeadingDigitsOf(d[1..], rest);
    }
  }

  /** `s` with the literal prefix `lit` removed, if `s` starts with it. */
  function DropPrefix(lit: string, s: string): (r: Option<string>)
    ensures r.Some? <==> |lit| <= |s| && s[..|lit|] == lit
    ensures r.Some? ==> s == lit + r.value
  {
    if |lit| <= |s| && s[..|lit|] == lit then Some(s[|lit|..]) else None
  }

  lemma DropPrefixOf(lit: string, rest: string)
    ensures DropPrefix(lit, lit + rest) == Some(rest)
  {
    assert (lit + rest)[..|lit|] == lit;
    assert (lit + rest)[|lit|..] == rest;
  }

  /** Reads at least one digit from the front of `s`; returns the value and what follows. */
  function ScanNat(s: string): Option<(nat, string)> {
    var k := LeadingDigits(s);
    if k == 0 then None else Some((DigitsValue(s[..k]), s[k..]))
  }

  /**
   * Reads an optional minus sign and at least one digit from the front of
   * `s`; returns the integer and what follows it.
   */
  function ScanInt(s: string): Option<(int, string)> {
    if |s| > 0 && s[0] == '-' then
      match ScanNat(s[1..])
      case None => None
      case Some(p) => Some((-(p.0 as int), p.1))
    else
      match ScanNat(s)
      case None => None
      case Some(p) => Some((p.0 as int, p.1))
  }

  /** Scanning a rendered integer gives the integer back and leaves what followed it. */
  lemma {:induction false} ScanIntText(i: int, rest: string)
    requires rest == [] || !IsDigit(rest[0])
    ensures ScanInt(IntText(i) + rest) == Some((i, rest))
  {
    var n: nat := if i < 0 then -i else i;
    var t := Decimal(n) + rest;
    ScanDigits(Decimal(n), rest);
    DecimalValue(n);
    if i < 0 {
      assert IntText(i) + rest == "-" + t;
      ScanSigned(t, n, rest);
    } else {
      assert IntText(i) + rest == t;
      assert IsDigit(t[0]);
      ScanUnsigned(t, n, rest);
    }
  }

  lemma ScanSigned(t: string, n: nat, rest: string)
    requires ScanNat(t) == Some((n, rest))
    ensures ScanInt("-" + t) == Some((-(n as int), rest))
  {
    assert ("-" + t)[1..] == t;
  }

  lemma ScanUnsigned(t: string, n: nat, rest: string)
    requires ScanNat(t) == Some((n, rest)) && |t| > 0 && t[0] != '-'
    ensures ScanInt(t) == Some((n as int, rest))
  {
  }

  lemma ScanDigits(d: string, rest: string)
    requires |d| > 0 && AllDigits(d)
    requires rest == [] || !IsDigit(rest[0])
    ensures ScanNat(d + rest) == Some((DigitsValue(d), rest))
  {
    LeadingDigitsOf(d, rest);
    assert (d + rest)[..|d|] == d;
    assert (d + rest)[|d|..] == rest;
  }

  /** Splits `s` at the first `sep`: the part before it and the part after it. */
  function SplitAt(sep: char, s: string): (r: Option<(string, string)>)
    ensures r.Some? ==> sep !in r.value.0 && s == r.value.0 + [sep] + r.value.1
    ensures r.None? <==> sep !in s
  {
    if s == [] then None
    else if s[0] == sep then Some(([], s[1..]))
    else match SplitAt(sep, s[1..])
      case None => None
      case Some(p) => Some(([s[0]] + p.0, p.1))
  }

  lemma {:induction false} SplitAtOf(sep: char, a: string, b: string)
    requires sep !in a
    ensures SplitAt(sep, a + [sep] + b) == Some((a, b))
  {
    if a == [] {
      assert a + [sep] + b == [sep] + b;
    } else {
      assert (a + [sep] + b)[1..] == a[1..] + [sep] + b;
      SplitAtOf(sep, a[1..], b);
      assert [a[0]] + a[1..] == a;
    }
  }

  lemma Decimal18()
    ensures IntText(18) == "18"
  {
  }
}
