/**
 * Decimal integers as the C library reads them: `atoi` for
 * `--max-row-group-length`, and the `%d` conversions of `sscanf` for the
 * `decimal(a,b)` schema type. Both skip leading white space, accept one
 * optional sign and then the longest run of decimal digits.
 */
module Numeric {
  import opened Wrappers

  /** `isspace` in the "C" locale. */
  predicate IsSpace(c: char) {
    c == ' ' || c == '\t' || c == '\n' || c == '\U{000B}' || c == '\U{000C}' || c == '\r'
  }

  predicate IsDigit(c: char) {
    '0' <= c <= '9'
  }

  predicate AllDigits(s: string) {
    forall k :: 0 <= k < |s| ==> IsDigit(s[k])
  }

  function SkipSpaces(s: string): (r: string)
    ensures |r| <= |s|
    ensures r == [] || !IsSpace(r[0])
  {
    if s != [] && IsSpace(s[0]) then SkipSpaces(s[1..]) else s
  }

  /** Length of the longest prefix of `s` made of digits. */
  function DigitRun(s: string): (n: nat)
    ensures n <= |s|
    ensures n == |s| || !IsDigit(s[n])
  {
    if s != [] && IsDigit(s[0]) then 1 + DigitRun(s[1..]) else 0
  }

  function DigitValue(c: char): nat {
    if IsDigit(c) then c as int - '0' as int else 0
  }

  function DigitChar(d: nat): (c: char)
    requires d < 10
    ensures IsDigit(c) && DigitValue(c) == d
  {
    ('0' as int + d) as char
  }

  /** The number a string of digits denotes, most significant digit first. */
  function DigitsValue(ds: string): nat {
    if ds == [] then 0 else DigitsValue(ds[..|ds| - 1]) * 10 + DigitValue(ds[|ds| - 1])
  }

  /** Decimal spelling of a natural number, without leading zeros. */
  function NatToString(n: nat): (s: string)
    ensures s != [] && AllDigits(s)
  {
    if n < 10 then [DigitChar(n)]
    else
      var p := NatToString(n / 10);
      var s := p + [DigitChar(n % 10)];
      assert forall k :: 0 <= k < |p| ==> s[k] == p[k];
      s
  }

  function IntToString(x: int): string {
    if x < 0 then "-" + NatToString(-x) else NatToString(x)
  }

  /**
   * The integer conversion shared by `atoi` and `%d`: white space, an
   * optional `+` or `-`, then at least one digit. Returns the value and
   * what follows the digits, or None when there is no digit where one is
   * needed.
   */
  function ScanInt(s: string): (r: Option<(int, string)>)
    ensures r.Some? ==> |r.value.1| < |s|
  {
    var t := SkipSpaces(s);
    var neg := t != [] && t[0] == '-';
    var u := if t != [] && (t[0] == '-' || t[0] == '+') then t[1..] else t;
    var n := DigitRun(u);
    if n == 0 then None
    else Some(((if neg then -1 else 1) * DigitsValue(u[..n]), u[n..]))
  }

  /** What follows the scanned number is the tail of the input: the conversion only consumes a prefix. */
  lemma {:induction false} ScanIntSuffix(s: string)
    requires ScanInt(s).Some?
    ensures ScanInt(s).value.1 == s[|s| - |ScanInt(s).value.1|..]
  {
    SkipSpacesSuffix(s);
    var t := SkipSpaces(s);
    var u := if t != [] && (t[0] == '-' || t[0] == '+') then t[1..] else t;
    var n := DigitRun(u);
    assert u[n..] == s[|s| - |u[n..]|..];
  }

  /** `atoi`: the scanned value, or 0 when there is no number to scan. */
  function Atoi(s: string): int {
    match ScanInt(s)
    case None => 0
    case Some((v, _)) => v
  }

  lemma {:induction false} SkipSpacesSuffix(s: string)
    ensures SkipSpaces(s) == s[|s| - |SkipSpaces(s)|..]
  {
    if s != [] && IsSpace(s[0]) {
      SkipSpacesSuffix(s[1..]);
      assert s[1..][|s| - 1 - |SkipSpaces(s)|..] == s[|s| - |SkipSpaces(s)|..];
    }
  }

  lemma {:induction false} DigitsValueOfNatToString(n: nat)
    ensures DigitsValue(NatToString(n)) == n
  {
    if n >= 10 {
      DigitsValueOfNatToString(n / 10);
      var s := NatToString(n);
      assert s[..|s| - 1] == NatToString(n / 10);
    }
  }

  lemma {:induction false} DigitRunOfDigits(p: string, rest: string)
    requires AllDigits(p)
    requires rest == [] || !IsDigit(rest[0])
    ensures DigitRun(p + rest) == |p|
  {
    if p == [] {
      assert p + rest == rest;
    } else {
      assert (p + rest)[0] == p[0];
      assert (p + rest)[1..] == p[1..] + rest;
      DigitRunOfDigits(p[1..], rest);
    }
  }

  /** Scanning a digit string that starts the input, unsigned or after a `-`. */
  lemma {:induction false} ScanIntOfDigits(neg: bool, p: string, rest: string)
    requires p != [] && AllDigits(p)
    requires rest == [] || !IsDigit(rest[0])
    ensures ScanInt((if neg then "-" else "") + p + rest) == Some(((if neg then -1 else 1) * DigitsValue(p), rest))
  {
    var u := p + rest;
    DigitRunOfDigits(p, rest);
    assert u[..|p|] == p;
    assert u[|p|..] == rest;
    assert u[0] == p[0];
    var s := (if neg then "-" else "") + p + rest;
    if neg {
      assert s == ['-'] + u;
      assert s[1..] == u;
    } else {
      assert s == u;
    }
    assert SkipSpaces(s) == s;
  }

  /**
   * Scanning the decimal spelling of `x` gives `x` back, and scanning stops
   * right after it.
   */
  lemma {:induction false} ScanIntOfIntToString(x: int, rest: string)
    requires rest == [] || !IsDigit(rest[0])
    ensures ScanInt(IntToString(x) + rest) == Some((x, rest))
  {
    var m := if x < 0 then -x else x;
    DigitsValueOfNatToString(m);
    ScanIntOfDigits(x < 0, NatToString(m), rest);
    assert IntToString(x) == (if x < 0 then "-" else "") + NatToString(m);
  }

  /** `atoi` reads back what IntToString writes. */
  lemma AtoiOfIntToString(x: int)
    ensures Atoi(IntToString(x)) == x
  {
    ScanIntOfIntToString(x, []);
    assert IntToString(x) + [] == IntToString(x);
  }

  /** Leading white space does not change what is scanned. */
  lemma {:induction false} ScanIntSkipsSpaces(sp: string, s: string)
    requires forall k :: 0 <= k < |sp| ==> IsSpace(sp[k])
    ensures ScanInt(sp + s) == ScanInt(s)
  {
    if sp != [] {
      assert (sp + s)[0] == sp[0];
      assert (sp + s)[1..] == sp[1..] + s;
      ScanIntSkipsSpaces(sp[1..], s);
      assert SkipSpaces(sp + s) == SkipSpaces(sp[1..] + s);
    } else {
      assert sp + s == s;
    }
  }
}
