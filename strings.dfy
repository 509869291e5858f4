/**
 * The string operations the front end and the backend rely on: ASCII lower-casing,
 * substring search, decimal rendering of integers, JavaScript's `parseInt`, and
 * Python's `split("@")[0]`.
 */
module Strings {
  import opened Wrappers

  predicate IsUpper(c: char) { 'A' <= c <= 'Z' }

  function LowerChar(c: char): char {
    if IsUpper(c) then (c as int + 32) as char else c
  }

  /** `toLowerCase()` / `lower()` restricted to ASCII letters. */
  function Lower(s: string): (r: string)
    ensures |r| == |s|
    ensures forall i :: 0 <= i < |s| ==> r[i] == LowerChar(s[i])
    ensures forall i :: 0 <= i < |r| ==> !IsUpper(r[i])
  {
    seq(|s|, i requires 0 <= i < |s| => LowerChar(s[i]))
  }

  /** Lower-casing twice is lower-casing once. */
  lemma LowerIdempotent(s: string)
    ensures Lower(Lower(s)) == Lower(s)
  {
  }

  /** `sub` occurs in `s` starting at index `i`. */
  predicate OccursAt(s: string, sub: string, i: int) {
    0 <= i && i + |sub| <= |s| && s[i..i + |sub|] == sub
  }

  /** JavaScript's `s.includes(sub)` and Python's `sub in s`. */
  predicate Contains(s: string, sub: string) {
    exists i | 0 <= i <= |s| - |sub| :: OccursAt(s, sub, i)
  }

  predicate IsDigit(c: char) { '0' <= c <= '9' }

  function DigitValue(c: char): nat
    requires IsDigit(c)
  {
    c as int - '0' as int
  }

  function DigitChar(d: nat): (c: char)
    requires d < 10
    ensures IsDigit(c) && DigitValue(c) == d
  {
    ('0' as int + d) as char
  }

  predicate AllDigits(s: string) {
    forall i :: 0 <= i < |s| ==> IsDigit(s[i])
  }

  /** Decimal rendering of a natural number, as in `mock-jwt-${id}`. */
  function NatToString(n: nat): (r: string)
    ensures r != [] && AllDigits(r)
    decreases n
  {
    if n < 10 then [DigitChar(n)] else NatToString(n / 10) + [DigitChar(n % 10)]
  }

  /** Decimal rendering of an integer, with a leading '-' when negative. */
  function IntToString(i: int): string {
    if i < 0 then "-" + NatToString(-i) else NatToString(i)
  }

  /** The value of a run of decimal digits, most significant first. */
  function DigitsValue(s: string): nat
    requires AllDigits(s)
    decreases |s|
  {
    if s == [] then 0 else DigitsValue(s[..|s| - 1]) * 10 + DigitValue(s[|s| - 1])
  }

  predicate IsSpace(c: char) { c == ' ' || c == '\t' || c == '\n' || c == '\r' }

  predicate AllSpace(s: string) {
    forall m :: 0 <= m < |s| ==> IsSpace(s[m])
  }

  function TrimStart(s: string): (r: string)
    ensures r == [] || !IsSpace(r[0])
    ensures |r| <= |s| && r == s[|s| - |r|..]
    ensures AllSpace(s[..|s| - |r|])
    decreases |s|
  {
    if s != [] && IsSpace(s[0]) then TrimStart(s[1..]) else s
  }

  /** Length of the leading run of digits of `s`. */
  function DigitRun(s: string): (n: nat)
    ensures n <= |s| && AllDigits(s[..n])
    ensures n < |s| ==> !IsDigit(s[n])
    decreases |s|
  {
    if s != [] && IsDigit(s[0]) then 1 + DigitRun(s[1..]) else 0
  }

  /** `t` without its leading sign, if it has one. */
  function Unsigned(t: string): (u: string)
    ensures |u| <= |t| && u == t[|t| - |u|..]
    ensures |u| == |t| || (|u| == |t| - 1 && (t[0] == '-' || t[0] == '+'))
    ensures |u| == |t| ==> t == [] || (t[0] != '-' && t[0] != '+')
  {
    if t != [] && (t[0] == '-' || t[0] == '+') then t[1..] else t
  }

  /**
   * A number `parseInt` can read in `s`: the white space `s[..i]`, at most one sign
   * `s[i..j]`, and the digits `s[j..k]`, at least one, not followed by another digit.
   */
  ghost predicate NumberAt(s: string, i: int, j: int, k: int) {
    && 0 <= i <= j < k <= |s|
    && AllSpace(s[..i])
    && (j == i || (j == i + 1 && (s[i] == '-' || s[i] == '+')))
    && AllDigits(s[j..k])
    && (k == |s| || !IsDigit(s[k]))
  }

  /** The value of the number `NumberAt(s, i, j, k)` describes. */
  ghost function NumberValue(s: string, i: int, j: int, k: int): int
    requires NumberAt(s, i, j, k)
  {
    var magnitude: int := DigitsValue(s[j..k]);
    if j > i && s[i] == '-' then -magnitude else magnitude
  }

  /** A leading run of exactly `n` digits is what `DigitRun` measures. */
  lemma {:induction false} DigitRunIs(u: string, n: nat)
    requires n <= |u| && AllDigits(u[..n]) && (n == |u| || !IsDigit(u[n]))
    ensures DigitRun(u) == n
    decreases n
  {
    if n > 0 {
      assert IsDigit(u[..n][0]);
      assert u[1..][..n - 1] == u[..n][1..];
      DigitRunIs(u[1..], n - 1);
    }
  }

  /** White space up to a non-space character is exactly what `TrimStart` drops. */
  lemma {:induction false} TrimStartAfter(s: string, i: nat)
    requires i <= |s| && AllSpace(s[..i]) && (i == |s| || !IsSpace(s[i]))
    ensures TrimStart(s) == s[i..]
    decreases i
  {
    if i > 0 {
      assert IsSpace(s[..i][0]);
      assert s[1..][..i - 1] == s[..i][1..];
      assert s[1..][i - 1..] == s[i..];
      TrimStartAfter(s[1..], i - 1);
    }
  }

  /** Past the white space, `Unsigned` drops exactly the sign the number has. */
  lemma SignStep(s: string, i: nat, j: nat, t: string)
    requires i <= j < |s| && t == s[i..]
    requires j == i || (j == i + 1 && (s[i] == '-' || s[i] == '+'))
    requires j == i ==> IsDigit(s[i])
    ensures Unsigned(t) == s[j..]
    ensures j > i && s[i] == '-' <==> t != [] && t[0] == '-'
  {
    assert t[0] == s[i];
    if j > i {
      assert t[1..] == s[j..];
    }
  }

  /** Digits `s[j..k]` not followed by a digit are the run `DigitRun` measures on `s[j..]`. */
  lemma RunStep(s: string, j: nat, k: nat, u: string)
    requires j <= k <= |s| && u == s[j..] && AllDigits(s[j..k]) && (k == |s| || !IsDigit(s[k]))
    ensures DigitRun(u) == k - j && s[j..k] == u[..k - j]
  {
    assert u[..k - j] == s[j..k];
    if k < |s| {
      assert u[k - j] == s[k];
    }
    DigitRunIs(u, k - j);
  }

  /** A readable number in `s` starts where `parseInt`'s scan reads it. */
  lemma NumberAtIsScannedOne(s: string, i: int, j: int, k: int)
    requires NumberAt(s, i, j, k)
    ensures var t := TrimStart(s); var u := Unsigned(t);
      && i == |s| - |t| && j == |s| - |u| && k - j == DigitRun(u)
      && s[j..k] == u[..DigitRun(u)]
      && (j > i && s[i] == '-' <==> t != [] && t[0] == '-')
  {
    assert IsDigit(s[j..k][0]);
    TrimStartAfter(s, i);
    SignStep(s, i, j, TrimStart(s));
    RunStep(s, j, k, Unsigned(TrimStart(s)));
  }

  /** White space, a sign and a run of `n` digits that stops, laid out in `s`, are a number. */
  lemma NumberFromParts(s: string, i: int, j: int, u: string, n: nat)
    requires 0 <= i <= j <= |s| && AllSpace(s[..i])
    requires j == i || (j == i + 1 && (s[i] == '-' || s[i] == '+'))
    requires u == s[j..] && 0 < n <= |u| && AllDigits(u[..n]) && (n == |u| || !IsDigit(u[n]))
    ensures NumberAt(s, i, j, j + n)
  {
    assert s[j..j + n] == u[..n];
    if n < |u| {
      assert u[n] == s[j + n];
    }
  }

  /** When the scan finds digits, they form a readable number. */
  lemma ScannedIsNumberAt(s: string)
    requires DigitRun(Unsigned(TrimStart(s))) > 0
    ensures exists i, j, k :: NumberAt(s, i, j, k)
  {
    var t := TrimStart(s);
    var u := Unsigned(t);
    var i0, j0 := |s| - |t|, |s| - |u|;
    assert t == s[i0..];
    if j0 > i0 {
      assert s[i0] == t[0];
    }
    assert u == s[j0..];
    NumberFromParts(s, i0, j0, u, DigitRun(u));
  }

  /** A non-empty run of digits is scanned whole: no white space, no sign, and all digits. */
  lemma ScanOfDigits(s: string)
    ensures s != [] && AllDigits(s) ==>
      TrimStart(s) == s && Unsigned(s) == s && DigitRun(s) == |s| && s[..|s|] == s
  {
    if s != [] && AllDigits(s) {
      TrimStartAfter(s, 0);
      DigitRunOfDigits(s);
    }
  }

  /**
   * JavaScript's `parseInt(s)` in base 10: leading white space is skipped, an optional
   * sign is read, then the longest run of digits; anything after it is ignored.
   * `None` stands for the NaN returned when there is no digit to read.
   */
  function ParseInt(s: string): (r: Option<int>)
    ensures s != [] && AllDigits(s) ==> r == Some(DigitsValue(s))
  {
    ScanOfDigits(s);
    var t := TrimStart(s);
    var negative := t != [] && t[0] == '-';
    var unsigned := Unsigned(t);
    var n := DigitRun(unsigned);
    var magnitude: int := if n == 0 then 0 else DigitsValue(unsigned[..n]);
    if n == 0 then None else Some(if negative then -magnitude else magnitude)
  }

  /** A readable number in `s` is what `parseInt` returns. */
  lemma ParseIntOfNumberAt(s: string, i: int, j: int, k: int)
    requires NumberAt(s, i, j, k)
    ensures ParseInt(s) == Some(NumberValue(s, i, j, k))
  {
    NumberAtIsScannedOne(s, i, j, k);
    var t := TrimStart(s);
    var u := Unsigned(t);
    var magnitude: int := DigitsValue(s[j..k]);
    assert DigitsValue(u[..DigitRun(u)]) == magnitude;
    assert NumberValue(s, i, j, k) == if t != [] && t[0] == '-' then -magnitude else magnitude;
  }

  /** When the scan finds no digit `parseInt` returns NaN, and otherwise a number. */
  lemma ParseIntScans(s: string)
    ensures ParseInt(s).Some? <==> DigitRun(Unsigned(TrimStart(s))) > 0
  {
  }

  /**
   * `parseInt` reads a number exactly when `s` has one where it looks: then it reads
   * that number, and NaN otherwise.
   */
  lemma ParseIntReadsNumber(s: string)
    ensures ParseInt(s).Some? <==> exists i, j, k :: NumberAt(s, i, j, k)
    ensures forall i, j, k :: NumberAt(s, i, j, k) ==> ParseInt(s) == Some(NumberValue(s, i, j, k))
  {
    forall i, j, k | NumberAt(s, i, j, k)
      ensures ParseInt(s) == Some(NumberValue(s, i, j, k))
    {
      ParseIntOfNumberAt(s, i, j, k);
    }
    ParseIntScans(s);
    if DigitRun(Unsigned(TrimStart(s))) > 0 {
      ScannedIsNumberAt(s);
    }
  }

  lemma {:induction false} DigitsValueOfNatToString(n: nat)
    ensures DigitsValue(NatToString(n)) == n
    decreases n
  {
    if n >= 10 {
      var s := NatToString(n);
      DigitsValueOfNatToString(n / 10);
      assert s[..|s| - 1] == NatToString(n / 10);
    }
  }

  lemma {:induction false} DigitRunOfDigits(s: string)
    requires AllDigits(s)
    ensures DigitRun(s) == |s|
    decreases |s|
  {
    if s != [] {
      DigitRunOfDigits(s[1..]);
    }
  }

  /** `parseInt` reads back what `NatToString` renders. */
  lemma ParseNatToString(n: nat)
    ensures ParseInt(NatToString(n)) == Some(n)
  {
    var s := NatToString(n);
    assert TrimStart(s) == s;
    DigitRunOfDigits(s);
    assert s[..|s|] == s;
    DigitsValueOfNatToString(n);
  }

  /** `parseInt` reads back what `IntToString` renders, negative numbers included. */
  lemma ParseIntToString(i: int)
    ensures ParseInt(IntToString(i)) == Some(i)
  {
    if i < 0 {
      var d := NatToString(-i);
      var s := "-" + d;
      assert TrimStart(s) == s;
      assert s[1..] == d;
      DigitRunOfDigits(d);
      assert d[..|d|] == d;
      DigitsValueOfNatToString(-i);
    } else {
      ParseNatToString(i);
    }
  }

  /** Python's `s.split("@")[0]`: everything before the first '@', or all of `s`. */
  function BeforeAt(s: string): (r: string)
    ensures |r| <= |s| && r == s[..|r|]
    ensures '@' !in r
    ensures |r| == |s| || s[|r|] == '@'
    decreases |s|
  {
    if s == [] || s[0] == '@' then [] else [s[0]] + BeforeAt(s[1..])
  }
}
