/**
 * String operations the Java and TypeScript code relies on: `indexOf`,
 * `contains` / `includes`, Java `trim`, lower-casing, decimal rendering of
 * integers and Java `Long.parseLong`.
 */
module Text {
  import opened Wrappers
  import opened JavaInt

  /** `sub` occurs in `s` starting at index `i`. */
  predicate OccursAt(s: string, sub: string, i: int)
  {
    0 <= i && i + |sub| <= |s| && s[i..i + |sub|] == sub
  }

  /** First occurrence of `sub` in `s` at or after `from`, or -1. */
  function IndexOfFrom(s: string, sub: string, from: nat): (r: int)
    ensures r == -1 || (from <= r && OccursAt(s, sub, r))
    ensures r == -1 ==> forall i :: from <= i ==> !OccursAt(s, sub, i)
    ensures r >= 0 ==> forall i :: from <= i < r ==> !OccursAt(s, sub, i)
    decreases |s| - from
  {
    if from + |sub| > |s| then -1
    else if s[from..from + |sub|] == sub then from
    else IndexOfFrom(s, sub, from + 1)
  }

  /** Java `s.indexOf(sub, from)`: a negative start counts as 0. */
  function IndexOf(s: string, sub: string, from: int): (r: int)
    ensures r == -1 || (from <= r && OccursAt(s, sub, r)) || (sub == [] && r == |s|)
    ensures sub != [] && r == -1 ==> forall i :: from <= i ==> !OccursAt(s, sub, i)
    ensures sub != [] && r >= 0 ==> forall i :: from <= i < r ==> !OccursAt(s, sub, i)
  {
    var start := if from < 0 then 0 else from;
    if sub == [] then (if start < |s| then start else |s|)
    else IndexOfFrom(s, sub, start)
  }

  /** Java `String.contains` and JavaScript `String.includes`. */
  function Contains(s: string, sub: string): (b: bool)
    ensures b <==> exists i :: OccursAt(s, sub, i)
  {
    if sub == [] then
      assert OccursAt(s, sub, 0);
      true
    else
      IndexOf(s, sub, 0) >= 0
  }

  /** A string contains itself inside any surrounding text. */
  lemma ContainsInfix(pre: string, sub: string, post: string)
    ensures Contains(pre + sub + post, sub)
  {
    var s := pre + sub + post;
    assert s[|pre|..|pre| + |sub|] == sub;
    assert OccursAt(s, sub, |pre|);
  }

  /** A string contains whatever it ends with. */
  lemma ContainsEnd(pre: string, sub: string)
    ensures Contains(pre + sub, sub)
  {
    assert (pre + sub)[|pre|..|pre| + |sub|] == sub;
    assert OccursAt(pre + sub, sub, |pre|);
  }

  /** Appending text keeps every occurrence. */
  lemma ContainsExtend(s: string, more: string, sub: string)
    requires Contains(s, sub)
    ensures Contains(s + more, sub)
  {
    var i :| OccursAt(s, sub, i);
    assert (s + more)[i..i + |sub|] == s[i..i + |sub|];
    assert OccursAt(s + more, sub, i);
  }

  /** ASCII upper-case letters become lower case; every other character is kept. */
  function LowerChar(c: char): (d: char)
    ensures !('A' <= d <= 'Z')
    ensures !('A' <= c <= 'Z') ==> d == c
  {
    if 'A' <= c <= 'Z' then (c as int + 32) as char else c
  }

  /** Java `toLowerCase` / JavaScript `toLowerCase`, restricted to ASCII letters. */
  function Lower(s: string): (r: string)
    ensures |r| == |s|
    ensures forall i :: 0 <= i < |r| ==> !('A' <= r[i] <= 'Z')
  {
    seq(|s|, i requires 0 <= i < |s| => LowerChar(s[i]))
  }

  lemma LowerIdempotent(s: string)
    ensures Lower(Lower(s)) == Lower(s)
  {
  }

  /** Case-insensitive substring test: `Lower(s).contains(Lower(term))`. */
  function ContainsIgnoreCase(s: string, term: string): bool
  {
    Contains(Lower(s), Lower(term))
  }

  /** Java's `trim` drops leading and trailing characters at or below U+0020. */
  predicate IsTrimmed(c: char)
  {
    c <= ' '
  }

  function TrimStart(s: string): (r: string)
    ensures |r| <= |s| && r == s[|s| - |r|..]
    ensures r != [] ==> !IsTrimmed(r[0])
  {
    if s != [] && IsTrimmed(s[0]) then TrimStart(s[1..]) else s
  }

  function TrimEnd(s: string): (r: string)
    ensures |r| <= |s| && r == s[..|r|]
    ensures r != [] ==> !IsTrimmed(r[|r| - 1])
  {
    if s != [] && IsTrimmed(s[|s| - 1]) then TrimEnd(s[..|s| - 1]) else s
  }

  /** Java `String.trim`. */
  function Trim(s: string): string
  {
    TrimEnd(TrimStart(s))
  }

  /** Java `s.trim().isEmpty()`. */
  predicate IsBlank(s: string)
  {
    Trim(s) == ""
  }

  /** A string is blank exactly when every character is one that `trim` removes. */
  lemma {:induction false} BlankIff(s: string)
    ensures IsBlank(s) <==> forall i :: 0 <= i < |s| ==> IsTrimmed(s[i])
  {
    var t := TrimStart(s);
    TrimStartAll(s);
    TrimEndEmpty(t);
    if t != [] {
      assert !IsTrimmed(t[0]) && t[0] == s[|s| - |t|];
    }
  }

  lemma {:induction false} TrimStartAll(s: string)
    ensures TrimStart(s) == [] <==> forall i :: 0 <= i < |s| ==> IsTrimmed(s[i])
  {
    if s != [] && IsTrimmed(s[0]) {
      TrimStartAll(s[1..]);
      assert forall i :: 1 <= i < |s| ==> s[i] == s[1..][i - 1];
    }
  }

  lemma {:induction false} TrimEndEmpty(s: string)
    ensures TrimEnd(s) == [] <==> forall i :: 0 <= i < |s| ==> IsTrimmed(s[i])
  {
    if s != [] && IsTrimmed(s[|s| - 1]) {
      TrimEndEmpty(s[..|s| - 1]);
      assert forall i :: 0 <= i < |s| - 1 ==> s[i] == s[..|s| - 1][i];
    }
  }

  // Decimal numbers


  predicate IsDigit(c: char)
  {
    '0' <= c <= '9'
  }

  predicate AllDigits(s: string)
  {
    forall i :: 0 <= i < |s| ==> IsDigit(s[i])
  }

  function DigitChar(d: nat): (c: char)
    requires d < 10
    ensures IsDigit(c)
  {
    ('0' as int + d) as char
  }

  function DigitValue(c: char): (d: nat)
    requires IsDigit(c)
    ensures d < 10 && DigitChar(d) == c
  {
    c as int - '0' as int
  }

  /** Decimal rendering of a natural number, without leading zeros. */
  function ShowNat(n: nat): (r: string)
    ensures r != [] && AllDigits(r)
    ensures n > 0 ==> r[0] != '0'
  {
    if n < 10 then [DigitChar(n)] else ShowNat(n / 10) + [DigitChar(n % 10)]
  }

  /** Decimal rendering of an integer, as Java's `String.valueOf` and JavaScript template strings print it. */
  function ShowInt(n: int): (r: string)
    ensures r != []
    ensures n < 0 <==> r[0] == '-'
  {
    if n < 0 then "-" + ShowNat(-n) else ShowNat(n)
  }

  /** The value of a string of decimal digits. */
  function DigitsValue(s: string): nat
    requires AllDigits(s)
  {
    if s == [] then 0 else DigitsValue(s[..|s| - 1]) * 10 + DigitValue(s[|s| - 1])
  }

  lemma {:induction false} DigitsValueOfShowNat(n: nat)
    ensures DigitsValue(ShowNat(n)) == n
  {
    var r := ShowNat(n);
    if n >= 10 {
      DigitsValueOfShowNat(n / 10);
      assert r[..|r| - 1] == ShowNat(n / 10);
    }
  }

  /**
   * Java `Long.parseLong` (and `Long.valueOf`) on ASCII text: an optional
   * sign, then at least one digit, and the value must fit in 64 bits;
   * anything else is a `NumberFormatException` (None here).
   */
  function ParseLong(s: string): (r: Option<int>)
    ensures r.Some? ==> LONG_MIN <= r.value <= LONG_MAX
  {
    if s == [] then None
    else
      var negative := s[0] == '-';
      var digits := if s[0] == '-' || s[0] == '+' then s[1..] else s;
      if digits == [] || !AllDigits(digits) then None
      else
        var magnitude: int := DigitsValue(digits);
        var v := if negative then -magnitude else magnitude;
        if LONG_MIN <= v <= LONG_MAX then Some(v) else None
  }

  /** An optional minus sign followed by digits parses to their (signed) value when it fits in 64 bits. */
  lemma ParseSigned(s: string, digits: string, negative: bool)
    requires digits != [] && AllDigits(digits)
    requires s == if negative then "-" + digits else digits
    requires var v := if negative then -(DigitsValue(digits) as int) else DigitsValue(digits); LONG_MIN <= v <= LONG_MAX
    ensures ParseLong(s) == Some(if negative then -(DigitsValue(digits) as int) else DigitsValue(digits))
  {
    if negative {
      assert s[0] == '-' && s[1..] == digits;
    } else {
      assert IsDigit(s[0]);
    }
  }

  /** Rendering a 64-bit value in decimal and parsing it back gives the value. */
  lemma ParseShowRoundTrip(n: int)
    requires LONG_MIN <= n <= LONG_MAX
    ensures ParseLong(ShowInt(n)) == Some(n)
  {
    var m: nat := if n < 0 then -n else n;
    var digits := ShowNat(m);
    DigitsValueOfShowNat(m);
    assert ShowInt(n) == if n < 0 then "-" + digits else digits;
    ParseSigned(ShowInt(n), digits, n < 0);
  }

  /** Distinct natural numbers render as distinct digit strings. */
  lemma ShowNatInjective(a: nat, b: nat)
    requires ShowNat(a) == ShowNat(b)
    ensures a == b
  {
    DigitsValueOfShowNat(a);
    DigitsValueOfShowNat(b);
  }

  /** Distinct integers render as distinct text. */
  lemma ShowIntInjective(a: int, b: int)
    requires ShowInt(a) == ShowInt(b)
    ensures a == b
  {
    if a < 0 {
      assert b < 0;
      assert ShowInt(a)[1..] == ShowNat(-a);
      assert ShowInt(b)[1..] == ShowNat(-b);
      ShowNatInjective(-a, -b);
    } else {
      assert b >= 0;
      ShowNatInjective(a, b);
    }
  }

  /** Text that is not an optionally signed run of digits never parses. */
  lemma ParseRejectsNonDigits(s: string, i: int)
    requires 0 < i < |s| && !IsDigit(s[i])
    ensures ParseLong(s) == None
  {
    if s[0] == '-' || s[0] == '+' {
      assert s[1..][i - 1] == s[i];
    }
  }
}
