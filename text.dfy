/**
 * The string operations the handlers rely on: toLowerCase, includes, the
 * digit-stripping `replace(/[^\d]/g, '')` with parseFloat on its result, and the
 * decimal rendering of a count in a template string.
 */
module Text {
  import opened Lists

  function LowerChar(c: char): char {
    if 'A' <= c <= 'Z' then (c as int + 32) as char else c
  }

  /** String.prototype.toLowerCase, on the ASCII letters. */
  function Lower(s: string): string {
    Map(s, LowerChar)
  }

  /** Lower-casing twice is lower-casing once. */
  lemma LowerIdempotent(s: string)
    ensures Lower(Lower(s)) == Lower(s)
  {
    assert forall i :: 0 <= i < |s| ==> Lower(Lower(s))[i] == Lower(s)[i];
  }

  predicate OccursAt(s: string, part: string, i: nat) {
    i + |part| <= |s| && s[i..i + |part|] == part
  }

  /** String.prototype.includes. */
  predicate Contains(s: string, part: string) {
    exists i: nat :: i <= |s| && OccursAt(s, part, i)
  }

  predicate IsDigit(c: char) {
    '0' <= c <= '9'
  }

  predicate AllDigits(s: string) {
    forall i :: 0 <= i < |s| ==> IsDigit(s[i])
  }

  /** `s.replace(/[^\d]/g, '')`: the ASCII digits of `s`, in order. */
  function DigitsOnly(s: string): (r: string)
    ensures AllDigits(r)
    ensures forall c :: c in r <==> c in s && IsDigit(c)
  {
    FilterMembers(s, IsDigit);
    Filter(s, IsDigit)
  }

  /** Every digit is kept as often as it occurs, and nothing else is kept. */
  lemma DigitsOnlyCounts(s: string)
    ensures forall c :: multiset(DigitsOnly(s))[c] == if IsDigit(c) then multiset(s)[c] else 0
  {
    FilterCount(s, IsDigit);
  }

  /** Stripping works piece by piece, so the digits keep their order. */
  lemma DigitsOnlyAppend(a: string, b: string)
    ensures DigitsOnly(a + b) == DigitsOnly(a) + DigitsOnly(b)
  {
    FilterAppend(a, b, IsDigit);
  }

  function DigitValue(c: char): nat
    requires IsDigit(c)
  {
    c as int - '0' as int
  }

  function DigitChar(d: nat): char
    requires d < 10
  {
    ('0' as int + d) as char
  }

  /** The number a string of decimal digits denotes, as parseFloat reads it. */
  function ValueOf(digits: string): nat
    requires AllDigits(digits)
    decreases |digits|
  {
    if digits == [] then 0
    else ValueOf(digits[..|digits| - 1]) * 10 + DigitValue(digits[|digits| - 1])
  }

  function Pow10(n: nat): (r: nat)
    ensures r >= 1
  {
    if n == 0 then 1 else 10 * Pow10(n - 1)
  }

  lemma ShiftStep(x: nat, p: nat, y: nat, d: nat)
    ensures (x * p + y) * 10 + d == x * (10 * p) + (y * 10 + d)
  {
  }

  /** Reading two numerals written one after the other: the first is shifted by the length of the second. */
  lemma {:induction false} ValueOfAppend(a: string, b: string)
    requires AllDigits(a) && AllDigits(b)
    ensures AllDigits(a + b)
    ensures ValueOf(a + b) == ValueOf(a) * Pow10(|b|) + ValueOf(b)
    decreases |b|
  {
    if b == [] {
      assert a + b == a;
    } else {
      var n := |b| - 1;
      var b' := b[..n];
      ValueOfAppend(a, b');
      assert (a + b)[..|a + b| - 1] == a + b';
      assert (a + b)[|a + b| - 1] == b[n];
      var x, y, p, d := ValueOf(a), ValueOf(b'), Pow10(n), DigitValue(b[n]);
      assert ValueOf(a + b) == (x * p + y) * 10 + d;
      assert ValueOf(b) == y * 10 + d;
      assert Pow10(|b|) == 10 * p;
      ShiftStep(x, p, y, d);
    }
  }

  /** A numeral with no leading zero, other than "0" itself. */
  predicate Canonical(s: string) {
    |s| > 0 && (s[0] == '0' ==> |s| == 1)
  }

  /** The decimal numeral of `n`, as a template string `${n}` writes it. */
  function Decimal(n: nat): (r: string)
    ensures AllDigits(r) && Canonical(r)
    ensures ValueOf(r) == n
  {
    if n < 10 then [DigitChar(n)]
    else
      var r := Decimal(n / 10) + [DigitChar(n % 10)];
      assert r[..|r| - 1] == Decimal(n / 10);
      r
  }

  lemma {:induction false} LeadingDigitPositive(s: string)
    requires AllDigits(s) && |s| > 0 && s[0] != '0'
    ensures ValueOf(s) >= 1
    decreases |s|
  {
    if |s| > 1 {
      LeadingDigitPositive(s[..|s| - 1]);
    }
  }

  /** Reading a canonical numeral and writing the number back gives the same numeral. */
  lemma {:induction false} DecimalOfValue(s: string)
    requires AllDigits(s) && Canonical(s)
    ensures Decimal(ValueOf(s)) == s
    decreases |s|
  {
    var p := s[..|s| - 1];
    var d := DigitValue(s[|s| - 1]);
    if |s| == 1 {
      assert p == [];
      assert DigitChar(d) == s[0];
    } else {
      LeadingDigitPositive(p);
      DecimalOfValue(p);
      var n := ValueOf(s);
      assert n == ValueOf(p) * 10 + d;
      assert n / 10 == ValueOf(p) && n % 10 == d;
      assert DigitChar(d) == s[|s| - 1];
      assert s == p + [s[|s| - 1]];
    }
  }

  /** Digit-free text around a numeral does not change what the digits spell. */
  lemma DigitsAroundNumeral(prefix: string, numeral: string, suffix: string)
    requires AllDigits(numeral)
    requires forall c :: c in prefix + suffix ==> !IsDigit(c)
    ensures DigitsOnly(prefix + numeral + suffix) == numeral
  {
    FilterAppend(prefix + numeral, suffix, IsDigit);
    FilterAppend(prefix, numeral, IsDigit);
    FilterKeepsNone(prefix, IsDigit);
    FilterKeepsNone(suffix, IsDigit);
    FilterKeepsAll(numeral, IsDigit);
  }

  /** Stripping a string of digits leaves it as it is. */
  lemma DigitsOnlyOfDigits(s: string)
    requires AllDigits(s)
    ensures DigitsOnly(s) == s
  {
    assert forall c :: c in s ==> IsDigit(c);
    FilterKeepsAll(s, IsDigit);
  }

  /** Stripping a string without digits leaves nothing. */
  lemma NoDigitsStripped(s: string)
    requires forall c :: c in s ==> !IsDigit(c)
    ensures DigitsOnly(s) == []
  {
    FilterKeepsNone(s, IsDigit);
  }

  /** The digits of a string are not changed by digits and non-digits written after it. */
  lemma DigitsThenText(s: string, digits: string, text: string)
    requires AllDigits(digits)
    requires forall c :: c in text ==> !IsDigit(c)
    ensures DigitsOnly(s + digits + text) == DigitsOnly(s) + digits
  {
    DigitsOnlyAppend(s + digits, text);
    NoDigitsStripped(text);
    DigitsOnlyAppend(s, digits);
    DigitsOnlyOfDigits(digits);
  }

  /** A decimal point is stripped like any other non-digit: the digits on both sides run together. */
  lemma DigitsAroundPoint(prefix: string, whole: string, fraction: string, suffix: string)
    requires AllDigits(whole) && AllDigits(fraction)
    requires forall c :: c in prefix ==> !IsDigit(c)
    requires forall c :: c in suffix ==> !IsDigit(c)
    ensures DigitsOnly(prefix + whole + "." + fraction + suffix) == whole + fraction
  {
    var left := prefix + whole + ".";
    DigitsThenText(prefix, whole, ".");
    NoDigitsStripped(prefix);
    assert DigitsOnly(left) == whole;
    DigitsThenText(left, fraction, suffix);
  }
}
