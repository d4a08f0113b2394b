/** Decimal digits, their values and the canonical text of a number (src/core/amount.rs). */
module Numerals {
  import opened Wrappers

  predicate IsDigit(c: char) {
    '0' <= c <= '9'
  }

  predicate AllDigits(s: string) {
    forall i :: 0 <= i < |s| ==> IsDigit(s[i])
  }

  function DigitOf(c: char): nat
    requires IsDigit(c)
  {
    c as nat - '0' as nat
  }

  function CharOf(d: nat): char
    requires d < 10
  {
    ('0' as nat + d) as char
  }

  predicate AllZeros(s: string) {
    forall i :: 0 <= i < |s| ==> s[i] == '0'
  }

  function DigitsValue(s: string): nat
    requires AllDigits(s)
  {
    if s == "" then 0 else DigitsValue(s[..|s| - 1]) * 10 + DigitOf(s[|s| - 1])
  }

  function Pow10(n: nat): (p: nat)
    ensures p >= 1
  {
    if n == 0 then 1 else 10 * Pow10(n - 1)
  }

  function Zeros(n: nat): (s: string)
    ensures |s| == n && AllDigits(s)
  {
    seq(n, _ => '0')
  }

  lemma {:induction false} Pow10Adds(a: nat, b: nat)
    ensures Pow10(a + b) == Pow10(a) * Pow10(b)
  {
    if a > 0 {
      Pow10Adds(a - 1, b);
      assert Pow10(a + b) == 10 * (Pow10(a - 1) * Pow10(b)) == (10 * Pow10(a - 1)) * Pow10(b);
    }
  }

  lemma {:induction false} Pow10Monotone(a: nat, b: nat)
    requires a <= b
    ensures Pow10(a) <= Pow10(b)
    decreases b
  {
    if a < b {
      Pow10Monotone(a, b - 1);
    }
  }

  /** Concatenation shifts the front by the length of the back. */
  lemma {:induction false} DigitsConcat(a: string, b: string)
    requires AllDigits(a) && AllDigits(b)
    ensures AllDigits(a + b) && DigitsValue(a + b) == DigitsValue(a) * Pow10(|b|) + DigitsValue(b)
    decreases |b|
  {
    assert forall i :: 0 <= i < |a + b| ==> IsDigit((a + b)[i]);
    if b == "" {
      assert a + b == a;
    } else {
      var front := b[..|b| - 1];
      DigitsConcat(a, front);
      assert (a + b)[..|a + b| - 1] == a + front && (a + b)[|a + b| - 1] == b[|b| - 1];
      ShiftByTen(DigitsValue(a), Pow10(|front|));
    }
  }

  lemma ShiftByTen(v: nat, p: nat)
    ensures (v * p) * 10 == v * (10 * p)
  {
  }

  lemma {:induction false} DigitsBelow(s: string)
    requires AllDigits(s)
    ensures DigitsValue(s) < Pow10(|s|)
  {
    if s != "" {
      DigitsBelow(s[..|s| - 1]);
    }
  }

  lemma {:induction false} ZerosAreZero(s: string)
    requires AllDigits(s)
    ensures DigitsValue(s) == 0 <==> AllZeros(s)
  {
    if s != "" {
      var front := s[..|s| - 1];
      ZerosAreZero(front);
      assert s == front + [s[|s| - 1]];
    }
  }

  lemma TimesMonotone(a: nat, b: nat, c: nat)
    requires a <= b
    ensures a * c <= b * c
  {
  }

  /** A first digit that is not 0 makes the value at least a power of ten. */
  lemma LeadingDigit(s: string)
    requires AllDigits(s) && s != "" && s[0] != '0'
    ensures DigitsValue(s) >= Pow10(|s| - 1)
  {
    var p := Pow10(|s| - 1);
    assert s == [s[0]] + s[1..];
    DigitsConcat([s[0]], s[1..]);
    assert DigitsValue([s[0]]) >= 1 by {
      assert [s[0]][..0] == "";
    }
    TimesMonotone(1, DigitsValue([s[0]]), p);
  }

  /** 64-bit numbers have at most 20 digits. */
  lemma Pow10Of20(n: nat)
    requires n >= 20
    ensures Pow10(n) >= U64_BOUND
  {
    assert Pow10(10) == 10000000000;
    Pow10Adds(10, 10);
    Pow10Monotone(20, n);
  }

  // Canonical text.

  /** The text `to_string` gives a number. */
  function Print(n: nat): (s: string)
    ensures AllDigits(s) && s != ""
  {
    if n < 10 then [CharOf(n)] else Print(n / 10) + [CharOf(n % 10)]
  }

  lemma {:induction false} PrintParses(n: nat)
    ensures DigitsValue(Print(n)) == n
    ensures Print(n)[0] == '0' ==> n == 0
  {
    if n < 10 {
      assert Print(n)[..0] == "";
    } else {
      PrintParses(n / 10);
      assert Print(n)[..|Print(n)| - 1] == Print(n / 10);
    }
  }

  /** A number below 10^k has at most k digits. */
  lemma PrintIsShort(n: nat, k: nat)
    requires n < Pow10(k) && k > 0
    ensures |Print(n)| <= k
  {
    PrintParses(n);
    if |Print(n)| > k {
      LeadingDigit(Print(n));
      Pow10Monotone(k, |Print(n)| - 1);
    }
  }

  predicate IsCanonical(s: string) {
    s != "" && AllDigits(s) && (|s| > 1 ==> s[0] != '0')
  }

  lemma {:induction false} CanonicalIsPrinted(s: string)
    requires IsCanonical(s)
    ensures Print(DigitsValue(s)) == s
  {
    var front, last := s[..|s| - 1], DigitOf(s[|s| - 1]);
    if |s| == 1 {
      assert front == "" && DigitsValue(s) == last;
      assert s == [CharOf(last)];
    } else {
      CanonicalIsPrinted(front);
      LeadingDigit(s);
      Pow10Monotone(1, |s| - 1);
      assert Pow10(1) == 10 * Pow10(0);
      assert s == front + [CharOf(last)];
    }
  }

  /** `str::parse::<u64>`: an optional plus sign, then digits below 2^64. */
  function ParseU64(text: string): Option<U64> {
    var digits := if text != "" && text[0] == '+' then text[1..] else text;
    if digits != "" && AllDigits(digits) && DigitsValue(digits) < U64_BOUND then Some(DigitsValue(digits)) else None
  }

  /** `CanonicalAmount::parse`. */
  function ParseCanonical(text: string): Option<U64> {
    if text == "" || (|text| > 1 && text[0] == '0') then None
    else
      var parsed :- ParseU64(text);
      if Print(parsed) != text then None else Some(parsed)
  }

  /** Amount texts and 64-bit numbers correspond one to one: an accepted text is the printed
      form of its value, and every number has exactly that one text. */
  lemma CanonicalIffPrinted(text: string, n: U64)
    ensures ParseCanonical(text) == Some(n) <==> text == Print(n)
  {
    PrintParses(n);
  }

  /** Equivalently, the accepted texts are the canonical digit strings below 2^64. */
  lemma CanonicalTexts(text: string)
    ensures ParseCanonical(text).Some? <==> IsCanonical(text) && DigitsValue(text) < U64_BOUND
  {
    if IsCanonical(text) {
      CanonicalIsPrinted(text);
    }
    if ParseCanonical(text).Some? {
      PrintParses(ParseCanonical(text).value);
    }
  }
}
