/** Amounts of satoshis in decimal text: the scientific-notation parser of node answers
    (src/chain/observation.rs) and the wallet's own parser and printer (src/swaps/liquid.rs). */
module CoinAmount {
  import opened Wrappers
  import opened Numerals

  datatype AmountError = Malformed | ExponentRange | OutOfRange | BelowOneSat | SubSat

  const I128_BOUND: int := 0x8000_0000_0000_0000_0000_0000_0000_0000

  /** Rust strings are at most isize::MAX bytes long. */
  type Text = s: string | |s| < 0x8000_0000_0000_0000

  /** Index of the first character among `marks`, or the length. */
  function First(text: string, marks: set<char>): (k: nat)
    ensures k <= |text| && (k < |text| ==> text[k] in marks)
    ensures forall i :: 0 <= i < k ==> text[i] !in marks
  {
    if text == "" || text[0] in marks then 0 else 1 + First(text[1..], marks)
  }

  function TrimZeros(digits: string): (s: string)
    requires AllDigits(digits)
    ensures AllDigits(s) && |s| <= |digits| && DigitsValue(s) == DigitsValue(digits)
    ensures s == "" || s[0] != '0'
  {
    if digits == "" || digits[0] != '0' then digits
    else
      DigitsConcat(digits[..1], digits[1..]);
      assert digits == digits[..1] + digits[1..];
      assert DigitsValue(digits[..1]) == 0 by { assert digits[..1][..0] == ""; }
      TrimZeros(digits[1..])
  }

  /** The checked fold over the exponent's digits, in 128-bit signed arithmetic. */
  function FoldMagnitude(digits: string): Option<nat>
    requires AllDigits(digits)
  {
    if digits == "" then Some(0)
    else
      var current :- FoldMagnitude(digits[..|digits| - 1]);
      if current * 10 >= I128_BOUND then None
      else if current * 10 + DigitOf(digits[|digits| - 1]) >= I128_BOUND then None
      else Some(current * 10 + DigitOf(digits[|digits| - 1]))
  }

  function ParseDecimalExponent(value: string): Result<int, AmountError> {
    if value == "" then Err(Malformed)
    else
      var signed := value[0] == '+' || value[0] == '-';
      var digits := if signed then value[1..] else value;
      if digits == "" || !AllDigits(digits) then Err(Malformed)
      else
        match FoldMagnitude(digits)
        case None => Err(ExponentRange)
        case Some(magnitude) => Ok(if value[0] == '-' then 0 - magnitude else magnitude)
  }

  /** Scaling by string surgery: append zeros, or cut zeros off. */
  function ScaleDecimalDigits(digits: string, shift: int): Result<U64, AmountError>
    requires AllDigits(digits)
  {
    if shift >= 0 then
      if shift >= U64_BOUND || |digits| + shift >= U64_BOUND || |digits| + shift > 20 then Err(OutOfRange)
      else
        match ParseU64(digits + Zeros(shift))
        case None => Err(OutOfRange)
        case Some(n) => Ok(n)
    else
      var division := -shift;
      if division >= I128_BOUND || division >= U64_BOUND || division >= |digits| then Err(BelowOneSat)
      else
        var whole, remainder := digits[..|digits| - division], digits[|digits| - division..];
        if !AllZeros(remainder) then Err(SubSat)
        else if |whole| > 20 then Err(OutOfRange)
        else
          match ParseU64(whole)
          case None => Err(OutOfRange)
          case Some(n) => Ok(n)
  }

  function ParseDecimalSats(value: Text): Result<U64, AmountError> {
    var mark := First(value, {'e', 'E'});
    if mark < |value| then ParseScientific(value[..mark], value[mark + 1..]) else ParseMantissa(value, 0)
  }

  function ParseScientific(mantissa: Text, exponent: string): Result<U64, AmountError> {
    var power :- ParseDecimalExponent(exponent);
    ParseMantissa(mantissa, power)
  }

  function ParseMantissa(mantissa: Text, exponent: int): Result<U64, AmountError> {
    var point := First(mantissa, {'.'});
    var whole := mantissa[..point];
    var fractional := if point < |mantissa| then mantissa[point + 1..] else "";
    if whole == "" || !AllDigits(whole)
       || (point < |mantissa| && (fractional == "" || !AllDigits(fractional))) then Err(Malformed)
    else
      var significant := TrimZeros(whole + fractional);
      if significant == "" then Ok(0)
      else
        var unscaled := exponent - |fractional|;
        if unscaled < -I128_BOUND || unscaled + 8 >= I128_BOUND then Err(OutOfRange)
        else ScaleDecimalDigits(significant, unscaled + 8)
  }

  // What the texts mean.

  datatype Exponent = Exponent(mark: char, sign: Option<char>, digits: string)

  datatype Decimal = Decimal(whole: string, fraction: Option<string>, exponent: Option<Exponent>)

  predicate WellFormed(d: Decimal) {
    && d.whole != "" && AllDigits(d.whole)
    && (d.fraction.Some? ==> d.fraction.value != "" && AllDigits(d.fraction.value))
    && (d.exponent.Some? ==>
          var e := d.exponent.value;
          && e.mark in {'e', 'E'} && e.digits != "" && AllDigits(e.digits)
          && (e.sign.Some? ==> e.sign.value in {'+', '-'}))
  }

  function RenderExponent(e: Option<Exponent>): string {
    if e.None? then ""
    else [e.value.mark] + (if e.value.sign.Some? then [e.value.sign.value] else "") + e.value.digits
  }

  function RenderMantissa(d: Decimal): string {
    d.whole + (if d.fraction.Some? then "." + d.fraction.value else "")
  }

  function Render(d: Decimal): string {
    RenderMantissa(d) + RenderExponent(d.exponent)
  }

  function FractionDigits(d: Decimal): string {
    d.fraction.UnwrapOr("")
  }

  /** The digits of the mantissa read as one number. */
  function Significand(d: Decimal): nat
    requires WellFormed(d)
  {
    DigitsConcat(d.whole, FractionDigits(d));
    DigitsValue(d.whole + FractionDigits(d))
  }

  function Power(d: Decimal): int
    requires WellFormed(d)
  {
    if d.exponent.None? then 0
    else
      var magnitude := DigitsValue(d.exponent.value.digits);
      if d.exponent.value.sign == Some('-') then 0 - magnitude else magnitude
  }

  predicate ExponentFits(d: Decimal)
    requires WellFormed(d)
  {
    d.exponent.Some? ==> DigitsValue(d.exponent.value.digits) < 0x8000_0000_0000_0000_0000_0000_0000_0000
  }

  /** `v` times ten to the `shift` is exactly `n`. */
  predicate ScalesTo(v: nat, shift: int, n: nat) {
    if shift >= 0 then v * Pow10(shift) == n else v == n * Pow10(-shift)
  }

  /** The exact value of the decimal, times 10^8, is `n`. */
  predicate DenotesSats(d: Decimal, n: nat)
    requires WellFormed(d)
  {
    ScalesTo(Significand(d), Power(d) - |FractionDigits(d)| + 8, n)
  }

  // Scaling.

  /** Digits without a leading zero that are longer than 20 exceed 64 bits. */
  lemma LongIsLarge(s: string, extra: nat)
    requires AllDigits(s) && s != "" && s[0] != '0' && |s| + extra > 20
    ensures DigitsValue(s) * Pow10(extra) >= U64_BOUND
  {
    LeadingDigit(s);
    TimesMonotone(Pow10(|s| - 1), DigitsValue(s), Pow10(extra));
    Pow10Adds(|s| - 1, extra);
    Pow10Of20(|s| - 1 + extra);
  }

  lemma ScaleUp(digits: string, shift: nat, n: U64)
    requires AllDigits(digits) && digits != "" && digits[0] != '0'
    ensures ScaleDecimalDigits(digits, shift) == Ok(n) <==> DigitsValue(digits) * Pow10(shift) == n
  {
    if |digits| + shift > 20 {
      LongIsLarge(digits, shift);
    } else {
      DigitsConcat(digits, Zeros(shift));
      ZerosAreZero(Zeros(shift));
      assert (digits + Zeros(shift))[0] == digits[0];
    }
  }

  lemma CutTooFar(digits: string, division: nat, n: nat)
    requires AllDigits(digits) && digits != "" && digits[0] != '0' && division >= |digits|
    ensures DigitsValue(digits) != n * Pow10(division)
  {
    LeadingDigit(digits);
    DigitsBelow(digits);
    Pow10Monotone(|digits|, division);
    if n >= 1 {
      TimesMonotone(1, n, Pow10(division));
    }
  }

  lemma CutExactly(digits: string, division: nat, n: nat)
    requires AllDigits(digits) && 0 < division < |digits|
    ensures var whole, remainder := digits[..|digits| - division], digits[|digits| - division..];
      DigitsValue(digits) == n * Pow10(division) <==> DigitsValue(whole) == n && AllZeros(remainder)
  {
    var whole, remainder := digits[..|digits| - division], digits[|digits| - division..];
    assert digits == whole + remainder;
    DigitsConcat(whole, remainder);
    DigitsBelow(remainder);
    ZerosAreZero(remainder);
    SplitIsUnique(DigitsValue(whole), DigitsValue(remainder), n, Pow10(division));
  }

  lemma SplitIsUnique(w: nat, r: nat, n: nat, p: nat)
    requires r < p
    ensures w * p + r == n * p <==> w == n && r == 0
  {
    if n > w {
      TimesMonotone(w + 1, n, p);
    } else if n < w {
      TimesMonotone(n + 1, w, p);
    }
  }

  lemma ParsePlain(s: string)
    requires AllDigits(s) && s != ""
    ensures ParseU64(s) == if DigitsValue(s) < U64_BOUND then Some(DigitsValue(s)) else None
  {
  }

  lemma LongIsOutOfRange(s: string)
    requires AllDigits(s) && |s| > 20 && s[0] != '0'
    ensures DigitsValue(s) >= U64_BOUND
  {
    LongIsLarge(s, 0);
    assert Pow10(0) == 1;
  }

  lemma ScaleDown(digits: string, division: nat, n: U64)
    requires AllDigits(digits) && digits != "" && digits[0] != '0' && |digits| < 0x8000_0000_0000_0000
    requires division > 0
    ensures ScaleDecimalDigits(digits, 0 - division) == Ok(n) <==> DigitsValue(digits) == n * Pow10(division)
  {
    if division >= |digits| {
      CutTooFar(digits, division, n);
    } else {
      var whole := digits[..|digits| - division];
      CutExactly(digits, division, n);
      assert AllDigits(whole) && whole[0] == digits[0];
      ParsePlain(whole);
      if |whole| > 20 {
        LongIsOutOfRange(whole);
      }
    }
  }

  lemma ScaleIsExact(digits: string, shift: int, n: U64)
    requires AllDigits(digits) && digits != "" && digits[0] != '0' && |digits| < 0x8000_0000_0000_0000
    ensures ScaleDecimalDigits(digits, shift) == Ok(n) <==> ScalesTo(DigitsValue(digits), shift, n)
  {
    if shift >= 0 {
      ScaleUp(digits, shift, n);
    } else {
      ScaleDown(digits, -shift, n);
    }
  }

  // Parsing.

  lemma {:induction false} FoldIsValue(digits: string)
    requires AllDigits(digits)
    ensures FoldMagnitude(digits)
      == if DigitsValue(digits) < I128_BOUND then Some(DigitsValue(digits)) else None
  {
    if digits != "" {
      FoldIsValue(digits[..|digits| - 1]);
    }
  }

  function SignText(sign: Option<char>): string {
    if sign.Some? then [sign.value] else ""
  }

  lemma ExponentParses(e: Exponent)
    requires e.digits != "" && AllDigits(e.digits) && (e.sign.Some? ==> e.sign.value in {'+', '-'})
    ensures var magnitude := DigitsValue(e.digits);
      ParseDecimalExponent(SignText(e.sign) + e.digits)
      == if magnitude >= I128_BOUND then Err(ExponentRange)
         else Ok(if e.sign == Some('-') then 0 - magnitude else magnitude)
  {
    hide FoldMagnitude, DigitsValue;
    var text := SignText(e.sign) + e.digits;
    FoldIsValue(e.digits);
    if e.sign.Some? {
      assert text[0] == e.sign.value && text[1..] == e.digits;
    } else {
      assert text == e.digits;
    }
  }

  /** The exponent a text spells, if it parses. */
  function ExponentOf(mark: char, text: string): (e: Exponent)
    requires ParseDecimalExponent(text).Ok?
    ensures e.mark == mark && e.digits != "" && AllDigits(e.digits) && (e.sign.Some? ==> e.sign.value in {'+', '-'})
    ensures SignText(e.sign) + e.digits == text
  {
    if text[0] == '+' || text[0] == '-' then Exponent(mark, Some(text[0]), text[1..])
    else Exponent(mark, None, text)
  }

  lemma TrimmedIsEmptyOnZero(digits: string)
    requires AllDigits(digits)
    ensures TrimZeros(digits) == "" <==> DigitsValue(digits) == 0
  {
    if TrimZeros(digits) != "" {
      LeadingDigit(TrimZeros(digits));
    }
  }

  lemma ZeroScales(shift: int, n: nat)
    ensures ScalesTo(0, shift, n) <==> n == 0
  {
    if n > 0 && shift < 0 {
      TimesMonotone(1, n, Pow10(-shift));
    }
  }

  /** Shifts beyond 128 bits leave no 64-bit amount. */
  lemma FarShiftsHaveNoAmount(s: string, shift: int, n: U64)
    requires AllDigits(s) && s != "" && s[0] != '0' && |s| < 0x8000_0000_0000_0000
    requires shift >= 21 || shift <= -0x8000_0000_0000_0000
    ensures !ScalesTo(DigitsValue(s), shift, n)
  {
    if shift >= 0 {
      LongIsLarge(s, shift);
    } else {
      CutTooFar(s, -shift, n);
    }
  }

  lemma FirstIs(text: string, marks: set<char>, k: nat)
    requires k <= |text| && (k < |text| ==> text[k] in marks)
    requires forall i :: 0 <= i < k ==> text[i] !in marks
    ensures First(text, marks) == k
  {
  }

  lemma MantissaSplits(d: Decimal)
    requires WellFormed(d)
    ensures var mantissa := RenderMantissa(d);
      && First(mantissa, {'.'}) == |d.whole|
      && mantissa[..|d.whole|] == d.whole
      && (d.fraction.Some? <==> |d.whole| < |mantissa|)
      && (d.fraction.Some? ==> mantissa[|d.whole| + 1..] == d.fraction.value)
  {
    var mantissa := RenderMantissa(d);
    assert forall i :: 0 <= i < |d.whole| ==> mantissa[i] == d.whole[i] && IsDigit(d.whole[i]);
    FirstIs(mantissa, {'.'}, |d.whole|);
  }

  /** The digits of a mantissa scaled by any exponent that fits 128 bits. */
  lemma MantissaParses(d: Decimal, exponent: int, n: U64)
    requires WellFormed(d) && -I128_BOUND < exponent < I128_BOUND && |RenderMantissa(d)| < 0x8000_0000_0000_0000
    ensures ParseMantissa(RenderMantissa(d), exponent) == Ok(n)
       <==> ScalesTo(Significand(d), exponent - |FractionDigits(d)| + 8, n)
  {
    hide ScaleDecimalDigits, ScalesTo, DigitsValue, First, TrimZeros, RenderMantissa;
    MantissaSplits(d);
    var digits := d.whole + FractionDigits(d);
    DigitsConcat(d.whole, FractionDigits(d));
    TrimmedIsEmptyOnZero(digits);
    var shift := exponent - |FractionDigits(d)| + 8;
    var significant := TrimZeros(digits);
    if significant == "" {
      ZeroScales(shift, n);
    } else if shift - 8 < -I128_BOUND || shift >= I128_BOUND {
      FarShiftsHaveNoAmount(significant, shift, n);
    } else {
      ScaleIsExact(significant, shift, n);
    }
  }

  lemma RenderSplits(d: Decimal)
    requires WellFormed(d)
    ensures var mark := |RenderMantissa(d)|;
      && First(Render(d), {'e', 'E'}) == mark
      && Render(d)[..mark] == RenderMantissa(d)
      && (d.exponent.Some? <==> mark < |Render(d)|)
      && (d.exponent.Some? ==>
            Render(d)[mark + 1..] == SignText(d.exponent.value.sign) + d.exponent.value.digits)
  {
    hide RenderMantissa, First, DigitsValue;
    var text, mantissa := Render(d), RenderMantissa(d);
    MantissaIsPlain(d);
    assert forall i :: 0 <= i < |mantissa| ==> text[i] == mantissa[i];
    FirstIs(text, {'e', 'E'}, |mantissa|);
  }

  lemma MantissaIsPlain(d: Decimal)
    requires WellFormed(d)
    ensures forall i :: 0 <= i < |RenderMantissa(d)| ==> RenderMantissa(d)[i] !in {'e', 'E'}
  {
    var mantissa := RenderMantissa(d);
    forall i | 0 <= i < |mantissa| ensures mantissa[i] == '.' || IsDigit(mantissa[i]) {
      if i < |d.whole| {
        assert mantissa[i] == d.whole[i];
      } else if i > |d.whole| {
        assert mantissa[i] == d.fraction.value[i - |d.whole| - 1];
      }
    }
  }

  lemma PlainParses(d: Decimal, n: U64)
    requires WellFormed(d) && |Render(d)| < 0x8000_0000_0000_0000 && d.exponent.None?
    ensures ParseDecimalSats(Render(d)) == Ok(n) <==> DenotesSats(d, n)
  {
    hide ParseMantissa, RenderMantissa, First, ScalesTo, Significand;
    RenderSplits(d);
    assert Render(d) == RenderMantissa(d);
    MantissaParses(d, 0, n);
  }

  lemma ExponentApplies(d: Decimal, n: U64)
    requires WellFormed(d) && d.exponent.Some? && |RenderMantissa(d)| < 0x8000_0000_0000_0000
    ensures ParseScientific(RenderMantissa(d), SignText(d.exponent.value.sign) + d.exponent.value.digits) == Ok(n)
       <==> ExponentFits(d) && DenotesSats(d, n)
  {
    hide ParseMantissa, ParseDecimalExponent, RenderMantissa;
    ExponentParses(d.exponent.value);
    if ExponentFits(d) {
      MantissaParses(d, Power(d), n);
    }
  }

  lemma ScientificParses(d: Decimal, n: U64)
    requires WellFormed(d) && |Render(d)| < 0x8000_0000_0000_0000 && d.exponent.Some?
    ensures ParseDecimalSats(Render(d)) == Ok(n) <==> ExponentFits(d) && DenotesSats(d, n)
  {
    hide ParseScientific, ParseMantissa, RenderMantissa, DenotesSats, First;
    RenderSplits(d);
    ExponentApplies(d, n);
  }

  /** On a rendered decimal the parser returns its exact value. */
  lemma RenderParses(d: Decimal, n: U64)
    requires WellFormed(d) && |Render(d)| < 0x8000_0000_0000_0000
    ensures ParseDecimalSats(Render(d)) == Ok(n) <==> ExponentFits(d) && DenotesSats(d, n)
  {
    if d.exponent.Some? {
      ScientificParses(d, n);
    } else {
      PlainParses(d, n);
    }
  }

  /** The mantissa an accepted text spells. */
  lemma MantissaOf(mantissa: Text, exponent: int) returns (d: Decimal)
    requires ParseMantissa(mantissa, exponent).Ok?
    ensures WellFormed(d) && RenderMantissa(d) == mantissa && d.exponent.None?
  {
    hide TrimZeros, ScaleDecimalDigits, First;
    var point := First(mantissa, {'.'});
    if point < |mantissa| {
      assert mantissa == mantissa[..point] + "." + mantissa[point + 1..];
      d := Decimal(mantissa[..point], Some(mantissa[point + 1..]), None);
    } else {
      d := Decimal(mantissa, None, None);
    }
  }

  lemma SameMantissa(a: Decimal, b: Decimal)
    requires a.whole == b.whole && a.fraction == b.fraction
    ensures RenderMantissa(a) == RenderMantissa(b)
  {
  }

  lemma ScientificOf(mantissa: Text, mark: char, exponent: string) returns (d: Decimal)
    requires ParseScientific(mantissa, exponent).Ok? && mark in {'e', 'E'}
    ensures WellFormed(d) && Render(d) == mantissa + [mark] + exponent
  {
    hide ParseMantissa, ParseDecimalExponent, RenderMantissa;
    var m := MantissaOf(mantissa, ParseDecimalExponent(exponent).value);
    var e := ExponentOf(mark, exponent);
    d := m.(exponent := Some(e));
    SameMantissa(m, d);
    assert RenderExponent(d.exponent) == [mark] + (SignText(e.sign) + e.digits);
    assert mantissa + ([mark] + exponent) == mantissa + [mark] + exponent;
  }

  /** The decimal an accepted text spells. */
  lemma DecimalOf(text: Text) returns (d: Decimal)
    requires ParseDecimalSats(text).Ok?
    ensures WellFormed(d) && Render(d) == text
  {
    hide ParseMantissa, ParseScientific, RenderMantissa;
    var mark := First(text, {'e', 'E'});
    if mark < |text| {
      assert text == text[..mark] + [text[mark]] + text[mark + 1..];
      d := ScientificOf(text[..mark], text[mark], text[mark + 1..]);
    } else {
      d := MantissaOf(text, 0);
    }
  }

  /** Exactness: the parser returns `n` exactly when the text is digits, an optional point with
      digits and an optional signed exponent whose magnitude fits 128 bits, and its rational
      value times 10^8 is the 64-bit integer `n`. */
  lemma ParseDecimalSatsIsExact(text: Text, n: U64)
    ensures ParseDecimalSats(text) == Ok(n)
       <==> exists d :: WellFormed(d) && Render(d) == text && ExponentFits(d) && DenotesSats(d, n)
  {
    if ParseDecimalSats(text) == Ok(n) {
      var d := DecimalOf(text);
      RenderParses(d, n);
    }
    forall d | WellFormed(d) && Render(d) == text && ExponentFits(d) && DenotesSats(d, n)
      ensures ParseDecimalSats(text) == Ok(n)
    {
      RenderParses(d, n);
    }
  }

  // The wallet's parser and printer.

  const SATS: nat := 100_000_000

  function PadRight8(fraction: string): string {
    if |fraction| >= 8 then fraction else fraction + Zeros(8 - |fraction|)
  }

  function PadLeft8(digits: string): string {
    if |digits| >= 8 then digits else Zeros(8 - |digits|) + digits
  }

  /** Accepts more than a decimal: an empty fraction, and plus signs on either part. */
  function ParseSats(text: Text): Option<U64> {
    var point := First(text, {'.'});
    var whole := text[..point];
    var fraction := if point < |text| then text[point + 1..] else "0";
    if '.' in fraction || (whole != "" && whole[0] == '-') || |fraction| > 8 then None
    else ParseParts(whole, fraction)
  }

  function ParseParts(whole: string, fraction: string): Option<U64> {
    var wholeValue :- ParseU64(whole);
    var fractionValue :- ParseU64(PadRight8(fraction));
    var sats :- CheckedMul(wholeValue, SATS);
    CheckedAdd(sats, fractionValue)
  }

  function DecimalSats(value: U64): string {
    Print(value / SATS) + "." + PadLeft8(Print(value % SATS))
  }

  /** The decimal an amount is printed as. */
  function Printed(value: U64): Decimal {
    Decimal(Print(value / SATS), Some(PadLeft8(Print(value % SATS))), None)
  }

  lemma PadLeftKeepsValue(digits: string)
    requires AllDigits(digits)
    ensures AllDigits(PadLeft8(digits)) && DigitsValue(PadLeft8(digits)) == DigitsValue(digits)
  {
    if |digits| < 8 {
      var zeros := Zeros(8 - |digits|);
      ZerosAreZero(zeros);
      DigitsConcat(zeros, digits);
    }
  }

  lemma PrintedFraction(value: U64)
    ensures var f := PadLeft8(Print(value % SATS));
      |f| == 8 && AllDigits(f) && DigitsValue(f) == value % SATS
  {
    assert Pow10(8) == SATS;
    PrintIsShort(value % SATS, 8);
    PadLeftKeepsValue(Print(value % SATS));
    PrintParses(value % SATS);
  }

  lemma PowersUsed()
    ensures Pow10(8) == SATS && Pow10(0) == 1
  {
  }

  lemma WholeAndFraction(value: U64)
    ensures WellFormed(Printed(value)) && Significand(Printed(value)) == value
    ensures DenotesSats(Printed(value), value)
  {
    hide Print, PadLeft8, DigitsValue, Pow10;
    PrintedFraction(value);
    PrintParses(value / SATS);
    var d := Printed(value);
    DigitsConcat(d.whole, d.fraction.value);
    PowersUsed();
    assert Pow10(8) == SATS && Pow10(0) == 1;
  }

  lemma PrintedLength(value: U64)
    ensures Render(Printed(value)) == RenderMantissa(Printed(value)) == DecimalSats(value)
    ensures |DecimalSats(value)| <= 29 && |FractionDigits(Printed(value))| == 8
  {
    PrintedFraction(value);
    Pow10Of20(20);
    PrintIsShort(value / SATS, 20);
    var d := Printed(value);
    assert RenderMantissa(d) + "" == RenderMantissa(d);
    assert d.whole + ("." + d.fraction.value) == DecimalSats(value);
  }

  /** The scientific parser inverts the printer on every amount. */
  lemma ParseDecimalSatsInvertsPrinter(value: U64)
    ensures |DecimalSats(value)| < 0x8000_0000_0000_0000
    ensures ParseDecimalSats(DecimalSats(value)) == Ok(value)
  {
    hide Render, DecimalSats, DenotesSats;
    PrintedLength(value);
    WholeAndFraction(value);
    RenderParses(Printed(value), value);
  }

  lemma PadRightValue(fraction: string)
    requires AllDigits(fraction) && |fraction| <= 8
    ensures AllDigits(PadRight8(fraction)) && |PadRight8(fraction)| == 8
    ensures DigitsValue(PadRight8(fraction)) == DigitsValue(fraction) * Pow10(8 - |fraction|)
  {
    var zeros := Zeros(8 - |fraction|);
    ZerosAreZero(zeros);
    DigitsConcat(fraction, zeros);
    if |fraction| == 8 {
      assert fraction + zeros == fraction;
    }
  }

  lemma FractionBelowOne(padded: string)
    requires AllDigits(padded) && |padded| == 8
    ensures DigitsValue(padded) < SATS
  {
    DigitsBelow(padded);
    assert Pow10(8) == SATS;
  }

  /** On a plain decimal the wallet's parser returns its exact value, if the fraction has at
      most eight digits. */
  lemma ParseSatsIsExact(d: Decimal, n: U64)
    requires WellFormed(d) && d.exponent.None? && |RenderMantissa(d)| < 0x8000_0000_0000_0000
    ensures ParseSats(RenderMantissa(d)) == Some(n)
       <==> |FractionDigits(d)| <= 8 && DenotesSats(d, n)
  {
    hide ParseParts, DenotesSats, WellFormed, RenderMantissa;
    var fraction := d.fraction.UnwrapOr("0");
    MantissaSplits(d);
    DigitsArePlain(d);
    if |fraction| <= 8 {
      PartsAreExact(d.whole, fraction);
      FractionIsFraction(d);
      WholeScales(d, n);
    }
  }

  lemma DigitsArePlain(d: Decimal)
    requires WellFormed(d)
    ensures d.whole != "" && d.whole[0] != '-' && AllDigits(d.whole)
    ensures '.' !in d.fraction.UnwrapOr("0") && AllDigits(d.fraction.UnwrapOr("0"))
  {
  }

  /** No fraction counts as a zero one. */
  lemma FractionIsFraction(d: Decimal)
    requires WellFormed(d)
    ensures var f := d.fraction.UnwrapOr("0");
      |f| <= 8 ==> DigitsValue(f) * Pow10(8 - |f|) == DigitsValue(FractionDigits(d)) * Pow10(8 - |FractionDigits(d)|)
  {
    ZerosAreZero("0");
  }

  lemma PartsAreExact(whole: string, fraction: string)
    requires AllDigits(whole) && whole != "" && AllDigits(fraction) && |fraction| <= 8
    ensures var sats := DigitsValue(whole) * SATS + DigitsValue(fraction) * Pow10(8 - |fraction|);
      ParseParts(whole, fraction) == if sats < U64_BOUND then Some(sats) else None
  {
    hide PadRight8, DigitsValue, Pow10, ParseU64;
    PadRightValue(fraction);
    FractionBelowOne(PadRight8(fraction));
    ParsePlain(PadRight8(fraction));
    ParsePlain(whole);
  }

  lemma WholeScales(d: Decimal, n: nat)
    requires WellFormed(d) && d.exponent.None? && |FractionDigits(d)| <= 8
    ensures DenotesSats(d, n)
       <==> n == DigitsValue(d.whole) * SATS + DigitsValue(FractionDigits(d)) * Pow10(8 - |FractionDigits(d)|)
  {
    var f := FractionDigits(d);
    DigitsConcat(d.whole, f);
    Pow10Adds(|f|, 8 - |f|);
    assert Pow10(8) == SATS;
    Distributes(DigitsValue(d.whole), Pow10(|f|), DigitsValue(f), Pow10(8 - |f|));
  }

  lemma Distributes(w: nat, p: nat, f: nat, q: nat)
    ensures (w * p + f) * q == w * (p * q) + f * q
  {
  }

  /** The wallet's parser inverts its printer on every amount. */
  lemma ParseSatsInvertsPrinter(value: U64)
    ensures |DecimalSats(value)| < 0x8000_0000_0000_0000
    ensures ParseSats(DecimalSats(value)) == Some(value)
  {
    hide ParseSats, DecimalSats, DenotesSats;
    PrintedLength(value);
    PrintedFraction(value);
    WholeAndFraction(value);
    ParseSatsIsExact(Printed(value), value);
  }

  /** Whenever both parsers accept a text they return the same amount. */
  lemma ParsersAgree(text: Text)
    requires ParseDecimalSats(text).Ok? && ParseSats(text).Some?
    ensures ParseDecimalSats(text).value == ParseSats(text).value
  {
    var d := DecimalOf(text);
    ScientificIsNotPlain(text, d);
    RenderParses(d, ParseDecimalSats(text).value);
    ParseSatsIsExact(d, ParseSats(text).value);
    RenderParses(d, ParseSats(text).value);
  }

  lemma ScientificIsNotPlain(text: Text, d: Decimal)
    requires WellFormed(d) && Render(d) == text && ParseSats(text).Some?
    ensures d.exponent.None? && RenderMantissa(d) == text
  {
    RenderSplits(d);
    if d.exponent.Some? {
      LetterIsRefused(text, |RenderMantissa(d)|);
    } else {
      assert Render(d) == RenderMantissa(d);
    }
  }

  lemma LetterIsRefused(text: Text, mark: nat)
    requires mark < |text| && text[mark] in {'e', 'E'}
    ensures ParseSats(text).None?
  {
    var point := First(text, {'.'});
    if mark < point {
      assert text[..point][mark] == text[mark];
      LetterIsNoNumber(text[..point], mark);
    } else {
      var fraction := text[point + 1..];
      assert mark != point && fraction[mark - point - 1] == text[mark];
      assert PadRight8(fraction)[mark - point - 1] == text[mark];
      LetterIsNoNumber(PadRight8(fraction), mark - point - 1);
    }
  }

  lemma LetterIsNoNumber(text: string, k: nat)
    requires k < |text| && text[k] in {'e', 'E'}
    ensures ParseU64(text).None?
  {
    if k > 0 {
      assert text[1..][k - 1] == text[k];
    }
  }

  // Every text the wallet's parser accepts.

  datatype WalletFraction = WalletFraction(plus: bool, digits: string)

  datatype WalletDecimal = WalletDecimal(plus: bool, whole: string, fraction: Option<WalletFraction>)

  function PlusText(plus: bool): string {
    if plus then "+" else ""
  }

  function WalletFractionText(f: WalletFraction): string {
    PlusText(f.plus) + f.digits
  }

  /** Digits with an optional plus; after a point an optional plus and at most eight characters
      of digits, possibly none. */
  predicate WalletForm(w: WalletDecimal) {
    && w.whole != "" && AllDigits(w.whole)
    && (w.fraction.Some? ==> AllDigits(w.fraction.value.digits) && |WalletFractionText(w.fraction.value)| <= 8)
  }

  function RenderWallet(w: WalletDecimal): string {
    PlusText(w.plus) + w.whole + (if w.fraction.Some? then "." + WalletFractionText(w.fraction.value) else "")
  }

  /** A plus in the fraction takes the place of a digit: the digits after it are padded to seven
      places and still count single satoshis, so "1.+1" is 1.01 coins. */
  function WalletSats(w: WalletDecimal): nat
    requires WalletForm(w)
  {
    DigitsValue(w.whole) * SATS
    + if w.fraction.None? then 0
      else DigitsValue(w.fraction.value.digits) * Pow10(8 - |WalletFractionText(w.fraction.value)|)
  }

  lemma PlusParses(plus: bool, digits: string)
    requires AllDigits(digits) && digits != ""
    ensures ParseU64(PlusText(plus) + digits)
         == if DigitsValue(digits) < U64_BOUND then Some(DigitsValue(digits)) else None
  {
    var text := PlusText(plus) + digits;
    if plus {
      assert text[0] == '+' && text[1..] == digits;
    } else {
      assert text == digits;
    }
  }

  lemma FractionParses(f: WalletFraction)
    requires AllDigits(f.digits) && |WalletFractionText(f)| <= 8
    ensures ParseU64(PadRight8(WalletFractionText(f)))
        == Some(DigitsValue(f.digits) * Pow10(8 - |WalletFractionText(f)|))
    ensures DigitsValue(f.digits) * Pow10(8 - |WalletFractionText(f)|) < SATS
  {
    hide Pow10, DigitsValue, ParseU64;
    var text := WalletFractionText(f);
    var zeros := Zeros(8 - |text|);
    var padded := f.digits + zeros;
    PowersUsed();
    ZerosAreZero(zeros);
    DigitsConcat(f.digits, zeros);
    DigitsBelow(padded);
    Pow10Monotone(|padded|, 8);
    if |text| == 8 {
      assert padded == f.digits && PadRight8(text) == text;
    }
    assert PadRight8(text) == PlusText(f.plus) + padded;
    PlusParses(f.plus, padded);
  }

  lemma WalletSplits(w: WalletDecimal)
    requires WalletForm(w)
    ensures var text, whole := RenderWallet(w), PlusText(w.plus) + w.whole;
      && First(text, {'.'}) == |whole| && text[..|whole|] == whole && whole != "" && whole[0] != '-'
      && (w.fraction.Some? <==> |whole| < |text|)
      && (w.fraction.Some? ==> text[|whole| + 1..] == WalletFractionText(w.fraction.value)
                               && '.' !in WalletFractionText(w.fraction.value))
  {
    var text, whole := RenderWallet(w), PlusText(w.plus) + w.whole;
    forall i | 0 <= i < |whole| ensures text[i] == whole[i] && (whole[i] == '+' || IsDigit(whole[i])) {
      assert i >= |PlusText(w.plus)| ==> whole[i] == w.whole[i - |PlusText(w.plus)|];
    }
    FirstIs(text, {'.'}, |whole|);
    if w.fraction.Some? {
      var f := w.fraction.value;
      forall i | 0 <= i < |WalletFractionText(f)| ensures WalletFractionText(f)[i] != '.' {
        assert i >= |PlusText(f.plus)| ==> WalletFractionText(f)[i] == f.digits[i - |PlusText(f.plus)|];
      }
    }
  }

  lemma WalletParses(w: WalletDecimal)
    requires WalletForm(w) && |RenderWallet(w)| < 0x8000_0000_0000_0000
    ensures ParseSats(RenderWallet(w)) == if WalletSats(w) < U64_BOUND then Some(WalletSats(w)) else None
  {
    hide First, RenderWallet, PadRight8, ParseU64, Pow10, DigitsValue;
    WalletSplits(w);
    PlusParses(w.plus, w.whole);
    if w.fraction.Some? {
      FractionParses(w.fraction.value);
    } else {
      ZeroFraction();
    }
  }

  lemma ZeroFraction()
    ensures ParseU64(PadRight8("0")) == Some(0)
  {
    var padded := PadRight8("0");
    assert AllZeros(padded);
    ZerosAreZero(padded);
  }

  /** The sign and digits a parsed number spells. */
  lemma NumberSpells(text: string) returns (plus: bool, digits: string)
    requires ParseU64(text).Some?
    ensures text == PlusText(plus) + digits && digits != "" && AllDigits(digits)
  {
    plus := text[0] == '+';
    digits := if plus then text[1..] else text;
  }

  lemma FractionSpells(text: string) returns (f: WalletFraction)
    requires |text| <= 8 && ParseU64(PadRight8(text)).Some?
    ensures WalletFractionText(f) == text && AllDigits(f.digits)
  {
    hide DigitsValue, ParseU64;
    var padded := PadRight8(text);
    var plus, digits := NumberSpells(padded);
    if text == "" {
      f := WalletFraction(false, "");
    } else {
      assert padded[0] == text[0];
      f := WalletFraction(plus, if plus then text[1..] else text);
      forall i | 0 <= i < |f.digits| ensures IsDigit(f.digits[i]) {
        var k := i + |PlusText(plus)|;
        assert f.digits[i] == text[k] && padded[k] == text[k] && (PlusText(plus) + digits)[k] == digits[i];
      }
    }
  }

  lemma BothPartsParse(whole: string, fraction: string)
    requires ParseParts(whole, fraction).Some?
    ensures ParseU64(whole).Some? && ParseU64(PadRight8(fraction)).Some?
  {
  }

  /** The form an accepted text has. */
  lemma WalletOf(text: Text) returns (w: WalletDecimal)
    requires ParseSats(text).Some?
    ensures WalletForm(w) && RenderWallet(w) == text
  {
    hide First, PadRight8, ParseParts, ParseU64, DigitsValue, RenderWallet;
    var point := First(text, {'.'});
    BothPartsParse(text[..point], if point < |text| then text[point + 1..] else "0");
    var plus, whole := NumberSpells(text[..point]);
    if point < |text| {
      var f := FractionSpells(text[point + 1..]);
      w := WalletDecimal(plus, whole, Some(f));
      JoinsAt(text, point);
      RendersAs(w, text[..point], "." + text[point + 1..]);
    } else {
      w := WalletDecimal(plus, whole, None);
      RendersAs(w, text, "");
    }
  }

  lemma JoinsAt(text: string, point: nat)
    requires point < |text| && text[point] == '.'
    ensures text == text[..point] + ("." + text[point + 1..])
  {
  }

  lemma RendersAs(w: WalletDecimal, front: string, back: string)
    requires front == PlusText(w.plus) + w.whole
    requires back == if w.fraction.Some? then "." + WalletFractionText(w.fraction.value) else ""
    ensures RenderWallet(w) == front + back
  {
  }

  /** The wallet's parser on every text: it returns `n` exactly when the text has the form above
      and `n` is its amount, below 2^64. */
  lemma ParseSatsOnEveryText(text: Text, n: U64)
    ensures ParseSats(text) == Some(n)
       <==> exists w :: WalletForm(w) && RenderWallet(w) == text && WalletSats(w) == n
  {
    hide ParseSats, RenderWallet, WalletSats;
    if ParseSats(text) == Some(n) {
      var w := WalletOf(text);
      WalletParses(w);
    }
    forall w | WalletForm(w) && RenderWallet(w) == text && WalletSats(w) == n ensures ParseSats(text) == Some(n) {
      WalletParses(w);
    }
  }

  // Where the two parsers differ.

  /** A leading plus, nothing after the point, or a plus after it. */
  predicate WalletSpelling(text: string) {
    var point := First(text, {'.'});
    || (text != "" && text[0] == '+')
    || point + 1 == |text|
    || (point + 1 < |text| && text[point + 1] == '+')
  }

  /** An exponent, or a fraction of more than eight characters. */
  predicate NodeSpelling(text: string) {
    var point := First(text, {'.'});
    (exists i :: 0 <= i < |text| && text[i] in {'e', 'E'}) || point + 9 < |text|
  }

  lemma FirstOfWallet(w: WalletDecimal)
    requires WalletForm(w)
    ensures WalletSpelling(RenderWallet(w))
       <==> w.plus || (w.fraction.Some? && (w.fraction.value.plus || w.fraction.value.digits == ""))
  {
    WalletSplits(w);
    var text, whole := RenderWallet(w), PlusText(w.plus) + w.whole;
    assert text[0] == whole[0];
    if w.fraction.Some? {
      var fraction := WalletFractionText(w.fraction.value);
      assert |text| == |whole| + 1 + |fraction|;
      if fraction != "" {
        assert text[|whole| + 1] == fraction[0];
      }
    }
  }

  /** A text spelled without those is a plain decimal of the same amount. */
  lemma PlainSpelling(w: WalletDecimal) returns (d: Decimal)
    requires WalletForm(w) && !WalletSpelling(RenderWallet(w))
    ensures WellFormed(d) && d.exponent.None? && Render(d) == RenderWallet(w) && |FractionDigits(d)| <= 8
    ensures forall n: nat :: WalletSats(w) == n <==> DenotesSats(d, n)
  {
    hide DenotesSats, First, WalletSpelling;
    FirstOfWallet(w);
    d := Decimal(w.whole, if w.fraction.Some? then Some(w.fraction.value.digits) else None, None);
    assert WellFormed(d);
    PlainRender(w, d);
    forall n: nat ensures WalletSats(w) == n <==> DenotesSats(d, n) {
      WholeScales(d, n);
    }
  }

  lemma PlainRender(w: WalletDecimal, d: Decimal)
    requires !w.plus && d.whole == w.whole && d.exponent.None? && (d.fraction.Some? <==> w.fraction.Some?)
    requires w.fraction.Some? ==> !w.fraction.value.plus && d.fraction.value == w.fraction.value.digits
    ensures Render(d) == RenderWallet(w)
    ensures w.fraction.Some? ==> WalletFractionText(w.fraction.value) == d.fraction.value
  {
    if w.fraction.Some? {
      assert WalletFractionText(w.fraction.value) == d.fraction.value;
    }
    assert PlusText(w.plus) + w.whole == d.whole;
    assert Render(d) == RenderMantissa(d);
  }

  /** What a node's text never has. */
  lemma NodeTextIsPlain(text: Text)
    requires ParseDecimalSats(text).Ok? && ParseSats(text).Some?
    ensures !WalletSpelling(text)
  {
    hide ParseDecimalSats, ParseSats, First;
    var d := DecimalOf(text);
    ScientificIsNotPlain(text, d);
    MantissaSplits(d);
    assert text[..|d.whole|][0] == text[0] && IsDigit(d.whole[0]);
    if d.fraction.Some? {
      assert text[|d.whole| + 1..][0] == d.fraction.value[0];
    }
  }

  /** The wallet's parser accepts a text that the node parser refuses exactly when it accepts it
      and the text starts with a plus, ends in its point, or has a plus after its point. */
  lemma WalletOnlyTexts(text: Text)
    ensures ParseSats(text).Some? && ParseDecimalSats(text).Err?
       <==> ParseSats(text).Some? && WalletSpelling(text)
  {
    hide ParseDecimalSats, ParseSats, WalletSpelling, DenotesSats, Render, RenderWallet;
    if ParseSats(text).Some? {
      var n := ParseSats(text).value;
      if WalletSpelling(text) {
        if ParseDecimalSats(text).Ok? {
          NodeTextIsPlain(text);
        }
      } else {
        var w := WalletOf(text);
        WalletParses(w);
        var d := PlainSpelling(w);
        assert DenotesSats(d, n) && ExponentFits(d);
        ParseDecimalSatsIsExact(text, n);
      }
    }
  }

  /** The other way around: an exponent, or a fraction of more than eight digits. */
  lemma NodeOnlyTexts(text: Text)
    ensures ParseDecimalSats(text).Ok? && ParseSats(text).None?
       <==> ParseDecimalSats(text).Ok? && NodeSpelling(text)
  {
    hide ParseDecimalSats, First, DenotesSats, Render;
    if ParseDecimalSats(text).Ok? {
      if i :| 0 <= i < |text| && text[i] in {'e', 'E'} {
        LetterIsRefused(text, i);
      } else if First(text, {'.'}) + 9 >= |text| {
        NodeTextIsShared(text);
      }
    }
  }

  lemma NodeTextIsShared(text: Text)
    requires ParseDecimalSats(text).Ok? && (forall i :: 0 <= i < |text| ==> text[i] !in {'e', 'E'})
    requires First(text, {'.'}) + 9 >= |text|
    ensures ParseSats(text).Some?
  {
    hide ParseDecimalSats, ParseSats, First, DenotesSats, RenderMantissa;
    var d := DecimalOf(text);
    var n := ParseDecimalSats(text).value;
    RenderSplits(d);
    assert d.exponent.None?;
    assert Render(d) == RenderMantissa(d);
    MantissaSplits(d);
    RenderParses(d, n);
    ParseSatsIsExact(d, n);
  }

  lemma SpellingOf(w: WalletDecimal, text: string)
    requires WalletForm(w) && RenderWallet(w) == text && WalletSats(w) < U64_BOUND && |text| < 0x8000_0000_0000_0000
    ensures ParseSats(text) == Some(WalletSats(w))
    ensures ParseDecimalSats(text).Err?
       <==> w.plus || (w.fraction.Some? && (w.fraction.value.plus || w.fraction.value.digits == ""))
  {
    hide ParseDecimalSats, ParseSats, WalletSpelling, RenderWallet, WalletSats;
    WalletParses(w);
    FirstOfWallet(w);
    WalletOnlyTexts(text);
  }

  /** The wallet's parser alone accepts an empty fraction, */
  lemma EmptyFractionDiffers()
    ensures ParseSats("5.") == Some(500_000_000) && ParseDecimalSats("5.").Err?
  {
    hide ParseSats, ParseDecimalSats;
    SpellingOf(WalletDecimal(false, "5", Some(WalletFraction(false, ""))), "5.");
  }

  /** a plus sign inside the number, */
  lemma InnerPlusDiffers()
    ensures ParseSats("1.+1") == Some(101_000_000) && ParseDecimalSats("1.+1").Err?
  {
    hide ParseSats, ParseDecimalSats;
    assert Pow10(6) == 1_000_000;
    SpellingOf(WalletDecimal(false, "1", Some(WalletFraction(true, "1"))), "1.+1");
  }

  /** and one in front of it. */
  lemma LeadingPlusDiffers()
    ensures ParseSats("+5") == Some(500_000_000) && ParseDecimalSats("+5").Err?
  {
    hide ParseSats, ParseDecimalSats;
    SpellingOf(WalletDecimal(true, "5", None), "+5");
  }
}
