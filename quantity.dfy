/** Quantities and prices as the order forms handle them: strings read with `parseFloat`
    and written back with `toFixed(3)`. A value is kept as an integer number of
    thousandths, so sums are exact; the floating-point rounding of the original is not
    modelled. `parseFloat` is modelled on plain decimals (`12`, `-3.5`, `0.125`) with at
    most three fraction digits; every other string reads as NaN (`None`). */
module Quantity {
  import opened Wrappers
  import opened Text
  import Seqs

  /** Thousandths per unit of one fraction digit, for a fraction of `len` digits. */
  function FractionScale(len: nat): nat
    requires 1 <= len <= 3
  {
    if len == 1 then 100 else if len == 2 then 10 else 1
  }

  predicate IsDot(c: char) {
    c == '.'
  }

  /** The digits before and after the dot, read as thousandths. */
  function ParseParts(whole: string, fraction: string): (r: Option<int>)
    ensures r.Some? ==> r.value >= 0
  {
    if whole != [] && AllDigits(whole) && 1 <= |fraction| <= 3 && AllDigits(fraction)
    then Some(DigitsValue(whole) * 1000 + DigitsValue(fraction) * FractionScale(|fraction|))
    else None
  }

  function ParseUnsigned(s: string): (r: Option<int>)
    ensures r.Some? ==> r.value >= 0
  {
    match Seqs.FindIndex(s, IsDot)
    case None =>
      if s != [] && AllDigits(s) then Some(DigitsValue(s) * 1000) else None
    case Some(k) => ParseParts(s[..k], s[k + 1..])
  }

  /** `parseFloat(s)` in thousandths; `None` is NaN. */
  function Parse(s: string): Option<int> {
    if s != [] && s[0] == '-' then
      match ParseUnsigned(s[1..])
      case None => None
      case Some(v) => Some(-v)
    else ParseUnsigned(s)
  }

  function Pad3(r: nat): string
    requires r < 1000
  {
    [DigitChar(r / 100), DigitChar(r / 10 % 10), DigitChar(r % 10)]
  }

  function FormatUnsigned(n: nat): string {
    DecimalString(n / 1000) + "." + Pad3(n % 1000)
  }

  /** `x.toFixed(3)` for a value of `q` thousandths. */
  function Format(q: int): string {
    if q < 0 then "-" + FormatUnsigned(-q) else FormatUnsigned(q)
  }

  /** The fraction digits of `r` thousandths as `Number#toString` writes them: trailing
      zeros dropped. */
  function FractionDigits(r: nat): string
    requires 0 < r < 1000
  {
    if r % 100 == 0 then [DigitChar(r / 100)]
    else if r % 10 == 0 then [DigitChar(r / 100), DigitChar(r / 10 % 10)]
    else Pad3(r)
  }

  function ToStringUnsigned(n: nat): string {
    if n % 1000 == 0 then DecimalString(n / 1000)
    else DecimalString(n / 1000) + "." + FractionDigits(n % 1000)
  }

  /** `x.toString()` for a value of `q` thousandths: no fraction for a whole number, else
      the shortest fraction (`2.5`, `1.75`, `0.125`). */
  function ToString(q: int): string {
    if q < 0 then "-" + ToStringUnsigned(-q) else ToStringUnsigned(q)
  }

  /** `x.toFixed(3)` where `x` may be NaN. */
  function FormatOrNaN(q: Option<int>): string {
    match q
    case Some(v) => Format(v)
    case None => "NaN"
  }

  /** JavaScript's `s || fallback` on strings: only the empty string is falsy. */
  function OrElse(s: string, fallback: string): string {
    if s == "" then fallback else s
  }

  /** NaN-propagating addition. */
  function Add(a: Option<int>, b: Option<int>): (r: Option<int>)
    ensures r.Some? <==> a.Some? && b.Some?
    ensures r.Some? ==> r.value == a.value + b.value
  {
    if a.Some? && b.Some? then Some(a.value + b.value) else None
  }

  /** `(parseFloat(a) + parseFloat(b)).toFixed(3)`. */
  function SumText(a: string, b: string): string {
    FormatOrNaN(Add(Parse(a), Parse(b)))
  }

  lemma Pad3Value(r: nat)
    requires r < 1000
    ensures AllDigits(Pad3(r)) && DigitsValue(Pad3(r)) == r
  {
    var a, b, c := DigitChar(r / 100), DigitChar(r / 10 % 10), DigitChar(r % 10);
    assert [a, b, c][..2] == [a, b];
    assert [a, b][..1] == [a];
    assert [a][..0] == [];
    assert DigitsValue([a]) == r / 100;
    assert DigitsValue([a, b]) == r / 100 * 10 + r / 10 % 10;
  }

  /** In digits followed by a dot, the first dot is the one right after the digits. */
  lemma FirstDot(whole: string, rest: string)
    requires AllDigits(whole)
    ensures Seqs.FindIndex(whole + "." + rest, IsDot) == Some(|whole|)
  {
    var s := whole + "." + rest;
    forall j | 0 <= j < |whole|
      ensures !IsDot(s[j])
    {
      assert s[j] == whole[j];
    }
    assert IsDot(s[|whole|]);
  }

  /** Digits and three fraction digits read as that many thousandths. */
  lemma ParsePartsThousandths(whole: string, fraction: string, n: nat)
    requires whole != [] && AllDigits(whole) && |fraction| == 3 && AllDigits(fraction)
    requires DigitsValue(whole) * 1000 + DigitsValue(fraction) == n
    ensures ParseParts(whole, fraction) == Some(n)
  {
  }

  /** Digits, a dot and three digits read as that many thousandths. */
  lemma ParseThousandths(whole: string, fraction: string, n: nat)
    requires whole != [] && AllDigits(whole) && |fraction| == 3 && AllDigits(fraction)
    requires DigitsValue(whole) * 1000 + DigitsValue(fraction) == n
    ensures ParseUnsigned(whole + "." + fraction) == Some(n)
  {
    var s := whole + "." + fraction;
    FirstDot(whole, fraction);
    assert s[..|whole|] == whole;
    assert s[|whole| + 1..] == fraction;
    ParsePartsThousandths(whole, fraction, n);
  }

  lemma ParseFormatUnsigned(n: nat)
    ensures ParseUnsigned(FormatUnsigned(n)) == Some(n)
  {
    DecimalStringValue(n / 1000);
    Pad3Value(n % 1000);
    ParseThousandths(DecimalString(n / 1000), Pad3(n % 1000), n);
  }

  /** A non-negative value is written without a sign, starting with a digit. */
  lemma ParseFormatNonNegative(q: int)
    requires q >= 0
    ensures Parse(Format(q)) == Some(q)
  {
    var w := DecimalString(q / 1000);
    var s := Format(q);
    assert s == FormatUnsigned(q);
    ParseFormatUnsigned(q);
    assert s[0] == w[0];
    assert IsDigit(w[0]);
  }

  /** A minus sign before a text that reads as the magnitude of `q` reads as `q`. */
  lemma ParseMinus(u: string, q: int)
    requires ParseUnsigned(u) == Some(-q)
    ensures Parse("-" + u) == Some(q)
  {
    var s := "-" + u;
    assert s[0] == '-';
    assert s[1..] == u;
  }

  /** A negative value is written as a minus sign before its magnitude. */
  lemma FormatNegative(q: int)
    requires q < 0
    ensures Format(q) == "-" + FormatUnsigned(-q)
  {
  }

  lemma ParseFormatNegative(q: int)
    requires q < 0
    ensures Parse("-" + FormatUnsigned(-q)) == Some(q)
  {
    ParseFormatUnsigned(-q);
    ParseMinus(FormatUnsigned(-q), q);
  }

  /** `parseFloat(x.toFixed(3))` gives back `x`: a total written by the form reads back as
      the same quantity. */
  lemma ParseFormat(q: int)
    ensures Parse(Format(q)) == Some(q)
  {
    if q < 0 {
      FormatNegative(q);
      ParseFormatNegative(q);
    } else {
      ParseFormatNonNegative(q);
    }
  }

  /** The trimmed fraction digits of `r` are one to three digits worth `r` thousandths,
      and the last of them is not a zero. */
  lemma FractionDigitsValue(r: nat)
    requires 0 < r < 1000
    ensures var f := FractionDigits(r);
            1 <= |f| <= 3 && AllDigits(f) && DigitsValue(f) * FractionScale(|f|) == r && f[|f| - 1] != '0'
  {
    var a, b := DigitChar(r / 100), DigitChar(r / 10 % 10);
    assert [a][..0] == [];
    assert DigitsValue([a]) == r / 100;
    if r % 100 != 0 && r % 10 == 0 {
      assert [a, b][..1] == [a];
      assert DigitsValue([a, b]) == r / 100 * 10 + r / 10 % 10;
    } else if r % 10 != 0 {
      Pad3Value(r);
    }
  }

  /** Digits without a dot read as that many units. */
  lemma ParseWhole(whole: string, n: nat)
    requires whole != [] && AllDigits(whole) && DigitsValue(whole) * 1000 == n
    ensures ParseUnsigned(whole) == Some(n)
  {
    forall j | 0 <= j < |whole|
      ensures !IsDot(whole[j])
    {
      assert IsDigit(whole[j]);
    }
  }

  /** Digits, a dot and one to three fraction digits read as that many thousandths. */
  lemma ParseDecimal(whole: string, fraction: string, n: nat)
    requires whole != [] && AllDigits(whole) && 1 <= |fraction| <= 3 && AllDigits(fraction)
    requires DigitsValue(whole) * 1000 + DigitsValue(fraction) * FractionScale(|fraction|) == n
    ensures ParseUnsigned(whole + "." + fraction) == Some(n)
  {
    var s := whole + "." + fraction;
    FirstDot(whole, fraction);
    assert s[..|whole|] == whole;
    assert s[|whole| + 1..] == fraction;
    ParsePartsDecimal(whole, fraction, n);
  }

  lemma ParsePartsDecimal(whole: string, fraction: string, n: nat)
    requires whole != [] && AllDigits(whole) && 1 <= |fraction| <= 3 && AllDigits(fraction)
    requires DigitsValue(whole) * 1000 + DigitsValue(fraction) * FractionScale(|fraction|) == n
    ensures ParseParts(whole, fraction) == Some(n)
  {
  }

  lemma ParseToStringUnsigned(n: nat)
    ensures ParseUnsigned(ToStringUnsigned(n)) == Some(n)
  {
    DecimalStringValue(n / 1000);
    if n % 1000 == 0 {
      ParseWhole(DecimalString(n / 1000), n);
    } else {
      FractionDigitsValue(n % 1000);
      ParseDecimal(DecimalString(n / 1000), FractionDigits(n % 1000), n);
    }
  }

  /** A non-negative value is written without a sign, starting with a digit. */
  lemma ParseToStringNonNegative(q: int)
    requires q >= 0
    ensures Parse(ToString(q)) == Some(q)
  {
    var w := DecimalString(q / 1000);
    var s := ToString(q);
    assert s == ToStringUnsigned(q);
    ParseToStringUnsigned(q);
    assert s[0] == w[0];
    assert IsDigit(w[0]);
  }

  lemma ToStringNegative(q: int)
    requires q < 0
    ensures ToString(q) == "-" + ToStringUnsigned(-q)
  {
  }

  lemma ParseToStringNegative(q: int)
    requires q < 0
    ensures Parse("-" + ToStringUnsigned(-q)) == Some(q)
  {
    var n: nat := -q;
    var u := ToStringUnsigned(n);
    ParseToStringUnsigned(n);
    ParseMinus(u, q);
  }

  /** `parseFloat(x.toString())` gives back `x`: the price an edit form is filled with reads
      back as the plan's price. */
  lemma ParseToString(q: int)
    ensures Parse(ToString(q)) == Some(q)
  {
    if q < 0 {
      ToStringNegative(q);
      ParseToStringNegative(q);
    } else {
      ParseToStringNonNegative(q);
    }
  }

  /** The text "NaN" reads back as NaN. */
  lemma ParseNaN()
    ensures Parse("NaN") == None
  {
    var s := "NaN";
    assert !IsDigit(s[0]);
    assert Seqs.FindIndex(s, IsDot) == None by {
      assert !IsDot(s[0]) && !IsDot(s[1]) && !IsDot(s[2]);
    }
  }

  /** What `FormatOrNaN` writes reads back as the value it was given, NaN included, and it
      writes "NaN" for NaN only. */
  lemma ParseFormatOrNaN(q: Option<int>)
    ensures Parse(FormatOrNaN(q)) == q
    ensures FormatOrNaN(q) == "NaN" <==> q.None?
  {
    ParseNaN();
    if q.Some? {
      ParseFormat(q.value);
    }
  }

  /** The text `(parseFloat(a) + parseFloat(b)).toFixed(3)` reads back as the exact sum of
      the two parts, and is "NaN" exactly when either part is not a number. */
  lemma SumTextMeansSum(a: string, b: string)
    ensures Parse(SumText(a, b)) == Add(Parse(a), Parse(b))
    ensures SumText(a, b) == "NaN" <==> Parse(a).None? || Parse(b).None?
  {
    ParseFormatOrNaN(Add(Parse(a), Parse(b)));
  }
}
