/**
 * Reading a number typed by the user: the comma-to-period replacement followed by
 * Python's float() conversion (main.py:91 and main.py:109), and the "must be
 * positive" check that both handlers apply to the result.
 *
 * float() is modelled as a plain decimal reader: an optional sign, decimal
 * digits and at most one decimal point, with at least one digit.
 */
module Decimal {
  import opened Wrappers

  predicate IsDigit(c: char) {
    '0' <= c <= '9'
  }

  predicate AllDigits(s: string) {
    forall i :: 0 <= i < |s| ==> IsDigit(s[i])
  }

  function DigitValue(c: char): (d: nat)
    requires IsDigit(c)
    ensures d < 10
  {
    (c as int) - ('0' as int)
  }

  function DigitChar(d: nat): (c: char)
    requires d < 10
    ensures IsDigit(c) && DigitValue(c) == d
  {
    ('0' as int + d) as char
  }

  function Pow10(n: nat): (p: nat)
    ensures p >= 1
  {
    if n == 0 then 1 else 10 * Pow10(n - 1)
  }

  /** The value of a string of decimal digits, most significant first; "" reads as 0. */
  function DigitsValue(s: string): (v: nat)
    requires AllDigits(s)
    ensures v < Pow10(|s|)
  {
    if s == [] then 0 else DigitsValue(s[..|s| - 1]) * 10 + DigitValue(s[|s| - 1])
  }

  /** The position of the first occurrence of `c` in `s`. */
  function IndexOf(s: string, c: char): (k: nat)
    requires c in s
    ensures k < |s| && s[k] == c && c !in s[..k]
  {
    if s[0] == c then 0
    else
      var k := 1 + IndexOf(s[1..], c);
      assert s[..k] == [s[0]] + s[1..][..k - 1];
      k
  }

  /** `text.replace(',', '.')`: every comma becomes a period, nothing else changes. */
  function ReplaceComma(s: string): (r: string)
    ensures |r| == |s| && ',' !in r
    ensures forall i :: 0 <= i < |s| ==> r[i] == if s[i] == ',' then '.' else s[i]
  {
    if s == [] then [] else [if s[0] == ',' then '.' else s[0]] + ReplaceComma(s[1..])
  }

  /**
   * An unsigned decimal: digits, optionally split by one period, with at least one
   * digit on either side ("5", "5.", ".5", "70.5"); anything else is rejected.
   */
  function ParseUnsigned(s: string): (r: Option<real>)
    ensures r.Some? ==> |s| > 0 && r.value >= 0.0
    ensures r.Some? ==> IsDigit(s[0]) || s[0] == '.'
  {
    if '.' in s then
      var k := IndexOf(s, '.');
      var whole, frac := s[..k], s[k + 1..];
      if AllDigits(whole) && AllDigits(frac) && |whole| + |frac| > 0 then
        Some(PointValue(whole, frac))
      else
        None
    else if |s| > 0 && AllDigits(s) then
      Some(DigitsValue(s) as real)
    else
      None
  }

  /** The value of `whole.frac`, both parts strings of digits. */
  function PointValue(whole: string, frac: string): real
    requires AllDigits(whole) && AllDigits(frac)
  {
    DigitsValue(whole) as real + DigitsValue(frac) as real / Pow10(|frac|) as real
  }

  /** float() on a decimal: an optional leading '+' or '-' before an unsigned decimal. */
  function ParseDecimal(s: string): (r: Option<real>)
    ensures r.Some? ==> |s| > 0 && (IsDigit(s[0]) || s[0] in "+-.")
    ensures r.Some? && s[0] == '-' ==> r.value <= 0.0
    ensures r.Some? && s[0] != '-' ==> r.value >= 0.0
  {
    if |s| > 0 && s[0] == '-' then
      match ParseUnsigned(s[1..])
      case Some(v) => Some(-v)
      case None => None
    else if |s| > 0 && s[0] == '+' then
      ParseUnsigned(s[1..])
    else
      ParseUnsigned(s)
  }

  /**
   * The value a handler accepts from the text of a message: the text with commas
   * replaced by periods must read as a number, and the number must be above zero
   * (main.py:91-93, main.py:109-111). None stands for the ValueError branch.
   */
  function ParsePositive(text: string): (r: Option<real>)
    ensures r.Some? ==> r.value > 0.0
    ensures r.Some? ==> ParseDecimal(ReplaceComma(text)) == r
    ensures var p := ParseDecimal(ReplaceComma(text)); p.Some? && p.value > 0.0 ==> r == p
    ensures |text| > 0 && text[0] == '-' ==> r.None?
    ensures r.Some? ==> |text| > 0 && (IsDigit(text[0]) || text[0] in "+.,")
  {
    match ParseDecimal(ReplaceComma(text))
    case Some(v) => if v > 0.0 then Some(v) else None
    case None => None
  }

  /** The decimal digits of `n`, most significant first, without leading zeros. */
  function ShowNat(n: nat): (s: string)
    ensures |s| > 0 && AllDigits(s) && '.' !in s
    ensures s[0] != '0' || n == 0
  {
    if n < 10 then [DigitChar(n)] else ShowNat(n / 10) + [DigitChar(n % 10)]
  }

  /** Reading the digits of a number gives back the number. */
  lemma {:induction false} DigitsValueShowNat(n: nat)
    ensures DigitsValue(ShowNat(n)) == n
  {
    var s := ShowNat(n);
    if n >= 10 {
      assert s[..|s| - 1] == ShowNat(n / 10);
      DigitsValueShowNat(n / 10);
    }
  }

  /** The parser reads back what ShowNat writes, and accepts it exactly when it is not zero. */
  lemma ParseShowNat(n: nat)
    ensures ParseDecimal(ShowNat(n)) == Some(n as real)
    ensures ParsePositive(ShowNat(n)) == if n > 0 then Some(n as real) else None
  {
    var s := ShowNat(n);
    DigitsValueShowNat(n);
    assert ReplaceComma(s) == s;
  }

  /** In digits followed by a point, the first point is the one after the digits. */
  lemma PointAfterDigits(whole: string, rest: string)
    requires AllDigits(whole)
    ensures IndexOf(whole + "." + rest, '.') == |whole|
  {
    var s := whole + "." + rest;
    assert s[|whole|] == '.';
  }

  /**
   * A decimal with a point reads as its whole part plus a fraction below one: the
   * digits after the point never carry into the whole part.
   */
  lemma PointSplitsWholeAndFraction(whole: string, frac: string)
    requires AllDigits(whole) && AllDigits(frac) && |whole| + |frac| > 0
    ensures ParseUnsigned(whole + "." + frac) == Some(PointValue(whole, frac))
    ensures DigitsValue(whole) as real <= PointValue(whole, frac) < DigitsValue(whole) as real + 1.0
  {
    var s := whole + "." + frac;
    PointAfterDigits(whole, frac);
    assert s[..|whole|] == whole;
    assert s[|whole| + 1..] == frac;
    FractionBelowOne(DigitsValue(frac), Pow10(|frac|));
  }

  /**
   * Comma and period are interchangeable as the decimal separator, for every text:
   * a text is accepted, with the same value, exactly when its comma-replaced form is.
   */
  lemma {:induction false} SeparatorsInterchangeable(text: string)
    ensures ReplaceComma(ReplaceComma(text)) == ReplaceComma(text)
    ensures ParsePositive(text) == ParsePositive(ReplaceComma(text))
  {
    var once := ReplaceComma(text);
    assert ReplaceComma(once) == once by {
      assert |ReplaceComma(once)| == |once|;
      forall i | 0 <= i < |once|
        ensures ReplaceComma(once)[i] == once[i]
      {
        assert once[i] != ',';
      }
    }
  }

  /**
   * "whole,frac" and "whole.frac" are accepted alike: both read as whole + frac/10^len(frac)
   * when that is above zero, and both are refused otherwise.
   */
  lemma CommaOrPoint(whole: string, frac: string)
    requires AllDigits(whole) && AllDigits(frac) && |whole| + |frac| > 0
    ensures ParsePositive(whole + "," + frac) == ParsePositive(whole + "." + frac)
    ensures ParsePositive(whole + "." + frac)
         == if PointValue(whole, frac) > 0.0 then Some(PointValue(whole, frac)) else None
  {
    SeparatorBecomesPoint(whole, ',', frac);
    SeparatorBecomesPoint(whole, '.', frac);
    assert whole + [','] + frac == whole + "," + frac;
    assert whole + ['.'] + frac == whole + "." + frac;
    PointReadsAsDecimal(whole, frac);
  }

  /** Digits around one separator, comma or period, become digits around a period. */
  lemma SeparatorBecomesPoint(whole: string, sep: char, frac: string)
    requires AllDigits(whole) && AllDigits(frac) && (sep == ',' || sep == '.')
    ensures ReplaceComma(whole + [sep] + frac) == whole + "." + frac
  {
    var text, point := whole + [sep] + frac, whole + "." + frac;
    forall i | 0 <= i < |text|
      ensures ReplaceComma(text)[i] == point[i]
    {
      if i < |whole| {
        assert text[i] == whole[i] && point[i] == whole[i];
      } else if i > |whole| {
        assert text[i] == frac[i - |whole| - 1] && point[i] == frac[i - |whole| - 1];
      }
    }
  }

  /** An unsigned decimal with a point is read by ParseDecimal as by ParseUnsigned. */
  lemma PointReadsAsDecimal(whole: string, frac: string)
    requires AllDigits(whole) && AllDigits(frac) && |whole| + |frac| > 0
    ensures ParseDecimal(whole + "." + frac) == Some(PointValue(whole, frac))
  {
    var point := whole + "." + frac;
    PointSplitsWholeAndFraction(whole, frac);
    assert point[0] != '-' && point[0] != '+' by {
      if |whole| > 0 { assert point[0] == whole[0]; }
    }
  }

  lemma FractionBelowOne(n: nat, p: nat)
    requires n < p
    ensures 0.0 <= n as real / p as real < 1.0
  {
  }

  /** A comma works as the decimal separator: "70,5" is accepted as 70.5. */
  lemma CommaSeparatorExample()
    ensures ParsePositive("70,5") == Some(70.5)
  {
    var t := ReplaceComma("70,5");
    assert t == "70" + "." + "5";
    SeventyPointFive();
    assert ParseDecimal(t) == Some(70.5);
  }

  lemma SeventyPointFive()
    ensures ParseUnsigned("70" + "." + "5") == Some(70.5)
  {
    PointSplitsWholeAndFraction("70", "5");
    assert DigitsValue("70") == 70 by {
      assert "70"[..1] == "7";
    }
    assert DigitsValue("5") == 5 by {
      assert "5"[..0] == "";
    }
    assert Pow10(|"5"|) == 10;
    assert PointValue("70", "5") == 70.0 + 5.0 / 10.0;
  }

  /** Whole numbers are read as they are written: "70" is 70 and "40" is 40. */
  lemma WholeNumberExamples()
    ensures ParsePositive("70") == Some(70.0)
    ensures ParsePositive("40") == Some(40.0)
  {
    ParseShowNat(70);
    assert ShowNat(70) == "70";
    ParseShowNat(40);
    assert ShowNat(40) == "40";
  }

  /** A leading minus is refused whatever follows it: "-5" is not a weight. */
  lemma MinusSignRefused(text: string)
    requires |text| > 0 && text[0] == '-'
    ensures ParsePositive(text) == None
  {
  }
}
