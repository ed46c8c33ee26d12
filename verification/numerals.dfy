/**
 Decimal text and 32-bit signed integers: the `parse::<i32>` the parser applies
 to the text of an `Int` token, and the decimal rendering it is the inverse of.
 */
module Numerals {
  import opened Wrappers
  import opened Lexing

  const I32Min: int := -0x8000_0000
  const I32Max: int := 0x7FFF_FFFF

  predicate InI32(v: int) {
    I32Min <= v <= I32Max
  }

  function DigitValue(c: char): (d: nat)
    requires IsDigit(c)
    ensures d < 10
  {
    (c as int) - ('0' as int)
  }

  function DigitChar(d: nat): (c: char)
    requires d < 10
    ensures IsDigit(c) && DigitValue(c) == d
  {
    ('0' as int + d) as char
  }

  predicate AllDigits(s: string) {
    forall k | 0 <= k < |s| :: IsDigit(s[k])
  }

  /** The value of the digit string `s` read after an already accumulated magnitude `m`. */
  function FoldDigits(m: nat, s: string): nat
    requires AllDigits(s)
    decreases |s|
  {
    if |s| == 0 then m else FoldDigits(m * 10 + DigitValue(s[0]), s[1..])
  }

  /** A magnitude with a sign attached. */
  function Signed(negative: bool, m: nat): int {
    if negative then -(m as int) else m
  }

  /** The value of a string of decimal digits. */
  function DigitsValue(s: string): nat
    requires AllDigits(s)
  {
    FoldDigits(0, s)
  }

  /** The text `parse::<i32>` accepts: an optional sign, then at least one ASCII digit. */
  predicate I32Syntax(s: string) {
    var body := if 0 < |s| && (s[0] == '+' || s[0] == '-') then s[1..] else s;
    0 < |body| && AllDigits(body)
  }

  /** The mathematical value of text in `I32Syntax`. */
  function SignedValue(s: string): int
    requires I32Syntax(s)
  {
    if s[0] == '-' || s[0] == '+' then Signed(s[0] == '-', DigitsValue(s[1..]))
    else DigitsValue(s)
  }

  /**
   The digit loop of `parse::<i32>`: it multiplies by ten and adds (or, for a
   negative number, subtracts) each digit, failing on a non-digit and as soon
   as a step leaves the 32-bit range.
   */
  function Accumulate(s: string, i: nat, m: nat, negative: bool): Option<int>
    requires i <= |s|
    decreases |s| - i
  {
    if i == |s| then Some(Signed(negative, m))
    else if !IsDigit(s[i]) then None
    else
      var m' := m * 10 + DigitValue(s[i]);
      if !InI32(Signed(negative, m')) then None
      else Accumulate(s, i + 1, m', negative)
  }

  /**
   `str::parse::<i32>`: accepts exactly the text in `I32Syntax` whose value is
   a 32-bit integer, and returns that value.
   */
  function ParseI32(s: string): (r: Option<int>)
    ensures r.Some? <==> I32Syntax(s) && InI32(SignedValue(s))
    ensures r.Some? ==> r.value == SignedValue(s)
  {
    if |s| == 0 then None
    else if s[0] == '+' || s[0] == '-' then
      if |s| == 1 then None
      else
        AccumulateIsFold(s, 1, 0, s[0] == '-');
        assert s[1..][0..] == s[1..];
        Accumulate(s, 1, 0, s[0] == '-')
    else
      AccumulateIsFold(s, 0, 0, false);
      assert s[0..] == s;
      Accumulate(s, 0, 0, false)
  }

  /** Reading more digits never makes the magnitude smaller. */
  lemma {:induction false} FoldDigitsGrows(m: nat, s: string)
    requires AllDigits(s)
    ensures FoldDigits(m, s) >= m
    decreases |s|
  {
    if |s| > 0 {
      FoldDigitsGrows(m * 10 + DigitValue(s[0]), s[1..]);
    }
  }

  /**
   The checked loop agrees with the unchecked fold: since the magnitude only
   grows, some step leaves the range exactly when the final value does.
   */
  lemma {:induction false} AccumulateIsFold(s: string, i: nat, m: nat, negative: bool)
    requires i <= |s| && InI32(Signed(negative, m))
    ensures Accumulate(s, i, m, negative) ==
      if AllDigits(s[i..]) && InI32(Signed(negative, FoldDigits(m, s[i..])))
      then Some(Signed(negative, FoldDigits(m, s[i..])))
      else None
    decreases |s| - i
  {
    if i < |s| {
      var rest := s[i..];
      assert rest[1..] == s[i + 1..];
      if IsDigit(s[i]) {
        var m' := m * 10 + DigitValue(s[i]);
        if AllDigits(rest) {
          FoldDigitsGrows(m', s[i + 1..]);
        }
        if InI32(Signed(negative, m')) {
          AccumulateIsFold(s, i + 1, m', negative);
        }
      }
    }
  }

  /** Digits of `n` in decimal, most significant first, with no leading zeros. */
  function DecimalText(n: nat): (s: string)
    ensures 0 < |s| && AllDigits(s)
    ensures |s| > 1 ==> s[0] != '0'
  {
    if n < 10 then [DigitChar(n)] else DecimalText(n / 10) + [DigitChar(n % 10)]
  }

  lemma {:induction false} FoldDigitsSnoc(m: nat, s: string, c: char)
    requires AllDigits(s) && IsDigit(c)
    ensures AllDigits(s + [c])
    ensures FoldDigits(m, s + [c]) == FoldDigits(m, s) * 10 + DigitValue(c)
    decreases |s|
  {
    if |s| > 0 {
      assert (s + [c])[1..] == s[1..] + [c];
      FoldDigitsSnoc(m * 10 + DigitValue(s[0]), s[1..], c);
    } else {
      assert (s + [c])[1..] == [];
    }
  }

  /** Reading back the decimal text of `n` gives `n`. */
  lemma {:induction false} DigitsValueOfDecimal(n: nat)
    ensures DigitsValue(DecimalText(n)) == n
    decreases n
  {
    if n < 10 {
      var c := DigitChar(n);
      assert DecimalText(n) == [c];
      assert [c][1..] == [];
      assert FoldDigits(0, [c]) == FoldDigits(DigitValue(c), []);
    } else {
      DigitsValueOfDecimal(n / 10);
      FoldDigitsSnoc(0, DecimalText(n / 10), DigitChar(n % 10));
      assert DecimalText(n) == DecimalText(n / 10) + [DigitChar(n % 10)];
    }
  }

  /** `parse::<i32>` inverts decimal rendering on the non-negative 32-bit range. */
  lemma ParseI32OfDecimal(n: nat)
    requires n <= I32Max
    ensures ParseI32(DecimalText(n)) == Some(n)
  {
    DigitsValueOfDecimal(n);
  }

  /** For an unsigned digit run, as the lexer produces, parsing fails exactly on overflow. */
  lemma ParseI32OfDigits(s: string)
    requires 0 < |s| && AllDigits(s)
    ensures ParseI32(s).Some? <==> DigitsValue(s) <= I32Max
    ensures ParseI32(s).Some? ==> ParseI32(s).value == DigitsValue(s)
  {
  }

  function Pow10(n: nat): (r: nat)
    ensures r >= 1
  {
    if n == 0 then 1 else 10 * Pow10(n - 1)
  }

  /** Reading the digits `s` after the magnitude `m` stays below `(m + 1) * 10^|s|`. */
  lemma {:induction false} FoldDigitsBelow(m: nat, s: string)
    requires AllDigits(s)
    ensures FoldDigits(m, s) < (m + 1) * Pow10(|s|)
    decreases |s|
  {
    if |s| > 0 {
      var m' := m * 10 + DigitValue(s[0]);
      FoldDigitsBelow(m', s[1..]);
      var k := Pow10(|s| - 1);
      assert Pow10(|s|) == 10 * k;
      MulMonotone(m' + 1, (m + 1) * 10, k);
      assert (m + 1) * 10 * k == (m + 1) * (10 * k);
    }
  }

  lemma MulMonotone(a: nat, b: nat, k: nat)
    requires a <= b
    ensures a * k <= b * k
  {
  }

  /** A numeral of at most nine digits always fits in 32 bits. */
  predicate ShortNumeral(s: string) {
    0 < |s| <= 9 && AllDigits(s)
  }

  /** `parse::<i32>` reads a numeral of at most nine digits as its value. */
  lemma ParseI32OfShortNumeral(s: string)
    requires ShortNumeral(s)
    ensures ParseI32(s) == Some(DigitsValue(s))
  {
    FoldDigitsBelow(0, s);
    assert Pow10(|s|) <= Pow10(9) by {
      Pow10Grows(|s|, 9);
    }
    ParseI32OfDigits(s);
  }

  lemma {:induction false} Pow10Grows(i: nat, j: nat)
    requires i <= j
    ensures Pow10(i) <= Pow10(j)
    decreases j
  {
    if i < j {
      Pow10Grows(i, j - 1);
    }
  }

  /** A single digit is a short numeral whose value is that digit. */
  lemma OneDigit(c: char)
    requires IsDigit(c)
    ensures ShortNumeral([c]) && DigitsValue([c]) == DigitValue(c)
  {
    assert [c][1..] == [];
    assert FoldDigits(0, [c]) == FoldDigits(DigitValue(c), []);
  }
}
