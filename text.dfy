/**
 * Decimal digits in text: the `\D` substitution the source uses on account numbers and
 * amounts, `int(...)` of a digit string, and decimal rendering (`str(n)`, zero-padded
 * strftime fields). ASCII digits only.
 */
module Text {

  predicate IsDigit(c: char) {
    '0' <= c <= '9'
  }

  predicate AllDigits(s: string) {
    forall i :: 0 <= i < |s| ==> IsDigit(s[i])
  }

  /** `re.sub(r'\D', '', s)`: the digit characters of `s`, in their original order. */
  function Digits(s: string): (d: string)
    ensures AllDigits(d)
    ensures |d| <= |s|
  {
    if s == [] then []
    else Digits(s[..|s| - 1]) + (if IsDigit(s[|s| - 1]) then [s[|s| - 1]] else [])
  }

  /**
   * Digits is the homomorphism that keeps a digit and drops anything else: it distributes
   * over concatenation, and on one character keeps it exactly when it is a digit.
   */
  lemma {:induction false} DigitsConcat(a: string, b: string)
    ensures Digits(a + b) == Digits(a) + Digits(b)
  {
    if b == [] {
      assert a + b == a;
    } else {
      var b' := b[..|b| - 1];
      assert (a + b)[..|a + b| - 1] == a + b';
      assert (a + b)[|a + b| - 1] == b[|b| - 1];
      DigitsConcat(a, b');
    }
  }

  lemma DigitsSingle(c: char)
    ensures Digits([c]) == if IsDigit(c) then [c] else []
  {
    assert [c][..0] == [];
  }

  /** Digits leaves a string unchanged exactly when the string is made of digits only. */
  lemma {:induction false} DigitsFixedIff(s: string)
    ensures Digits(s) == s <==> AllDigits(s)
  {
    if s != [] {
      var s', c := s[..|s| - 1], s[|s| - 1];
      DigitsFixedIff(s');
      assert s == s' + [c];
      if IsDigit(c) {
        assert AllDigits(s) <==> AllDigits(s');
        assert Digits(s) == Digits(s') + [c];
      } else {
        assert |Digits(s)| < |s|;
        assert !AllDigits(s);
      }
    }
  }

  function DigitValue(c: char): (v: nat)
    requires IsDigit(c)
    ensures v < 10
  {
    (c as int) - ('0' as int)
  }

  function DigitChar(n: nat): (c: char)
    requires n < 10
    ensures IsDigit(c) && DigitValue(c) == n
  {
    (('0' as int) + n) as char
  }

  /** `int(s)` for a string of decimal digits (empty gives 0). */
  function DecimalValue(s: string): nat
    requires AllDigits(s)
  {
    if s == [] then 0 else 10 * DecimalValue(s[..|s| - 1]) + DigitValue(s[|s| - 1])
  }

  /** Appending a digit shifts the value one decimal place. */
  lemma DecimalValueAppend(s: string, c: char)
    requires AllDigits(s) && IsDigit(c)
    ensures AllDigits(s + [c]) && DecimalValue(s + [c]) == 10 * DecimalValue(s) + DigitValue(c)
  {
    assert (s + [c])[..|s|] == s;
  }

  lemma {:induction false} DecimalValueBound(s: string)
    requires AllDigits(s)
    ensures DecimalValue(s) < Pow10(|s|)
  {
    if s != [] {
      DecimalValueBound(s[..|s| - 1]);
    }
  }

  /** `str(n)`: the shortest decimal rendering of `n`. */
  function DecimalText(n: nat): (s: string)
    ensures 1 <= |s| && AllDigits(s)
    ensures 1 < |s| ==> s[0] != '0'
  {
    if n < 10 then [DigitChar(n)] else DecimalText(n / 10) + [DigitChar(n % 10)]
  }

  lemma {:induction false} DecimalTextRoundTrip(n: nat)
    ensures DecimalValue(DecimalText(n)) == n
  {
    if n >= 10 {
      DecimalTextRoundTrip(n / 10);
      DecimalValueAppend(DecimalText(n / 10), DigitChar(n % 10));
    }
  }

  /** `%d` of a Python int, with a minus sign for negatives. */
  function IntText(i: int): string {
    if i < 0 then "-" + DecimalText(-i) else DecimalText(i)
  }

  function Pow10(w: nat): (p: nat)
    ensures 1 <= p
  {
    if w == 0 then 1 else 10 * Pow10(w - 1)
  }

  /** The zero-padded decimal field of width `w` (`%04d`, `%02d`) of `n < 10^w`. */
  function PadDecimal(n: nat, w: nat): (s: string)
    requires n < Pow10(w)
    ensures |s| == w && AllDigits(s)
  {
    if w == 0 then [] else PadDecimal(n / 10, w - 1) + [DigitChar(n % 10)]
  }

  lemma {:induction false} PadDecimalRoundTrip(n: nat, w: nat)
    requires n < Pow10(w)
    ensures DecimalValue(PadDecimal(n, w)) == n
  {
    if w > 0 {
      PadDecimalRoundTrip(n / 10, w - 1);
      DecimalValueAppend(PadDecimal(n / 10, w - 1), DigitChar(n % 10));
    }
  }
}
