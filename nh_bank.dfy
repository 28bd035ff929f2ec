/**
 * The two pure helpers of the NongHyup personal-banking adapter (NH_BANK.py): reading an
 * amount cell, and the date range of one month clamped to today.
 */
module NhBank {
  import opened Wrappers
  import opened Text
  import opened Errors
  import opened Calendar

  /**
   * parse_amount: every non-digit is stripped, and the rest is read as a decimal number,
   * 0 when nothing is left. The result type `nat` is the promise that it is never negative;
   * the amount has no more decimal digits than the text has digits.
   */
  function ParseAmount(amountText: string): (amount: nat)
    ensures amount < Pow10(|Digits(amountText)|)
  {
    var amountClean := Digits(amountText);
    DecimalValueBound(amountClean);
    if amountClean != [] then DecimalValue(amountClean) else 0
  }

  /** A text without any digit, the empty text among them, reads as 0. */
  lemma ParseAmountNoDigits(amountText: string)
    requires forall i :: 0 <= i < |amountText| ==> !IsDigit(amountText[i])
    ensures ParseAmount(amountText) == 0
  {
    DigitsNone(amountText);
  }

  lemma {:induction false} DigitsNone(s: string)
    requires forall i :: 0 <= i < |s| ==> !IsDigit(s[i])
    ensures Digits(s) == []
  {
    if s != [] {
      DigitsNone(s[..|s| - 1]);
    }
  }

  /** Inserting a non-digit anywhere leaves the amount unchanged. */
  lemma ParseAmountIgnoresNonDigit(before: string, c: char, after: string)
    requires !IsDigit(c)
    ensures ParseAmount(before + [c] + after) == ParseAmount(before + after)
  {
    DigitsConcat(before + [c], after);
    DigitsConcat(before, [c]);
    DigitsConcat(before, after);
    DigitsSingle(c);
    assert Digits(before + [c]) == Digits(before);
    assert Digits(before + [c] + after) == Digits(before + after);
  }

  /** A digit appended to the text is appended to the number. */
  lemma ParseAmountAppendDigit(amountText: string, c: char)
    requires IsDigit(c)
    ensures ParseAmount(amountText + [c]) == 10 * ParseAmount(amountText) + DigitValue(c)
  {
    DigitsConcat(amountText, [c]);
    DigitsSingle(c);
    DecimalValueAppend(Digits(amountText), c);
    if Digits(amountText) == [] {
      assert Digits(amountText + [c]) == [c];
    }
  }

  /** The decimal rendering of any natural number reads back as that number. */
  lemma ParseAmountRoundTrip(n: nat)
    ensures ParseAmount(DecimalText(n)) == n
  {
    DigitsFixedIff(DecimalText(n));
    DecimalTextRoundTrip(n);
  }

  /** A won amount as the statement shows it: separators and the currency sign are ignored. */
  lemma ParseAmountExample()
    ensures ParseAmount("1,234,000원") == 1234000
  {
    ExampleDigits();
    ExampleValue();
  }

  lemma ExampleDigits()
    ensures Digits("1,234,000원") == "1234000"
  {
    hide Digits;
    var p1 := "1" + [','];
    var p2 := p1 + "234";
    var p3 := p2 + [','];
    var p4 := p3 + "000";
    assert "1,234,000원" == p4 + ['원'];
    DigitsConcat(p4, ['원']);
    DigitsConcat(p3, "000");
    DigitsConcat(p2, [',']);
    DigitsConcat(p1, "234");
    DigitsConcat("1", [',']);
    DigitsSingle(',');
    DigitsSingle('원');
    DigitsFixedIff("1");
    DigitsFixedIff("234");
    DigitsFixedIff("000");
    assert Digits(p4 + ['원']) == "1" + "234" + "000";
  }

  lemma ExampleValue()
    ensures DecimalValue("1234000") == 1234000
  {
    assert DecimalText(1234000) == "1234000";
    DecimalTextRoundTrip(1234000);
  }

  /** Moments are strictly totally ordered: of two different moments one is before the other. */
  lemma BeforeTotal(a: Moment, b: Moment, c: Moment)
    ensures a == b || Before(a, b) || Before(b, a)
    ensures !(Before(a, b) && Before(b, a))
    ensures Before(a, b) && Before(b, c) ==> Before(a, c)
  {
  }

  /** The range of a C `int` (32 bits), into which `datetime()` converts each argument. */
  predicate IsCInt(n: int) {
    -0x8000_0000 <= n < 0x8000_0000
  }

  /**
   * What converting an argument of `datetime()` to a C `int` raises, if anything. On
   * Windows a C `long` is 32 bits too, so `PyLong_AsLong` is the conversion that fails.
   */
  function CIntConversion(n: int): (e: Option<PyException>)
    ensures e.None? <==> IsCInt(n)
  {
    if IsCInt(n) then None else Some(OverflowError("Python int too large to convert to C long"))
  }

  /**
   * get_month_date_range: the first of the month at midnight, and the earlier of the
   * month's last day at midnight and `today` (`datetime.today()`, passed in).
   * `datetime(year, month, 1)` first converts year and month, in that order, to C `int`s
   * (OverflowError), then checks the year is in 1..9999 and the month in 1..12 (ValueError).
   */
  function GetMonthDateRange(year: int, month: int, today: Moment): (r: Result<(Moment, Moment), PyException>)
    requires ValidMoment(today)
    ensures r.Success? <==> 1 <= year <= 9999 && 1 <= month <= 12
    ensures r.Failure? && !(IsCInt(year) && IsCInt(month)) ==> r.error.typeName == "OverflowError"
    ensures r.Failure? && IsCInt(year) && IsCInt(month) ==> r.error.typeName == "ValueError"
    ensures r.Success? ==> r.value.0 == Midnight(Date(year, month, 1)) && ValidMoment(r.value.0)
    ensures r.Success? ==> ValidMoment(r.value.1)
    ensures r.Success? ==>
      var lastDay := Midnight(Date(year, month, DaysInMonth(year, month)));
      && (r.value.1 == today || r.value.1 == lastDay)
      && !Before(today, r.value.1)
      && !Before(lastDay, r.value.1)
  {
    if CIntConversion(year).Some? then Failure(CIntConversion(year).value)
    else if CIntConversion(month).Some? then Failure(CIntConversion(month).value)
    else if year < 1 || year > 9999 then Failure(ValueError("year " + IntText(year) + " is out of range"))
    else if month < 1 || month > 12 then Failure(ValueError("month must be in 1..12"))
    else
      var firstDay := Midnight(Date(year, month, 1));
      var lastDay := Midnight(Date(year, month, DaysInMonth(year, month)));
      Success((firstDay, if Before(today, lastDay) then today else lastDay))
  }

  /** When the last day is not after today the range ends on it; otherwise it ends at today. */
  lemma MonthDateRangeEnd(year: int, month: int, today: Moment)
    requires ValidMoment(today)
    requires 1 <= year <= 9999 && 1 <= month <= 12
    ensures var lastDay := Midnight(Date(year, month, DaysInMonth(year, month)));
      GetMonthDateRange(year, month, today).value.1 == if Before(today, lastDay) then today else lastDay
  {
    var lastDay := Midnight(Date(year, month, DaysInMonth(year, month)));
    var r := GetMonthDateRange(year, month, today);
    BeforeTotal(today, lastDay, today);
    BeforeTotal(r.value.1, today, r.value.1);
  }

  /** For a month wholly after today the range is empty: its end comes before its start. */
  lemma FutureMonthIsEmpty(year: int, month: int, today: Moment)
    requires ValidMoment(today)
    requires 1 <= year <= 9999 && 1 <= month <= 12
    requires Before(today, Midnight(Date(year, month, 1)))
    ensures Before(GetMonthDateRange(year, month, today).value.1, GetMonthDateRange(year, month, today).value.0)
  {
    MonthDateRangeEnd(year, month, today);
  }
}
