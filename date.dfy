/**
  Calendar dates, the DATE value type of RFC 5545 section 3.3.4: the
  Gregorian leap-year rule and month-length table, the checking constructor
  and setters, the fixed-width `YYYYMMDD` text form and its parser, and the
  field-by-field order that the derived `Ord` gives.
 */
module Dates {
  import opened Prelude
  import opened Text

  /**
    The field ranges every way of making or changing a date keeps: the
    constructor, the parser and each setter check the year against 9999, the
    month against 1..12, and the day against 1 and a month length of at most 31.
   */
  type Year = y: int | 0 <= y <= 9999
  type Month = m: int | 1 <= m <= 12 witness 1
  type Day = d: int | 1 <= d <= 31 witness 1

  datatype Date = Date(year: Year, month: Month, day: Day) {
    /** The day exists in its month of its year. */
    predicate Valid() {
      day <= DaysInMonth(year, month)
    }
  }

  datatype ParseDateError = ParseDateError

  /** The Gregorian rule: every fourth year, except centuries not divisible by 400. */
  predicate IsLeapYear(year: u16) {
    year % 4 == 0 && (year % 100 != 0 || year % 400 == 0)
  }

  /** The number of days in `month` of `year`; the source panics for a month outside 1..12. */
  function DaysInMonth(year: u16, month: u8): (n: u8)
    requires 1 <= month <= 12
    ensures 28 <= n <= 31
  {
    if month == 2 then
      (if IsLeapYear(year) then 29 else 28)
    else if month == 4 || month == 6 || month == 9 || month == 11 then
      30
    else
      31
  }

  /** The days of `year` in the months before `month`. */
  function DaysBeforeMonth(year: u16, month: nat): nat
    requires 1 <= month <= 13
  {
    if month == 1 then 0 else DaysBeforeMonth(year, month - 1) + DaysInMonth(year, month - 1)
  }

  /** The month lengths add up to 366 days in a leap year and 365 otherwise. */
  lemma {:induction false} YearLength(year: u16)
    ensures DaysBeforeMonth(year, 13) == if IsLeapYear(year) then 366 else 365
  {
    var february: nat := DaysInMonth(year, 2);
    assert DaysBeforeMonth(year, 2) == 31;
    assert DaysBeforeMonth(year, 3) == 31 + february;
    assert DaysBeforeMonth(year, 4) == 62 + february;
    assert DaysBeforeMonth(year, 5) == 92 + february;
    assert DaysBeforeMonth(year, 6) == 123 + february;
    assert DaysBeforeMonth(year, 7) == 153 + february;
    assert DaysBeforeMonth(year, 8) == 184 + february;
    assert DaysBeforeMonth(year, 9) == 215 + february;
    assert DaysBeforeMonth(year, 10) == 245 + february;
    assert DaysBeforeMonth(year, 11) == 276 + february;
    assert DaysBeforeMonth(year, 12) == 306 + february;
  }

  lemma LeapYearExamples()
    ensures IsLeapYear(2000) && IsLeapYear(2020)
    ensures !IsLeapYear(1900) && !IsLeapYear(2021)
    ensures DaysInMonth(2020, 2) == 29 && DaysInMonth(2021, 2) == 28
  {
  }

  /** `Date::new`, which panics unless the year, month and day make a date. */
  function New(year: u16, month: u8, day: u8): (d: Date)
    requires year <= 9999
    requires 1 <= month <= 12
    requires 1 <= day <= DaysInMonth(year, month)
    ensures d.Valid()
    ensures d.year == year && d.month == month && d.day == day
  {
    Date(year, month, day)
  }

  /**
    A `Date` held in a mutable place: the receiver of the `&mut self`
    setters.  Each setter checks only the field it sets, so `SetYear` and
    `SetMonth` keep the field ranges but can leave a day beyond the end of
    the new month (29 February 2020 becomes 29 February 2021); only the
    constructor and `SetDay` establish `Value().Valid()`.
   */
  class MutableDate {
    var year: Year
    var month: Month
    var day: Day

    function Value(): Date
      reads this
    {
      Date(year, month, day)
    }

    constructor (year: u16, month: u8, day: u8)
      requires year <= 9999
      requires 1 <= month <= 12
      requires 1 <= day <= DaysInMonth(year, month)
      ensures Value() == New(year, month, day)
    {
      this.year := year;
      this.month := month;
      this.day := day;
    }

    method SetYear(year: u16)
      requires year <= 9999
      modifies this
      ensures Value() == old(Value()).(year := year)
    {
      this.year := year;
    }

    method SetMonth(month: u8)
      requires 1 <= month <= 12
      modifies this
      ensures Value() == old(Value()).(month := month)
    {
      this.month := month;
    }

    method SetDay(day: u8)
      requires 1 <= day <= DaysInMonth(year, month)
      modifies this
      ensures Value() == old(Value()).(day := day)
      ensures Value().Valid()
    {
      this.day := day;
    }
  }

  /**
    `SetYear` and `SetMonth` do not keep validity: what they leave behind can
    name a day its month does not have.
   */
  lemma SettersMayInvalidate()
    ensures New(2020, 2, 29).(year := 2021) == Date(2021, 2, 29) && !Date(2021, 2, 29).Valid()
    ensures New(2021, 1, 31).(month := 2) == Date(2021, 2, 31) && !Date(2021, 2, 31).Valid()
  {
  }

  /** `Display`: `{:04}{:02}{:02}`, each field zero-padded on its own. */
  function Format(d: Date): (s: string)
    ensures |s| == 8 && AllDigits(s)
    ensures DecimalValue(s[..4]) == d.year
    ensures DecimalValue(s[4..6]) == d.month
    ensures DecimalValue(s[6..]) == d.day
  {
    assert Pow10(2) == 100 && Pow10(4) == 10000;
    var s := ZeroPad(d.year, 4) + ZeroPad(d.month, 2) + ZeroPad(d.day, 2);
    assert s[..4] == ZeroPad(d.year, 4);
    assert s[4..6] == ZeroPad(d.month, 2);
    assert s[6..] == ZeroPad(d.day, 2);
    s
  }

  /**
    `FromStr`: exactly eight ASCII digits, a month in 1..12 and a day that
    exists in that month.  What it accepts is precisely the text `Format`
    writes for a valid date.
   */
  function Parse(s: string): (r: Result<Date, ParseDateError>)
    ensures r.Ok? ==> r.value.Valid() && Format(r.value) == s
    ensures r.Ok? <==>
      && |s| == 8
      && AllDigits(s)
      && 1 <= DecimalValue(s[4..6]) <= 12
      && 1 <= DecimalValue(s[6..]) <= DaysInMonth(DecimalValue(s[..4]), DecimalValue(s[4..6]))
  {
    if |s| != 8 then
      Err(ParseDateError)
    else if !AllDigits(s) then
      Err(ParseDateError)
    else
      DigitFields(s);
      var year := DecimalValue(s[..4]);
      var month := DecimalValue(s[4..6]);
      if !(1 <= month <= 12) then
        Err(ParseDateError)
      else
        var day := DecimalValue(s[6..]);
        if day < 1 || day > DaysInMonth(year, month) then
          Err(ParseDateError)
        else
          var d := Date(year, month, day);
          DateTextFields(s, d);
          Ok(d)
  }

  /**
    The year, month and day fields of eight digits.  A year of four digits is
    at most 9999, which is why the source's check for a larger year can never
    reject anything.
   */
  lemma DigitFields(s: string)
    requires |s| == 8 && AllDigits(s)
    ensures AllDigits(s[..4]) && AllDigits(s[4..6]) && AllDigits(s[6..])
    ensures DecimalValue(s[..4]) <= 9999 && DecimalValue(s[4..6]) <= 99 && DecimalValue(s[6..]) <= 99
  {
    assert Pow10(2) == 100 && Pow10(4) == 10000;
  }

  /** Eight digits are the text of the date their three fields spell. */
  lemma DateTextFields(s: string, d: Date)
    requires |s| == 8 && AllDigits(s)
    requires AllDigits(s[..4]) && AllDigits(s[4..6]) && AllDigits(s[6..])
    requires d.year == DecimalValue(s[..4]) && d.month == DecimalValue(s[4..6]) && d.day == DecimalValue(s[6..])
    ensures Format(d) == s
  {
    assert Pow10(2) == 100 && Pow10(4) == 10000;
    FixedWidthIsZeroPadded(s[..4]);
    FixedWidthIsZeroPadded(s[4..6]);
    FixedWidthIsZeroPadded(s[6..]);
    assert s == s[..4] + s[4..6] + s[6..];
  }

  /** The text determines the date, valid or not: its three digit fields spell the fields back. */
  lemma FormatInjective(a: Date, b: Date)
    requires Format(a) == Format(b)
    ensures a == b
  {
  }

  /** Every valid date survives formatting and parsing unchanged. */
  lemma ParseFormat(d: Date)
    requires d.Valid()
    ensures Parse(Format(d)) == Ok(d)
  {
  }

  /** The text of a date that is not valid (one a setter left behind) is rejected by the parser. */
  lemma InvalidDateTextRejected(d: Date)
    requires !d.Valid()
    ensures Parse(Format(d)).Err?
  {
  }

  lemma ParseAcceptsLeapDay()
    ensures Parse("20200229") == Ok(Date(2020, 2, 29))
  {
    assert Decimal(20) == "20";
    assert Decimal(202) == "202";
    assert Decimal(2020) == "2020";
    assert ZeroPad(2, 2) == "02";
    assert Format(Date(2020, 2, 29)) == "20200229";
    ParseFormat(Date(2020, 2, 29));
  }

  /** The 30th of February is rejected, even in a leap year. */
  lemma ParseRejectsFebruary30()
    ensures Parse("20200230").Err?
  {
    var s := "20200230";
    assert s[4..6] == "02" && s[6..] == "30";
    assert DecimalValue("02") == 2 && DecimalValue("30") == 30;
  }

  /** Month 13 is rejected. */
  lemma ParseRejectsMonth13()
    ensures Parse("20211301").Err?
  {
    var s := "20211301";
    assert s[4..6] == "13";
    assert DecimalValue("13") == 13;
  }

  /** Day 32 is rejected in every month. */
  lemma ParseRejectsDay32()
    ensures Parse("20211232").Err?
  {
    var s := "20211232";
    assert s[4..6] == "12" && s[6..] == "32";
    assert DecimalValue("12") == 12 && DecimalValue("32") == 32;
  }

  /** A date with separators is rejected. */
  lemma ParseRejectsSeparators()
    ensures Parse("2021-01-01").Err?
  {
  }

  lemma FormatExample2021()
    ensures Format(New(2021, 1, 1)) == "20210101"
  {
    assert Decimal(20) == "20";
    assert Decimal(202) == "202";
    assert Decimal(2021) == "2021";
    assert ZeroPad(1, 2) == "01";
  }

  /** Each field is padded on its own: year 0 becomes `0000`. */
  lemma FormatExampleZeroPadded()
    ensures Format(New(0, 7, 7)) == "00000707"
  {
    assert ZeroPad(0, 4) == "0000";
    assert ZeroPad(7, 2) == "07";
  }

  lemma FormatExample1998()
    ensures Format(New(1998, 1, 19)) == "19980119"
  {
    assert Decimal(19) == "19";
    assert Decimal(199) == "199";
    assert Decimal(1998) == "1998";
    assert ZeroPad(1, 2) == "01";
  }

  /** The derived `Ord`: year first, then month, then day. */
  function Compare(a: Date, b: Date): Ordering {
    CompareInt(a.year, b.year).Then(CompareInt(a.month, b.month)).Then(CompareInt(a.day, b.day))
  }

  /** Sorting the `YYYYMMDD` texts sorts the dates: the text order is the date order. */
  lemma {:induction false} FormatPreservesOrder(a: Date, b: Date)
    ensures CompareStrings(Format(a), Format(b)) == Compare(a, b)
  {
    assert Pow10(2) == 100 && Pow10(4) == 10000;
    var ya, ma, da := ZeroPad(a.year, 4), ZeroPad(a.month, 2), ZeroPad(a.day, 2);
    var yb, mb, db := ZeroPad(b.year, 4), ZeroPad(b.month, 2), ZeroPad(b.day, 2);
    CompareConcat(ya + ma, yb + mb, da, db);
    CompareConcat(ya, yb, ma, mb);
    CompareDigits(ya, yb);
    CompareDigits(ma, mb);
    CompareDigits(da, db);
  }

  /** The order is total: equal exactly on equal dates, antisymmetric and transitive. */
  lemma CompareIsTotalOrder(a: Date, b: Date, c: Date)
    ensures Compare(a, b) == Equal <==> a == b
    ensures Compare(b, a) == Compare(a, b).Reverse()
    ensures Compare(a, b) == Less && Compare(b, c) == Less ==> Compare(a, c) == Less
  {
  }

  lemma CompareExamples()
    ensures Compare(New(2022, 1, 1), New(2021, 1, 3)) == Greater
    ensures Compare(New(2021, 2, 3), New(2021, 3, 2)) == Less
    ensures Compare(New(2021, 1, 1), New(2021, 1, 1)) == Equal
  {
  }
}
