/**
  Times of day, the TIME value type of RFC 5545 section 3.3.12 in its UTC
  form only: the checking constructor, the `HHMMSSZ` text form and its
  parser, and the field-by-field order that the derived `Ord` gives.  Local
  times and leap seconds (a second of 60) are not supported.
 */
module Times {
  import opened Prelude
  import opened Text

  /** The field ranges `new_utc` and the parser check; the type has no setters. */
  type Hour = h: int | 0 <= h <= 23
  type Minute = m: int | 0 <= m <= 59
  type Second = s: int | 0 <= s <= 59

  datatype Time = Time(hour: Hour, minute: Minute, second: Second)

  datatype ParseTimeError = ParseTimeError

  /** `Time::new_utc`, which panics on an hour above 23, or a minute or second above 59. */
  function NewUtc(hour: u8, minute: u8, second: u8): (t: Time)
    requires hour <= 23
    requires minute <= 59
    requires second <= 59
    ensures t.hour == hour && t.minute == minute && t.second == second
  {
    Time(hour, minute, second)
  }

  /** `Display`: `{:02}{:02}{:02}Z`. */
  function Format(t: Time): (s: string)
    ensures |s| == 7 && AllDigits(s[..6]) && s[6] == 'Z'
    ensures DecimalValue(s[..2]) == t.hour
    ensures DecimalValue(s[2..4]) == t.minute
    ensures DecimalValue(s[4..6]) == t.second
  {
    assert Pow10(2) == 100;
    var s := ZeroPad(t.hour, 2) + ZeroPad(t.minute, 2) + ZeroPad(t.second, 2) + "Z";
    assert s[..2] == ZeroPad(t.hour, 2);
    assert s[2..4] == ZeroPad(t.minute, 2);
    assert s[4..6] == ZeroPad(t.second, 2);
    assert s[..6] == ZeroPad(t.hour, 2) + ZeroPad(t.minute, 2) + ZeroPad(t.second, 2);
    s
  }

  /**
    `FromStr`: seven characters, six ASCII digits then `Z`, with the hour at
    most 23 and the minute and second at most 59.  What it accepts is
    precisely the text `Format` writes.
   */
  function Parse(s: string): (r: Result<Time, ParseTimeError>)
    ensures r.Ok? ==> Format(r.value) == s
  {
    if |s| != 7 || !AllDigits(s[..6]) || s[6] != 'Z' then
      Err(ParseTimeError)
    else
      ParseFields(s)
  }

  /** What `FromStr` accepts: the seven-character shape, and each field in range. */
  lemma ParseAcceptsExactly(s: string)
    ensures Parse(s).Ok? <==>
      && |s| == 7
      && AllDigits(s[..6])
      && s[6] == 'Z'
      && DecimalValue(s[..2]) <= 23
      && DecimalValue(s[2..4]) <= 59
      && DecimalValue(s[4..6]) <= 59
  {
  }

  /** The range checks of `FromStr` on the three fields, once the shape is right. */
  function ParseFields(s: string): (r: Result<Time, ParseTimeError>)
    requires |s| == 7 && AllDigits(s[..6]) && s[6] == 'Z'
    ensures r.Ok? ==> Format(r.value) == s
    ensures r.Ok? <==>
      && DecimalValue(s[..2]) <= 23
      && DecimalValue(s[2..4]) <= 59
      && DecimalValue(s[4..6]) <= 59
  {
    TimeDigitFields(s);
    var hour := DecimalValue(s[..2]);
    if hour > 23 then
      Err(ParseTimeError)
    else
      var minute := DecimalValue(s[2..4]);
      if minute > 59 then
        Err(ParseTimeError)
      else
        var second := DecimalValue(s[4..6]);
        if second > 59 then
          Err(ParseTimeError)
        else
          var t := Time(hour, minute, second);
          TimeTextFields(s, t);
          Ok(t)
  }

  /** The three two-digit fields of six digits and a `Z`. */
  lemma TimeDigitFields(s: string)
    requires |s| == 7 && AllDigits(s[..6])
    ensures AllDigits(s[..2]) && AllDigits(s[2..4]) && AllDigits(s[4..6])
  {
    var digits := s[..6];
    assert s[..2] == digits[..2] && s[2..4] == digits[2..4] && s[4..6] == digits[4..6];
  }

  /** Six digits and a `Z` are the text of the time their three fields spell. */
  lemma TimeTextFields(s: string, t: Time)
    requires |s| == 7 && AllDigits(s[..6]) && s[6] == 'Z'
    requires AllDigits(s[..2]) && AllDigits(s[2..4]) && AllDigits(s[4..6])
    requires t.hour == DecimalValue(s[..2]) && t.minute == DecimalValue(s[2..4]) && t.second == DecimalValue(s[4..6])
    ensures Format(t) == s
  {
    FixedWidthIsZeroPadded(s[..2]);
    FixedWidthIsZeroPadded(s[2..4]);
    FixedWidthIsZeroPadded(s[4..6]);
    assert s == s[..2] + s[2..4] + s[4..6] + "Z";
  }

  /** The text determines the time: its three digit pairs spell the fields back. */
  lemma FormatInjective(a: Time, b: Time)
    requires Format(a) == Format(b)
    ensures a == b
  {
  }

  /** Every time survives formatting and parsing unchanged. */
  lemma ParseFormat(t: Time)
    ensures Parse(Format(t)) == Ok(t)
  {
  }

  lemma FormatExamples()
    ensures Format(NewUtc(23, 59, 59)) == "235959Z"
    ensures Format(NewUtc(0, 0, 0)) == "000000Z"
  {
    assert ZeroPad(0, 2) == "00";
  }

  lemma FormatExample7()
    ensures Format(NewUtc(7, 0, 0)) == "070000Z"
  {
    assert ZeroPad(7, 2) == "07" && ZeroPad(0, 2) == "00";
  }

  lemma ParseAcceptsLastSecond()
    ensures Parse("235959Z") == Ok(NewUtc(23, 59, 59))
  {
    assert Format(NewUtc(23, 59, 59)) == "235959Z";
    ParseFormat(NewUtc(23, 59, 59));
  }

  /** A missing `Z`, hour 24, minute 60 and the leap second 60 are all rejected. */
  lemma ParseRejectsExamples()
    ensures Parse("123456").Err?
    ensures Parse("240000Z").Err?
    ensures Parse("006000Z").Err?
    ensures Parse("235960Z").Err?
  {
    assert "240000Z"[..2] == "24" && DecimalValue("24") == 24;
    assert "006000Z"[..2] == "00" && "006000Z"[2..4] == "60" && DecimalValue("60") == 60;
    assert "235960Z"[..2] == "23" && "235960Z"[2..4] == "59" && "235960Z"[4..6] == "60";
    assert DecimalValue("23") == 23 && DecimalValue("59") == 59;
  }

  /** A second of 60 is rejected whatever the hour and minute. */
  lemma ParseRejectsSecond60()
    ensures Parse("000060Z").Err?
  {
    assert "000060Z"[..2] == "00" && "000060Z"[2..4] == "00" && "000060Z"[4..6] == "60";
    assert DecimalValue("00") == 0 && DecimalValue("60") == 60;
  }

  /** The derived `Ord`: hour first, then minute, then second. */
  function Compare(a: Time, b: Time): Ordering {
    CompareInt(a.hour, b.hour).Then(CompareInt(a.minute, b.minute)).Then(CompareInt(a.second, b.second))
  }

  /** Sorting the `HHMMSSZ` texts sorts the times: the text order is the time order. */
  lemma {:induction false} FormatPreservesOrder(a: Time, b: Time)
    ensures CompareStrings(Format(a), Format(b)) == Compare(a, b)
  {
    assert Pow10(2) == 100;
    var ha, ma, sa := ZeroPad(a.hour, 2), ZeroPad(a.minute, 2), ZeroPad(a.second, 2);
    var hb, mb, sb := ZeroPad(b.hour, 2), ZeroPad(b.minute, 2), ZeroPad(b.second, 2);
    CompareConcat(ha + ma + sa, hb + mb + sb, "Z", "Z");
    assert CompareStrings("Z", "Z") == Equal;
    CompareConcat(ha + ma, hb + mb, sa, sb);
    CompareConcat(ha, hb, ma, mb);
    CompareDigits(ha, hb);
    CompareDigits(ma, mb);
    CompareDigits(sa, sb);
  }

  /** The order is total: equal exactly on equal times, antisymmetric and transitive. */
  lemma CompareIsTotalOrder(a: Time, b: Time, c: Time)
    ensures Compare(a, b) == Equal <==> a == b
    ensures Compare(b, a) == Compare(a, b).Reverse()
    ensures Compare(a, b) == Less && Compare(b, c) == Less ==> Compare(a, c) == Less
  {
  }

  lemma CompareExamples()
    ensures Compare(NewUtc(13, 0, 1), NewUtc(12, 0, 3)) == Greater
    ensures Compare(NewUtc(17, 20, 35), NewUtc(17, 35, 20)) == Less
    ensures Compare(NewUtc(23, 4, 5), NewUtc(23, 4, 5)) == Equal
  {
  }
}
