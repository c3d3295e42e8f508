/**
  Combined dates and times, the DATE-TIME value type of RFC 5545 section
  3.3.5 in its UTC form: a `Date`, the separator `T` and a `Time`.
 */
module DateTimes {
  import opened Prelude
  import opened Text
  import Dates
  import Times

  datatype DateTime = DateTime(date: Dates.Date, time: Times.Time) {
    predicate Valid() {
      date.Valid()
    }
  }

  datatype ParseDateTimeError = ParseDateTimeError

  /** `Display`: the date's text, `T`, the time's text. */
  function Format(dt: DateTime): (s: string)
    ensures |s| == 16 && s[8] == 'T' && s[15] == 'Z'
    ensures s[..8] == Dates.Format(dt.date) && s[9..] == Times.Format(dt.time)
  {
    var date, time := Dates.Format(dt.date), Times.Format(dt.time);
    assert |date| == 8 && |time| == 7 && time[6] == 'Z';
    var s := date + "T" + time;
    assert s[..8] == date && s[8] == 'T' && s[9..] == time;
    s
  }

  /**
    `FromStr`: split at the first `T`; the part before must parse as a date
    and the part after as a time.  Text without a `T` is rejected, and so is
    every local-time or offset form, since the time must end in `Z`.  What it
    accepts is precisely the text `Format` writes for a valid date-time.
   */
  function Parse(s: string): (r: Result<DateTime, ParseDateTimeError>)
    ensures 'T' !in s ==> r.Err?
    ensures r.Ok? ==> r.value.Valid() && Format(r.value) == s
  {
    match SplitOnce(s, 'T')
    case None => Err(ParseDateTimeError)
    case Some((date, time)) =>
      match Dates.Parse(date)
      case Err(_) => Err(ParseDateTimeError)
      case Ok(d) =>
        match Times.Parse(time)
        case Err(_) => Err(ParseDateTimeError)
        case Ok(t) => Ok(DateTime(d, t))
  }

  /** When there is a `T`, parsing succeeds exactly when both halves around the first `T` parse. */
  lemma ParseSplits(s: string, date: string, time: string)
    requires 'T' !in date && s == date + "T" + time
    ensures Parse(s).Ok? <==> Dates.Parse(date).Ok? && Times.Parse(time).Ok?
    ensures Parse(s).Ok? ==> Parse(s).value == DateTime(Dates.Parse(date).value, Times.Parse(time).value)
  {
    SplitOnceAt(date, time, 'T');
  }

  /** The text determines the date-time, valid or not: the date's text before the `T`, the time's after it. */
  lemma FormatInjective(a: DateTime, b: DateTime)
    requires Format(a) == Format(b)
    ensures a == b
  {
    Dates.FormatInjective(a.date, b.date);
    Times.FormatInjective(a.time, b.time);
  }

  /** Every valid date-time survives formatting and parsing unchanged. */
  lemma ParseFormat(dt: DateTime)
    requires dt.Valid()
    ensures Parse(Format(dt)) == Ok(dt)
  {
    var date, time := Dates.Format(dt.date), Times.Format(dt.time);
    assert 'T' !in date;
    ParseSplits(Format(dt), date, time);
    Dates.ParseFormat(dt.date);
    Times.ParseFormat(dt.time);
  }

  lemma FormatExample()
    ensures Format(DateTime(Dates.New(1998, 1, 19), Times.NewUtc(7, 0, 0))) == "19980119T070000Z"
  {
    Dates.FormatExample1998();
    Times.FormatExample7();
  }

  lemma FormatExample2021()
    ensures Format(DateTime(Dates.New(2021, 1, 1), Times.NewUtc(0, 0, 0))) == "20210101T000000Z"
  {
    Dates.FormatExample2021();
    Times.FormatExamples();
  }

  lemma ParseExample()
    ensures Parse("19980119T070000Z") == Ok(DateTime(Dates.New(1998, 1, 19), Times.NewUtc(7, 0, 0)))
  {
    FormatExample();
    ParseFormat(DateTime(Dates.New(1998, 1, 19), Times.NewUtc(7, 0, 0)));
  }

  /** A local time, without the `Z`, is rejected. */
  lemma ParseRejectsLocalTime()
    ensures Parse("19980118T230000").Err?
  {
    assert 'T' !in "19980118";
    assert "19980118T230000" == "19980118" + "T" + "230000";
    ParseSplits("19980118T230000", "19980118", "230000");
    assert Times.Parse("230000").Err?;
  }

  /** A time with a UTC offset instead of the `Z` is rejected. */
  lemma ParseRejectsUtcOffset()
    ensures Parse("19980119T230000-0800").Err?
  {
    assert 'T' !in "19980119";
    assert "19980119T230000-0800" == "19980119" + "T" + "230000-0800";
    ParseSplits("19980119T230000-0800", "19980119", "230000-0800");
    assert Times.Parse("230000-0800").Err?;
  }

  /** The derived `Ord`: the date first, then the time. */
  function Compare(a: DateTime, b: DateTime): Ordering {
    Dates.Compare(a.date, b.date).Then(Times.Compare(a.time, b.time))
  }

  /** Sorting the texts sorts the date-times: the text order is the chronological order. */
  lemma FormatPreservesOrder(a: DateTime, b: DateTime)
    ensures CompareStrings(Format(a), Format(b)) == Compare(a, b)
  {
    var da, db := Dates.Format(a.date), Dates.Format(b.date);
    var ta, tb := Times.Format(a.time), Times.Format(b.time);
    assert Format(a) == da + "T" + ta && Format(b) == db + "T" + tb;
    CompareAroundSeparator(da, db, "T", ta, tb);
    Dates.FormatPreservesOrder(a.date, b.date);
    Times.FormatPreservesOrder(a.time, b.time);
  }

  /** The order is total: equal exactly on equal date-times, antisymmetric and transitive. */
  lemma CompareIsTotalOrder(a: DateTime, b: DateTime, c: DateTime)
    ensures Compare(a, b) == Equal <==> a == b
    ensures Compare(b, a) == Compare(a, b).Reverse()
    ensures Compare(a, b) == Less && Compare(b, c) == Less ==> Compare(a, c) == Less
  {
    Dates.CompareIsTotalOrder(a.date, b.date, c.date);
    Times.CompareIsTotalOrder(a.time, b.time, c.time);
  }
}
