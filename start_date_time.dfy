/**
  The start of an event (DTSTART, section 3.8.2.4 of RFC 5545): either a
  whole day or a precise UTC date-time, written as one content line whose
  value is the text of whichever case is held.
 */
module StartDateTimes {
  import opened Prelude
  import Dates
  import Times
  import Text
  import DateTimes
  import ContentLines

  datatype DateAndMaybeTime = OnDate(date: Dates.Date) | AtDateTime(dateTime: DateTimes.DateTime)

  datatype StartDateTime = StartDateTime(value: DateAndMaybeTime)

  /** `From<Date>`: the whole-day case holding that date. */
  function FromDate(date: Dates.Date): (s: StartDateTime)
    ensures s.value.OnDate? && s.value.date == date
  {
    StartDateTime(OnDate(date))
  }

  /** `From<DateTime>`: the precise case holding that date-time. */
  function FromDateTime(dateTime: DateTimes.DateTime): (s: StartDateTime)
    ensures s.value.AtDateTime? && s.value.dateTime == dateTime
  {
    StartDateTime(AtDateTime(dateTime))
  }

  /** `Display` of the held value: the text of the date or of the date-time. */
  function ValueText(s: StartDateTime): string {
    match s.value
    case OnDate(date) => Dates.Format(date)
    case AtDateTime(dateTime) => DateTimes.Format(dateTime)
  }

  /** The text of a whole-day start is eight characters long and that of a precise start sixteen, with its `T` and `Z`. */
  lemma TextShape(s: StartDateTime)
    ensures s.value.OnDate? ==> |ValueText(s)| == 8 && 'T' !in ValueText(s)
    ensures s.value.AtDateTime? ==> |ValueText(s)| == 16 && ValueText(s)[8] == 'T' && ValueText(s)[15] == 'Z'
  {
    if s.value.OnDate? {
      var t := ValueText(s);
      assert Text.AllDigits(t);
      assert forall i | 0 <= i < |t| :: t[i] != 'T';
    }
  }

  /** A start made from a date never equals one made from a date-time. */
  lemma FromDateNeverFromDateTime(date: Dates.Date, dateTime: DateTimes.DateTime)
    ensures FromDate(date) != FromDateTime(dateTime)
    ensures ValueText(FromDate(date)) != ValueText(FromDateTime(dateTime))
  {
    TextShape(FromDate(date));
    TextShape(FromDateTime(dateTime));
  }

  /** The written text determines the start: the two cases, and the values inside them, can be told apart again. */
  lemma TextInjective(a: StartDateTime, b: StartDateTime)
    requires ValueText(a) == ValueText(b)
    ensures a == b
  {
    TextShape(a);
    TextShape(b);
    match a.value
    case OnDate(da) =>
      Dates.FormatInjective(da, b.value.date);
    case AtDateTime(ta) =>
      DateTimes.FormatInjective(ta, b.value.dateTime);
  }

  /** The one content line `write` hands to the writer. */
  function Line(s: StartDateTime): (line: ContentLines.ContentLine)
    ensures line.name == "DTSTART" && line.value == ValueText(s)
  {
    ContentLines.ContentLine("DTSTART", ValueText(s))
  }

  /** `write`: one attempt to write the `DTSTART` line, whose failure is returned unchanged. */
  method Write(s: StartDateTime, sink: ContentLines.Sink) returns (r: Result<(), ContentLines.IoError>)
    modifies sink
    ensures ContentLines.Outcome(sink.State(), r) == ContentLines.Emit(sink.fault, old(sink.State()), [Line(s)])
  {
    r := sink.Write(Line(s));
  }

  lemma TextExamples()
    ensures ValueText(FromDate(Dates.New(2021, 1, 1))) == "20210101"
    ensures ValueText(FromDateTime(DateTimes.DateTime(Dates.New(1998, 1, 19), Times.NewUtc(7, 0, 0)))) == "19980119T070000Z"
  {
    Dates.FormatExample2021();
    DateTimes.FormatExample();
  }
}
