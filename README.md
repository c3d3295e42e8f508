# ical: a verified model of the iCalendar writer

This project models the core of `ical`, a small Rust library that builds an
iCalendar object (RFC 5545) and writes it as content lines. It covers:

- the value types:
  - `Date` (`YYYYMMDD`, section 3.3.4 of RFC 5545);
  - `Time` (`HHMMSSZ`, UTC only, section 3.3.12);
  - `DateTime` (`Date` + `T` + `Time`, section 3.3.5);
  - `StartDateTime` (`DTSTART`, a date or a date-time);
  - `RecurrenceRule` (`FREQ=...[;UNTIL=...]`, section 3.3.10);
- the checking constructors of `Date` and `Time`; every type's text form;
  the parsers of `Date`, `Time`, `DateTime` and `RecurrenceFrequency`; the
  derived orders of `Date`, `Time` and `DateTime`;
- the object tree `Calendar` → `Component` → `Event`, whose `write` hands the
  content-line writer a fixed sequence of lines and stops at the first write
  that fails.

Modules, one per source file, plus two helpers and the writer boundary
`ContentLines`:

- `Prelude`: `Option`, `Result`, `Ordering` and the integer widths `u8` and `u16`.
- `Text`: digit strings, the decimal rendering `{:0N}`, `str::split_once` and
  the lexicographic order of `str`.
- `Dates`, `Times`, `DateTimes`: the three date-and-time files.
- `StartDateTimes`, `RecurrenceRules`.
- `ContentLines`: the boundary to the external content-line writer.
- `Calendars`: the library root.

The writer is modelled as a `Sink` object.

- The sink accepts whole `(name, value)` lines.
- It fails on at most one write attempt, given by a `Fault`.
- `Emit` is the pure meaning of writing a sequence of lines one at a time and
  stopping at the first error, the way the source's `?` does.
- Every `write` method is proved to leave the sink exactly as `Emit` of its
  line sequence says, and to return what `Emit` says.
- The lemmas about those line sequences give:
  - the order of the lines;
  - the optional properties, each written exactly when it is set;
  - BEGIN/END nesting;
  - that a failure leaves exactly the lines before it.

`set_year` and `set_month` (src/date_and_time/date.rs:73-92) check only their
own field, so `SetYear` and `SetMonth` keep the field ranges but not
`Valid()`. `Dates.SettersMayInvalidate` exhibits this.

## Model

| member | source | states |
|---|---|---|
| Dates.DaysInMonth | src/date_and_time/date.rs:26-39 | defined only for months 1..12 (the source panics on any other month); every month has 28 to 31 days |
| Dates.LeapYearExamples | src/date_and_time/date.rs:17-19 | 2000 and 2020 are leap years, 1900 and 2021 are not; February has 29 days in 2020 and 28 in 2021 |
| Dates.IsLeapYear | src/date_and_time/date.rs:17-19 | definition (divisible by 4, and not by 100 unless by 400); `LeapYearExamples` and `YearLength` state its properties |
| Dates.YearLength | src/date_and_time/date.rs:17-39 | the month lengths add up to 366 days in a leap year and 365 otherwise |
| Dates.New | src/date_and_time/date.rs:51-60 | requires a year of at most 9999, a month in 1..12 and a day within that month; the result is a valid date holding exactly those fields |
| Dates.MutableDate.constructor | src/date_and_time/date.rs:51-60 | same preconditions as `new`; the held date is `New(year, month, day)` |
| Dates.MutableDate.SetYear | src/date_and_time/date.rs:73-76 | requires a year of at most 9999; only the year changes |
| Dates.MutableDate.SetMonth | src/date_and_time/date.rs:89-92 | requires a month in 1..12; only the month changes |
| Dates.MutableDate.SetDay | src/date_and_time/date.rs:105-112 | requires a day within the current month of the current year; only the day changes, and the date is then valid |
| Dates.SettersMayInvalidate | src/date_and_time/date.rs:73-92 | setting the year of 29 February 2020 to 2021, or the month of 31 January to February, leaves a date that is not valid |
| Dates.Format | src/date_and_time/date.rs:142-145 | eight ASCII digits whose slices [0..4], [4..6] and [6..8] denote the year, month and day |
| Dates.Parse | src/date_and_time/date.rs:118-139 | succeeds iff the text is eight digits with a month in 1..12 and a day within that month; a result is a valid date that formats back to the text |
| Dates.DigitFields | src/date_and_time/date.rs:126-128 | the three fields of eight digits are digit strings, and the four-digit year is at most 9999, so the year check never rejects |
| Dates.ParseFormat | src/date_and_time/date.rs:118-145 | every valid date survives formatting then parsing unchanged |
| Dates.FormatInjective | src/date_and_time/date.rs:142-145 | two dates with the same text are equal, whether or not they are valid |
| Dates.InvalidDateTextRejected | src/date_and_time/date.rs:134-137 | the text of a date that is not valid is rejected |
| Dates.ParseAcceptsLeapDay | src/date_and_time/date.rs:168 | "20200229" parses to 29 February 2020 |
| Dates.ParseRejectsFebruary30 | src/date_and_time/date.rs:169 | "20200230" is rejected |
| Dates.ParseRejectsMonth13 | src/date_and_time/date.rs:170 | "20211301" is rejected |
| Dates.ParseRejectsDay32 | src/date_and_time/date.rs:171 | "20211232" is rejected |
| Dates.ParseRejectsSeparators | src/date_and_time/date.rs:172 | "2021-01-01" is rejected |
| Dates.FormatExample2021 | src/date_and_time/date.rs:177 | 1 January 2021 is written "20210101" |
| Dates.FormatExampleZeroPadded | src/date_and_time/date.rs:178 | (0, 7, 7) is written "00000707": each field is padded on its own |
| Dates.FormatExample1998 | src/date_and_time/date.rs:142-145 | 19 January 1998 is written "19980119" |
| Dates.FormatPreservesOrder | src/date_and_time/date.rs:9-14 | comparing two dates' texts as strings gives the derived order on (year, month, day) |
| Dates.Compare | src/date_and_time/date.rs:9-14 | definition of the derived `Ord`, field by field; `CompareIsTotalOrder`, `FormatPreservesOrder` and `CompareExamples` state its properties |
| Dates.CompareIsTotalOrder | src/date_and_time/date.rs:9-14 | the derived order is Equal exactly on equal dates, antisymmetric and transitive |
| Dates.CompareExamples | src/date_and_time/date.rs:183-185 | (2022,1,1) > (2021,1,3), (2021,2,3) < (2021,3,2), and equal dates compare Equal |
| Times.NewUtc | src/date_and_time/time.rs:31-44 | requires hour ≤ 23, minute ≤ 59 and second ≤ 59 (no leap second); the time holds exactly those fields |
| Times.Format | src/date_and_time/time.rs:96-99 | seven characters: six digits whose pairs denote hour, minute and second, then `Z` |
| Times.Parse | src/date_and_time/time.rs:65-93 | a parsed time formats back to the parsed text |
| Times.ParseAcceptsExactly | src/date_and_time/time.rs:65-93 | parsing succeeds iff the text is seven characters, six digits then `Z`, with hour ≤ 23, minute ≤ 59 and second ≤ 59 |
| Times.ParseFields | src/date_and_time/time.rs:76-92 | on six digits and `Z`, succeeds iff each field is in range, and then formats back to the text |
| Times.ParseFormat | src/date_and_time/time.rs:65-99 | every time survives formatting then parsing unchanged |
| Times.FormatInjective | src/date_and_time/time.rs:96-99 | two times with the same text are equal |
| Times.FormatExamples | src/date_and_time/time.rs:139-140 | 23:59:59 is written "235959Z", midnight "000000Z" |
| Times.FormatExample7 | src/date_and_time/time.rs:96-99 | 07:00:00 is written "070000Z" |
| Times.ParseAcceptsLastSecond | src/date_and_time/time.rs:120-123 | "235959Z" parses to 23:59:59 |
| Times.ParseRejectsExamples | src/date_and_time/time.rs:130-134 | a missing `Z`, hour 24, minute 60 and the leap second are rejected |
| Times.ParseRejectsSecond60 | src/date_and_time/time.rs:132 | "000060Z" is rejected |
| Times.FormatPreservesOrder | src/date_and_time/time.rs:12-17 | comparing two times' texts as strings gives the derived order on (hour, minute, second) |
| Times.Compare | src/date_and_time/time.rs:12-17 | definition of the derived `Ord`, field by field; `CompareIsTotalOrder`, `FormatPreservesOrder` and `CompareExamples` state its properties |
| Times.CompareIsTotalOrder | src/date_and_time/time.rs:12-17 | the derived order is Equal exactly on equal times, antisymmetric and transitive |
| Times.CompareExamples | src/date_and_time/time.rs:147-149 | 13:00:01 > 12:00:03, 17:20:35 < 17:35:20, and equal times compare Equal |
| DateTimes.Format | src/date_and_time/date_time.rs:34-37 | sixteen characters: the date's text, `T` at index 8, the time's text ending in `Z` |
| DateTimes.Parse | src/date_and_time/date_time.rs:20-31 | a text without `T` is rejected; a result is valid and formats back to the text |
| DateTimes.ParseSplits | src/date_and_time/date_time.rs:24-29 | around the first `T`, parsing succeeds iff the date part and the time part both parse, and the result holds exactly those two values |
| DateTimes.ParseFormat | src/date_and_time/date_time.rs:20-37 | every valid date-time survives formatting then parsing unchanged |
| DateTimes.FormatInjective | src/date_and_time/date_time.rs:34-37 | two date-times with the same text are equal, whether or not their dates are valid |
| DateTimes.FormatExample | src/date_and_time/date_time.rs:75-84 | 1998-01-19 07:00:00 is written "19980119T070000Z" |
| DateTimes.FormatExample2021 | src/date_and_time/date_time.rs:34-37 | 2021-01-01 00:00:00 is written "20210101T000000Z" |
| DateTimes.ParseExample | src/date_and_time/date_time.rs:61-67 | "19980119T070000Z" parses to 1998-01-19 07:00:00 |
| DateTimes.ParseRejectsLocalTime | src/date_and_time/date_time.rs:69 | a local time without `Z` is rejected |
| DateTimes.ParseRejectsUtcOffset | src/date_and_time/date_time.rs:70 | a time with a UTC offset is rejected |
| DateTimes.FormatPreservesOrder | src/date_and_time/date_time.rs:12-18 | comparing two date-times' texts as strings gives the derived order: date first, then time |
| DateTimes.Compare | src/date_and_time/date_time.rs:12-18 | definition of the derived `Ord`, date first then time; `CompareIsTotalOrder` and `FormatPreservesOrder` state its properties |
| DateTimes.CompareIsTotalOrder | src/date_and_time/date_time.rs:12-18 | the derived order is Equal exactly on equal date-times, antisymmetric and transitive |
| Text.ZeroPad | src/date_and_time/date.rs:144 | `{:0N}`: all digits, denoting the number, exactly N long when the number fits in N digits |
| Text.SplitOnce | src/date_and_time/date_time.rs:24 | nothing iff the separator is absent; otherwise the text is the part before + separator + the part after, and the part before has no separator |
| Text.SplitOnceAt | src/date_and_time/date_time.rs:24 | splitting `a + c + b` where `a` has no `c` gives back `(a, b)` |
| StartDateTimes.FromDate | src/start_date_time.rs:22-28 | the whole-day case holding the given date |
| StartDateTimes.FromDateTime | src/start_date_time.rs:30-36 | the precise case holding the given date-time |
| StartDateTimes.ValueText | src/start_date_time.rs:44-51 | definition: the date's or the date-time's `Display` text; `TextShape`, `TextInjective` and `TextExamples` state its properties |
| StartDateTimes.TextShape | src/start_date_time.rs:44-50 | a whole-day value is written in 8 characters with no `T`; a precise one in 16 with `T` and `Z` |
| StartDateTimes.FromDateNeverFromDateTime | src/start_date_time.rs:38-42 | a start made from a date never equals one made from a date-time, nor is its text the same |
| StartDateTimes.TextInjective | src/start_date_time.rs:44-50 | two starts with the same text are equal, whether or not their dates are valid |
| StartDateTimes.Line | src/start_date_time.rs:17-19 | the line is named `DTSTART` and carries the value's text |
| StartDateTimes.Write | src/start_date_time.rs:17-19 | one write attempt, of exactly that line; the sink and the result are those of writing that one line |
| StartDateTimes.TextExamples | src/start_date_time.rs:44-50 | a start on 2021-01-01 is written "20210101"; one at 1998-01-19 07:00:00 "19980119T070000Z" |
| RecurrenceRules.ParseFrequency | src/recurrence_rule.rs:77-91 | a parsed frequency has the parsed text as its token |
| RecurrenceRules.Token | src/recurrence_rule.rs:63-75 | definition of the frequency's `Display` text; `TokensDistinct`, `TokenHasNoSeparator` and `ParseFrequencyExact` state its properties |
| RecurrenceRules.ParseFrequencyExact | src/recurrence_rule.rs:63-91 | parsing gives a frequency iff the text is exactly its token: an exact, case-sensitive match, and the round trip of every token |
| RecurrenceRules.TokensDistinct | src/recurrence_rule.rs:63-75 | two frequencies have the same token iff they are the same frequency |
| RecurrenceRules.ParseFrequencyExamples | src/recurrence_rule.rs:80-91 | "WEEKLY" parses; "weekly", "FREQ=WEEKLY" and "" do not |
| RecurrenceRules.New | src/recurrence_rule.rs:19-21 | the given frequency and no end bound |
| RecurrenceRules.Until | src/recurrence_rule.rs:24-29 | the receiver's frequency with the given end bound; the receiver is a value and is left as it was |
| RecurrenceRules.Format | src/recurrence_rule.rs:32-40 | definition of the rule's `Display` text; `FormatInjective`, `UntilWrittenIffSet`, `FormatWithBound` and the examples state its properties |
| RecurrenceRules.UntilPart | src/recurrence_rule.rs:35-37 | definition of the `;UNTIL=` part, empty without a bound; `UntilPartInjective` and `UntilWrittenIffSet` state its properties |
| RecurrenceRules.UntilLastWins | src/recurrence_rule.rs:24-29 | setting the bound twice is setting it once to the second bound |
| RecurrenceRules.FormatExampleWeekly | src/recurrence_rule.rs:32-39 | a weekly rule is written "FREQ=WEEKLY" |
| RecurrenceRules.FormatWithBound | src/recurrence_rule.rs:32-39 | a rule with a bound is written `FREQ=`, the token, `;UNTIL=`, then the bound's text |
| RecurrenceRules.FormatExampleUntil | src/recurrence_rule.rs:32-39 | weekly until 1998-01-19 07:00:00 is written "FREQ=WEEKLY;UNTIL=19980119T070000Z" |
| RecurrenceRules.UntilWrittenIffSet | src/recurrence_rule.rs:35-37 | the text holds a `;` exactly when the rule has an end bound |
| RecurrenceRules.TokenHasNoSeparator | src/recurrence_rule.rs:63-75 | no token contains `;` |
| RecurrenceRules.UntilPartInjective | src/recurrence_rule.rs:35-37 | the `UNTIL` part determines the bound |
| RecurrenceRules.FormatInjective | src/recurrence_rule.rs:32-39 | two rules with the same text are equal, whether or not their bounds are valid |
| ContentLines.EmitClosedForm | src/lib.rs:128-138 | if the k-th attempt fails, the sink holds exactly the first k lines, k+1 attempts were made and that error is returned; otherwise every line is appended in order, one attempt each |
| ContentLines.Emit | src/lib.rs:130-136 | definition of writing lines one at a time under `?`; `EmitClosedForm`, `EmitConcat`, `EmitStopped`, `EmitExtended` and `EmitFaultless` state its properties |
| ContentLines.EmitConcat | src/lib.rs:133-135 | writing two runs is writing the first and, only if it succeeded, the second |
| ContentLines.EmitStopped | src/lib.rs:130-136 | once a prefix of the lines has failed, the lines after it change nothing |
| ContentLines.EmitExtended | src/lib.rs:130-136 | after a prefix that succeeded, one more line continues from the state the prefix left |
| ContentLines.EmitFaultless | src/lib.rs:128-138 | a sink that never fails receives every line, in order |
| ContentLines.Sink.constructor | src/lib.rs:129 | a new writer has accepted nothing and seen no attempt |
| ContentLines.Sink.Write | src/lib.rs:130 | one attempt: the line is appended unless this is the failing attempt, whose error is returned |
| Calendars.DefaultProductIdentifierIsValue | src/lib.rs:36-41 | the default product identifier is a valid property value |
| Calendars.UuidTextIsValue | src/lib.rs:229 | the text of a UUID is always a valid value, which is why `new` may unwrap it |
| Calendars.Event.constructor | src/lib.rs:227-237 | the given start and stamp, the given UUID as UID, and no optional property set |
| Calendars.Event.SetDescription | src/lib.rs:244-248 | requires a valid value; only the description changes, to that value |
| Calendars.Event.SetLocation | src/lib.rs:255-259 | requires a valid value; only the location changes, to that value |
| Calendars.Event.SetSummary | src/lib.rs:266-270 | requires a valid value; only the summary changes, to that value |
| Calendars.Event.SetRecurrenceRule | src/lib.rs:273-275 | only the recurrence rule changes, replacing any earlier one |
| Calendars.FromEvent | src/lib.rs:172-176 | the event component holding the event as it stands |
| Calendars.OptionalLine | src/lib.rs:287-298 | one line with the given name and value when it is set, none otherwise |
| Calendars.Texts | src/lib.rs:284-297 | UID and the text properties are carried over unchanged; DTSTAMP is the stamp's `Display` text and DTSTART the start's; a rule text exists iff a rule is set, and is then the rule's `Display` text |
| Calendars.EventLinesOf | src/lib.rs:282-301 | definition of an event's lines from its texts; `EventLinesNested`, `OptionalPropertyValues` and `BareEventLines` state its properties |
| Calendars.EventLines | src/lib.rs:282-301 | definition: the lines of the event's texts; `OptionalPropertiesWrittenIffSet` and `WriteEvent` state its properties |
| Calendars.WriteEvent | src/lib.rs:282-301 | the sink and the result are those of writing the event's lines in order (BEGIN, UID, DTSTAMP, DTSTART, the set optional properties, RRULE if set, END), stopping at the first failure |
| Calendars.WriteComponent | src/lib.rs:165-169 | writing a component is writing its event's lines |
| Calendars.Calendar.constructor | src/lib.rs:69-74 | no product identifier and no components |
| Calendars.Calendar.SetProductIdentifier | src/lib.rs:86-92 | requires a valid value; stores it and leaves the components unchanged |
| Calendars.Calendar.ProductIdentifier | src/lib.rs:101-105 | the set identifier, or the default when none was set; either way a valid value |
| Calendars.Calendar.AddComponent | src/lib.rs:108-111 | appends the component at the end; the product identifier is unchanged |
| Calendars.Calendar.Components | src/lib.rs:115-117 | the components in insertion order |
| Calendars.ComponentsLines | src/lib.rs:133-135 | definition: each component's lines in order; `ComponentsNested` and `Calendar.Write` state its properties |
| Calendars.CalendarLines | src/lib.rs:128-138 | definition of the calendar's lines; `CalendarWellNested`, `Calendar.Write` and `EndToEndExample` state its properties |
| Calendars.Calendar.Write | src/lib.rs:128-138 | the sink and the result are those of writing BEGIN:VCALENDAR, PRODID, VERSION:2.0, each component's lines in insertion order, then END:VCALENDAR, stopping at the first failure |
| Calendars.EventLinesNested | src/lib.rs:282-301 | an event's lines are BEGIN:VEVENT, its properties, then END:VEVENT; no property is a BEGIN or END marker; so the lines balance from any open context |
| Calendars.ComponentsNested | src/lib.rs:133-135 | the components' lines together open and close markers in balance |
| Calendars.CalendarWellNested | src/lib.rs:128-138 | what `Calendar::write` hands over is well nested: every BEGIN is closed by the matching END |
| Calendars.OptionalPropertyValues | src/lib.rs:287-298 | under the name of one optional property, an event's lines carry exactly that property's text when it is set, and nothing otherwise |
| Calendars.OptionalPropertiesWrittenIffSet | src/lib.rs:287-298 | DESCRIPTION, LOCATION, SUMMARY and RRULE are each written exactly once when set, with their value, and not at all otherwise |
| Calendars.BareEventLines | src/lib.rs:282-301 | an event with no optional property is BEGIN, UID, DTSTAMP, DTSTART, END |
| Calendars.EndToEndExample | src/lib.rs:128-138 | a calendar with the default identifier and one bare event on 2021-01-01 writes the nine expected lines |
| Calendars.EndToEnd | src/lib.rs:69-138 | building that event and calendar through the objects, then writing to a sink that never fails, succeeds and delivers exactly those nine lines |

## Left out

- Escaping, line folding and CRLF line endings are done by the external content-line writer, as is the byte stream it writes to. A line here is the `(name, value)` pair the library hands over.
- A write that fails after writing part of a line is not modelled: an attempt either appends its whole line or fails.
- The sink fails on at most one attempt, the one its `Fault` names; a real writer could fail at any attempt. After a failure `write` stops, so later attempts never matter.
- The external `Value` wrapper's acceptance rule is not part of this model. `ValidValue` is the VALUE-CHAR production of section 3.1 of RFC 5545: no control character except horizontal tab.
- `Uuid::new_v4` is random. The UID is passed to `Event`'s constructor as any text of a UUID. Uniqueness across events is probabilistic and not stated.
- `DEFAULT_PRODUCT_IDENTIFIER` takes the package name and version from the build environment. The model uses stand-in constants `"ical"` and `"0.1.0"`.
- Panics become preconditions, and their messages are not modelled. Neither are the error types' `Display` texts, the `Debug`/`Hash`/`Clone` derives or the crate's lint attributes.
- Rust string lengths count bytes; the model counts characters. Every length check is followed by an ASCII-digit or `Z` check, so each accepts the same texts either way.
- The getters (`year`, `month`, `day`, `hour`, `minute`, `second`, and the `DateTime` fields) are the datatypes' field selectors.
- Ownership: a `Component` holds a snapshot of its event's value. The Rust event is moved into the component, so no aliasing can arise.
- `Times.Parse`: its acceptance condition is stated by `Times.ParseAcceptsExactly` rather than in its own contract, which keeps the proof small. The three shape checks, which return the same error in the source, are one test.
- `Dates.Parse`: the year check against 9999 is kept out of the branches because it can never reject. `Dates.DigitFields` proves this.
