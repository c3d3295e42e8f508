/**
  The iCalendar object (sections 3.4 and 3.6.1 of RFC 5545): a calendar owns
  an ordered list of components, each an event, and `write` hands their
  content lines to the writer in a fixed order, bracketed by BEGIN and END
  markers, stopping at the first write that fails.
 */
module Calendars {
  import opened Prelude
  import opened ContentLines
  import Dates
  import Times
  import DateTimes
  import StartDateTimes
  import RecurrenceRules

  /** A text the writer's value wrapper accepts: the setters panic on anything else. */
  type Value = s: string | ValidValue(s)

  /**
    `DEFAULT_PRODUCT_IDENTIFIER`: the author's domain, then the package name
    and version, which the build fills in; the two stand-ins below take their
    place.
   */
  const PackageName: string := "ical"
  const PackageVersion: string := "0.1.0"
  const DefaultProductIdentifier: string := "nicolabruhin.com : " + PackageName + " " + PackageVersion

  lemma DefaultProductIdentifierIsValue()
    ensures ValidValue(DefaultProductIdentifier)
  {
  }

  predicate IsHexDigit(c: char) {
    '0' <= c <= '9' || 'a' <= c <= 'f'
  }

  /** The hyphenated lower-case text of a UUID: 8-4-4-4-12 hexadecimal digits. */
  predicate UuidText(s: string) {
    && |s| == 36
    && (forall i | 0 <= i < 36 :: if i in {8, 13, 18, 23} then s[i] == '-' else IsHexDigit(s[i]))
  }

  /** Why `Event::new` may unwrap its UID: the text of a UUID is always a value. */
  lemma UuidTextIsValue(s: string)
    requires UuidText(s)
    ensures ValidValue(s)
  {
    forall i | 0 <= i < |s|
      ensures s[i] == '\t' || (' ' <= s[i] && s[i] as int != 0x7F)
    {
      if i !in {8, 13, 18, 23} {
        assert IsHexDigit(s[i]);
      }
    }
  }

  /** What an event holds; the optional properties are absent until set. */
  datatype EventData = EventData(
    uid: Value,
    stamp: DateTimes.DateTime,
    start: StartDateTimes.StartDateTime,
    description: Option<Value>,
    location: Option<Value>,
    summary: Option<Value>,
    recurrenceRule: Option<RecurrenceRules.RecurrenceRule>)

  /**
    An event under construction.  The UID, stamp and start are fixed by
    `new`; the four optional properties have setters that overwrite them in
    place.  The UID is a random version-4 UUID in the source; here it is
    passed in.
   */
  class Event {
    const uid: Value
    const stamp: DateTimes.DateTime
    const start: StartDateTimes.StartDateTime
    var description: Option<Value>
    var location: Option<Value>
    var summary: Option<Value>
    var recurrenceRule: Option<RecurrenceRules.RecurrenceRule>

    /** The event's current properties, as a value. */
    function Data(): EventData
      reads this
    {
      EventData(uid, stamp, start, description, location, summary, recurrenceRule)
    }

    /** `Event::new`: the given start and stamp, a fresh UID, and no optional property set. */
    constructor (start: StartDateTimes.StartDateTime, stamp: DateTimes.DateTime, uuid: string)
      requires UuidText(uuid)
      ensures Data() == EventData(uuid, stamp, start, None, None, None, None)
    {
      UuidTextIsValue(uuid);
      this.uid := uuid;
      this.stamp := stamp;
      this.start := start;
      description := None;
      location := None;
      summary := None;
      recurrenceRule := None;
    }

    method SetDescription(description: string)
      requires ValidValue(description)
      modifies this
      ensures Data() == old(Data()).(description := Some(description))
    {
      this.description := Some(description);
    }

    method SetLocation(location: string)
      requires ValidValue(location)
      modifies this
      ensures Data() == old(Data()).(location := Some(location))
    {
      this.location := Some(location);
    }

    method SetSummary(summary: string)
      requires ValidValue(summary)
      modifies this
      ensures Data() == old(Data()).(summary := Some(summary))
    {
      this.summary := Some(summary);
    }

    /** Attaches a rule, replacing any earlier one. */
    method SetRecurrenceRule(recurrenceRule: RecurrenceRules.RecurrenceRule)
      modifies this
      ensures Data() == old(Data()).(recurrenceRule := Some(recurrenceRule))
    {
      this.recurrenceRule := Some(recurrenceRule);
    }
  }

  /** The kinds of calendar component; an event is the only one. */
  datatype Component = EventComponent(event: EventData)

  /** `From<Event>`: the component owns the event as it stands. */
  function FromEvent(e: Event): (c: Component)
    reads e
    ensures c.EventComponent? && c.event == e.Data()
  {
    EventComponent(e.Data())
  }

  /** The line of an optional property: one line when it is set, none otherwise. */
  function OptionalLine(name: string, value: Option<string>): (lines: seq<ContentLine>)
    ensures |lines| == (if value.Some? then 1 else 0)
    ensures forall i | 0 <= i < |lines| :: lines[i] == ContentLine(name, value.value)
  {
    match value
    case None => []
    case Some(text) => [ContentLine(name, text)]
  }

  /** The texts an event's lines carry: each property as the writer receives it. */
  datatype EventTexts = EventTexts(
    uid: string,
    stamp: string,
    start: string,
    description: Option<string>,
    location: Option<string>,
    summary: Option<string>,
    rule: Option<string>)

  /** The text of each property of an event: its `Display` form, or the value itself for the text properties. */
  function Texts(e: EventData): (t: EventTexts)
    ensures t.uid == e.uid && t.description == e.description && t.location == e.location && t.summary == e.summary
    ensures t.stamp == DateTimes.Format(e.stamp) && t.start == StartDateTimes.ValueText(e.start)
    ensures t.rule.Some? <==> e.recurrenceRule.Some?
    ensures e.recurrenceRule.Some? ==> t.rule == Some(RecurrenceRules.Format(e.recurrenceRule.value))
  {
    EventTexts(e.uid, DateTimes.Format(e.stamp), StartDateTimes.ValueText(e.start),
      e.description, e.location, e.summary,
      match e.recurrenceRule case None => None case Some(r) => Some(RecurrenceRules.Format(r)))
  }

  /** The properties every event has, in the order they are written. */
  function RequiredProperties(t: EventTexts): seq<ContentLine> {
    [ContentLine("UID", t.uid),
     ContentLine("DTSTAMP", t.stamp),
     ContentLine("DTSTART", t.start)]
  }

  /** The properties of an event with these texts: the required ones, then each optional one that is set. */
  function EventProperties(t: EventTexts): seq<ContentLine> {
    RequiredProperties(t)
      + OptionalLine("DESCRIPTION", t.description)
      + OptionalLine("LOCATION", t.location)
      + OptionalLine("SUMMARY", t.summary)
      + OptionalLine("RRULE", t.rule)
  }

  /** The lines of an event with these texts: its properties between the VEVENT markers. */
  function EventLinesOf(t: EventTexts): seq<ContentLine> {
    [ContentLine("BEGIN", "VEVENT")] + EventProperties(t) + [ContentLine("END", "VEVENT")]
  }

  /** The lines `Event::write` hands over. */
  function EventLines(e: EventData): seq<ContentLine> {
    EventLinesOf(Texts(e))
  }

  function ComponentLines(c: Component): seq<ContentLine> {
    match c
    case EventComponent(e) => EventLines(e)
  }

  /** The lines of the components, in insertion order. */
  function ComponentsLines(cs: seq<Component>): seq<ContentLine> {
    if cs == [] then [] else ComponentLines(cs[0]) + ComponentsLines(cs[1..])
  }

  /** The properties of a calendar: its product identifier and the iCalendar version. */
  function CalendarProperties(productIdentifier: string): seq<ContentLine> {
    [ContentLine("PRODID", productIdentifier),
     ContentLine("VERSION", "2.0")]
  }

  /** The lines `Calendar::write` hands over: its properties and its components between the VCALENDAR markers. */
  function CalendarLines(productIdentifier: string, cs: seq<Component>): seq<ContentLine> {
    [ContentLine("BEGIN", "VCALENDAR")] + CalendarProperties(productIdentifier) + ComponentsLines(cs)
      + [ContentLine("END", "VCALENDAR")]
  }

  /** The lines of an event, grouped as `Event::write` takes them: one at a time from the front. */
  lemma EventLinesFromFront(t: EventTexts)
    ensures EventLinesOf(t) ==
      [ContentLine("BEGIN", "VEVENT")] + ([ContentLine("UID", t.uid)]
      + ([ContentLine("DTSTAMP", t.stamp)] + ([ContentLine("DTSTART", t.start)]
      + (OptionalLine("DESCRIPTION", t.description) + (OptionalLine("LOCATION", t.location)
      + (OptionalLine("SUMMARY", t.summary) + (OptionalLine("RRULE", t.rule) + [ContentLine("END", "VEVENT")])))))))
  {
    var q := RequiredProperties(t);
    var d, l, s := OptionalLine("DESCRIPTION", t.description), OptionalLine("LOCATION", t.location), OptionalLine("SUMMARY", t.summary);
    var r, z := OptionalLine("RRULE", t.rule), [ContentLine("END", "VEVENT")];
    ConcatAssoc([ContentLine("BEGIN", "VEVENT")], EventProperties(t), z);
    ConcatAssoc(q + d + l + s, r, z);
    ConcatAssoc(q + d + l, s, r + z);
    ConcatAssoc(q + d, l, s + (r + z));
    ConcatAssoc(q, d, l + (s + (r + z)));
    ConsThree(q[0], q[1], q[2], d + (l + (s + (r + z))));
  }

  /** The lines of a calendar, grouped as `Calendar::write` takes them. */
  lemma CalendarLinesFromFront(productIdentifier: string, cs: seq<Component>)
    ensures CalendarLines(productIdentifier, cs) ==
      [ContentLine("BEGIN", "VCALENDAR")] + ([ContentLine("PRODID", productIdentifier)]
      + ([ContentLine("VERSION", "2.0")] + (ComponentsLines(cs[0..]) + [ContentLine("END", "VCALENDAR")])))
  {
    assert cs[0..] == cs;
    var b, p := [ContentLine("BEGIN", "VCALENDAR")], CalendarProperties(productIdentifier);
    var m, z := ComponentsLines(cs), [ContentLine("END", "VCALENDAR")];
    ConcatAssoc(b + p, m, z);
    ConcatAssoc(b, p, m + z);
    ConsThree(b[0], p[0], p[1], m + z);
  }

  /** The lines of the components from the i-th on: those of the i-th, then those of the ones after it. */
  lemma ComponentsLinesFromFront(cs: seq<Component>, i: nat)
    requires i < |cs|
    ensures ComponentsLines(cs[i..]) + [ContentLine("END", "VCALENDAR")]
      == ComponentLines(cs[i]) + (ComponentsLines(cs[i + 1..]) + [ContentLine("END", "VCALENDAR")])
  {
    var rest := cs[i..];
    assert rest[0] == cs[i] && rest[1..] == cs[i + 1..];
    assert ComponentsLines(rest) == ComponentLines(cs[i]) + ComponentsLines(cs[i + 1..]);
    ConcatAssoc(ComponentLines(cs[i]), ComponentsLines(cs[i + 1..]), [ContentLine("END", "VCALENDAR")]);
  }

  /** `Event::write`: each line in turn, returning the first failure. */
  method WriteEvent(e: EventData, sink: Sink) returns (r: Result<(), IoError>)
    modifies sink
    ensures Outcome(sink.State(), r) == Emit(sink.fault, old(sink.State()), EventLines(e))
  {
    ghost var t := Texts(e);
    EventLinesFromFront(t);
    ghost var all := Emit(sink.fault, sink.State(), EventLinesOf(t));
    var endLine := ContentLine("END", "VEVENT");
    ghost var t4 := [endLine];
    ghost var t3 := OptionalLine("RRULE", t.rule) + t4;
    ghost var t2 := OptionalLine("SUMMARY", t.summary) + t3;
    ghost var t1 := OptionalLine("LOCATION", t.location) + t2;
    ghost var t0 := OptionalLine("DESCRIPTION", t.description) + t1;
    ghost var rest2 := [ContentLine("DTSTART", t.start)] + t0;
    ghost var rest1 := [ContentLine("DTSTAMP", t.stamp)] + rest2;
    ghost var rest0 := [ContentLine("UID", t.uid)] + rest1;
    ghost var before := sink.State();

    var line := ContentLine("BEGIN", "VEVENT");
    r := sink.Write(line);
    EmitStep(sink.fault, before, sink.State(), r, line, rest0);
    if r.Err? {
      return;
    }
    before := sink.State();
    line := ContentLine("UID", e.uid);
    r := sink.Write(line);
    EmitStep(sink.fault, before, sink.State(), r, line, rest1);
    if r.Err? {
      return;
    }
    before := sink.State();
    line := ContentLine("DTSTAMP", DateTimes.Format(e.stamp));
    r := sink.Write(line);
    EmitStep(sink.fault, before, sink.State(), r, line, rest2);
    if r.Err? {
      return;
    }
    before := sink.State();
    r := StartDateTimes.Write(e.start, sink);
    EmitStep(sink.fault, before, sink.State(), r, StartDateTimes.Line(e.start), t0);
    if r.Err? {
      return;
    }
    assert all == Emit(sink.fault, sink.State(), t0);
    if e.description.Some? {
      before := sink.State();
      line := ContentLine("DESCRIPTION", e.description.value);
      r := sink.Write(line);
      EmitStep(sink.fault, before, sink.State(), r, line, t1);
      if r.Err? {
        return;
      }
    } else {
      assert t0 == t1;
    }
    assert all == Emit(sink.fault, sink.State(), t1);
    if e.location.Some? {
      before := sink.State();
      line := ContentLine("LOCATION", e.location.value);
      r := sink.Write(line);
      EmitStep(sink.fault, before, sink.State(), r, line, t2);
      if r.Err? {
        return;
      }
    } else {
      assert t1 == t2;
    }
    assert all == Emit(sink.fault, sink.State(), t2);
    if e.summary.Some? {
      before := sink.State();
      line := ContentLine("SUMMARY", e.summary.value);
      r := sink.Write(line);
      EmitStep(sink.fault, before, sink.State(), r, line, t3);
      if r.Err? {
        return;
      }
    } else {
      assert t2 == t3;
    }
    assert all == Emit(sink.fault, sink.State(), t3);
    if e.recurrenceRule.Some? {
      before := sink.State();
      line := ContentLine("RRULE", RecurrenceRules.Format(e.recurrenceRule.value));
      r := sink.Write(line);
      EmitStep(sink.fault, before, sink.State(), r, line, t4);
      if r.Err? {
        return;
      }
    } else {
      assert t3 == t4;
    }
    assert all == Emit(sink.fault, sink.State(), t4);
    r := sink.Write(endLine);
  }

  /** `Component::write`: dispatch on the kind of component. */
  method WriteComponent(c: Component, sink: Sink) returns (r: Result<(), IoError>)
    modifies sink
    ensures Outcome(sink.State(), r) == Emit(sink.fault, old(sink.State()), ComponentLines(c))
  {
    match c
    case EventComponent(e) =>
      r := WriteEvent(e, sink);
  }

  /**
    A calendar: an optional product identifier, which reads as the default
    when it was never set, and the components in the order they were added.
   */
  class Calendar {
    var productIdentifier: Option<Value>
    var components: seq<Component>

    /** `Calendar::new`: no product identifier set and no components. */
    constructor ()
      ensures productIdentifier == None && components == []
    {
      productIdentifier := None;
      components := [];
    }

    method SetProductIdentifier(productIdentifier: string)
      requires ValidValue(productIdentifier)
      modifies this
      ensures this.productIdentifier == Some(productIdentifier)
      ensures components == old(components)
    {
      this.productIdentifier := Some(productIdentifier);
    }

    /** The identifier that is set, or the default one; either way a value the writer accepts. */
    function ProductIdentifier(): (p: string)
      reads this
      ensures ValidValue(p)
      ensures productIdentifier.None? ==> p == DefaultProductIdentifier
      ensures productIdentifier.Some? ==> p == productIdentifier.value
    {
      DefaultProductIdentifierIsValue();
      match productIdentifier
      case None => DefaultProductIdentifier
      case Some(text) => text
    }

    /** Appends at the end: insertion order is kept, and is the order of writing. */
    method AddComponent(component: Component)
      modifies this
      ensures components == old(components) + [component]
      ensures productIdentifier == old(productIdentifier)
    {
      components := components + [component];
    }

    function Components(): (cs: seq<Component>)
      reads this
      ensures cs == components
    {
      components
    }

    /** `Calendar::write`: the header lines, each component in insertion order, the closing line. */
    method Write(sink: Sink) returns (r: Result<(), IoError>)
      modifies sink
      ensures Outcome(sink.State(), r) == Emit(sink.fault, old(sink.State()), CalendarLines(ProductIdentifier(), components))
    {
      var productIdentifier, cs := ProductIdentifier(), components;
      ghost var all := Emit(sink.fault, sink.State(), CalendarLines(productIdentifier, cs));
      var endLine := ContentLine("END", "VCALENDAR");
      ghost var tail := [endLine];
      ghost var rest1 := [ContentLine("VERSION", "2.0")] + (ComponentsLines(cs[0..]) + tail);
      ghost var rest0 := [ContentLine("PRODID", productIdentifier)] + rest1;
      CalendarLinesFromFront(productIdentifier, cs);
      ghost var before := sink.State();

      var line := ContentLine("BEGIN", "VCALENDAR");
      r := sink.Write(line);
      EmitStep(sink.fault, before, sink.State(), r, line, rest0);
      if r.Err? {
        return;
      }
      before := sink.State();
      line := ContentLine("PRODID", productIdentifier);
      r := sink.Write(line);
      EmitStep(sink.fault, before, sink.State(), r, line, rest1);
      if r.Err? {
        return;
      }
      before := sink.State();
      line := ContentLine("VERSION", "2.0");
      r := sink.Write(line);
      EmitStep(sink.fault, before, sink.State(), r, line, ComponentsLines(cs[0..]) + tail);
      if r.Err? {
        return;
      }
      for i := 0 to |cs|
        invariant all == Emit(sink.fault, sink.State(), ComponentsLines(cs[i..]) + tail)
      {
        ComponentsLinesFromFront(cs, i);
        before := sink.State();
        r := WriteComponent(cs[i], sink);
        EmitRunStep(sink.fault, before, sink.State(), r, ComponentLines(cs[i]), ComponentsLines(cs[i + 1..]) + tail);
        if r.Err? {
          return;
        }
      }
      assert cs[|cs|..] == [];
      assert ComponentsLines(cs[|cs|..]) + tail == [endLine];
      r := sink.Write(endLine);
    }
  }

  /**
    The markers still open after a run of lines, innermost last, or nothing
    when an END does not close the innermost open BEGIN.
   */
  function Nest(lines: seq<ContentLine>, open: seq<string>): Option<seq<string>>
    decreases |lines|
  {
    if lines == [] then
      Some(open)
    else if lines[0].name == "BEGIN" then
      Nest(lines[1..], open + [lines[0].value])
    else if lines[0].name == "END" then
      if open != [] && open[|open| - 1] == lines[0].value then Nest(lines[1..], open[..|open| - 1]) else None
    else
      Nest(lines[1..], open)
  }

  /** Every BEGIN is closed by an END with the same value, in the reverse order of opening. */
  predicate WellNested(lines: seq<ContentLine>) {
    Nest(lines, []) == Some([])
  }

  predicate IsMarker(line: ContentLine) {
    line.name == "BEGIN" || line.name == "END"
  }

  lemma {:induction false} NestConcat(a: seq<ContentLine>, b: seq<ContentLine>, open: seq<string>)
    ensures Nest(a + b, open) == match Nest(a, open) case None => None case Some(o) => Nest(b, o)
    decreases |a|
  {
    if a == [] {
      assert a + b == b;
    } else {
      assert (a + b)[0] == a[0] && (a + b)[1..] == a[1..] + b;
      var o := open + [a[0].value];
      if a[0].name == "BEGIN" {
        NestConcat(a[1..], b, o);
      } else if a[0].name == "END" {
        if open != [] && open[|open| - 1] == a[0].value {
          NestConcat(a[1..], b, open[..|open| - 1]);
        }
      } else {
        NestConcat(a[1..], b, open);
      }
    }
  }

  /** A run of lines with no BEGIN or END among them. */
  predicate NoMarkers(lines: seq<ContentLine>) {
    forall i | 0 <= i < |lines| :: !IsMarker(lines[i])
  }

  lemma NoMarkersConcat(a: seq<ContentLine>, b: seq<ContentLine>)
    requires NoMarkers(a) && NoMarkers(b)
    ensures NoMarkers(a + b)
  {
    forall i | 0 <= i < |a + b|
      ensures !IsMarker((a + b)[i])
    {
      if i >= |a| {
        assert (a + b)[i] == b[i - |a|];
      }
    }
  }

  /** Lines that are not markers leave the open markers as they are. */
  lemma {:induction false} PropertiesKeepNesting(lines: seq<ContentLine>, open: seq<string>)
    requires NoMarkers(lines)
    ensures Nest(lines, open) == Some(open)
    decreases |lines|
  {
    if lines != [] {
      assert NoMarkers(lines[1..]) by {
        forall i | 0 <= i < |lines[1..]|
          ensures !IsMarker(lines[1..][i])
        {
          assert lines[1..][i] == lines[i + 1];
        }
      }
      PropertiesKeepNesting(lines[1..], open);
    }
  }

  /**
    A BEGIN, lines that are not markers, a body that closes whatever it opens,
    and the matching END leave the open markers as they were.
   */
  lemma Enclosed(marker: string, props: seq<ContentLine>, body: seq<ContentLine>, open: seq<string>)
    requires NoMarkers(props)
    requires Nest(body, open + [marker]) == Some(open + [marker])
    ensures Nest([ContentLine("BEGIN", marker)] + props + body + [ContentLine("END", marker)], open) == Some(open)
  {
    var begin, end := [ContentLine("BEGIN", marker)], [ContentLine("END", marker)];
    var inner := open + [marker];
    NestConcat(begin + props + body, end, open);
    NestConcat(begin + props, body, open);
    NestConcat(begin, props, open);
    assert Nest(begin, open) == Some(inner) by {
      assert begin[1..] == [];
    }
    PropertiesKeepNesting(props, inner);
    assert Nest(end, inner) == Some(open) by {
      assert end[1..] == [];
      assert inner[..|inner| - 1] == open;
    }
  }

  /** No property of an event is a marker. */
  lemma EventPropertiesHaveNoMarkers(t: EventTexts)
    ensures NoMarkers(EventProperties(t))
  {
    var q := RequiredProperties(t);
    var d, l, s := OptionalLine("DESCRIPTION", t.description), OptionalLine("LOCATION", t.location), OptionalLine("SUMMARY", t.summary);
    var r := OptionalLine("RRULE", t.rule);
    NoMarkersConcat(q, d);
    NoMarkersConcat(q + d, l);
    NoMarkersConcat(q + d + l, s);
    NoMarkersConcat(q + d + l + s, r);
  }

  /** An event opens VEVENT, writes only properties, and closes VEVENT; so its lines balance. */
  lemma EventLinesNested(t: EventTexts, open: seq<string>)
    ensures EventLinesOf(t) == [ContentLine("BEGIN", "VEVENT")] + EventProperties(t) + [ContentLine("END", "VEVENT")]
    ensures NoMarkers(EventProperties(t))
    ensures Nest(EventLinesOf(t), open) == Some(open)
  {
    var begin, props := [ContentLine("BEGIN", "VEVENT")], EventProperties(t);
    EventPropertiesHaveNoMarkers(t);
    assert Nest([], open + ["VEVENT"]) == Some(open + ["VEVENT"]);
    assert begin + props + [] == begin + props;
    Enclosed("VEVENT", props, [], open);
  }

  lemma {:induction false} ComponentsNested(cs: seq<Component>, open: seq<string>)
    ensures Nest(ComponentsLines(cs), open) == Some(open)
    decreases |cs|
  {
    if cs != [] {
      NestConcat(ComponentLines(cs[0]), ComponentsLines(cs[1..]), open);
      EventLinesNested(Texts(cs[0].event), open);
      ComponentsNested(cs[1..], open);
    }
  }

  /** What `Calendar::write` hands over is well nested: VCALENDAR encloses each VEVENT, and each VEVENT is closed before the next opens. */
  lemma CalendarWellNested(productIdentifier: string, cs: seq<Component>)
    ensures WellNested(CalendarLines(productIdentifier, cs))
  {
    var props := CalendarProperties(productIdentifier);
    assert NoMarkers(props);
    var open: seq<string> := [];
    assert open + ["VCALENDAR"] == ["VCALENDAR"];
    ComponentsNested(cs, ["VCALENDAR"]);
    Enclosed("VCALENDAR", props, ComponentsLines(cs), open);
  }

  /** The values of the lines with the given name, in order. */
  function ValuesNamed(lines: seq<ContentLine>, name: string): seq<string>
    decreases |lines|
  {
    if lines == [] then []
    else (if lines[0].name == name then [lines[0].value] else []) + ValuesNamed(lines[1..], name)
  }

  lemma {:induction false} ValuesNamedConcat(a: seq<ContentLine>, b: seq<ContentLine>, name: string)
    ensures ValuesNamed(a + b, name) == ValuesNamed(a, name) + ValuesNamed(b, name)
    decreases |a|
  {
    if a == [] {
      assert a + b == b;
    } else {
      assert (a + b)[0] == a[0] && (a + b)[1..] == a[1..] + b;
      ValuesNamedConcat(a[1..], b, name);
    }
  }

  function OptionValues(value: Option<string>): seq<string> {
    match value
    case None => []
    case Some(v) => [v]
  }

  /** The values of an event's lines under one name come from its markers and its properties, in order. */
  lemma EventValuesNamed(t: EventTexts, name: string)
    ensures ValuesNamed(EventLinesOf(t), name) ==
      ValuesNamed([ContentLine("BEGIN", "VEVENT")], name)
      + (ValuesNamed(RequiredProperties(t), name)
      + ValuesNamed(OptionalLine("DESCRIPTION", t.description), name)
      + ValuesNamed(OptionalLine("LOCATION", t.location), name)
      + ValuesNamed(OptionalLine("SUMMARY", t.summary), name)
      + ValuesNamed(OptionalLine("RRULE", t.rule), name))
      + ValuesNamed([ContentLine("END", "VEVENT")], name)
  {
    var b := [ContentLine("BEGIN", "VEVENT")];
    var q := RequiredProperties(t);
    var d, l, s := OptionalLine("DESCRIPTION", t.description), OptionalLine("LOCATION", t.location), OptionalLine("SUMMARY", t.summary);
    var r, z := OptionalLine("RRULE", t.rule), [ContentLine("END", "VEVENT")];
    ValuesNamedConcat(b + EventProperties(t), z, name);
    ValuesNamedConcat(b, EventProperties(t), name);
    ValuesNamedConcat(q + d + l + s, r, name);
    ValuesNamedConcat(q + d + l, s, name);
    ValuesNamedConcat(q + d, l, name);
    ValuesNamedConcat(q, d, name);
  }

  /** The values listed under a name from an optional line: its value when the names agree and it is set. */
  lemma OptionalLineValues(name: string, value: Option<string>, other: string)
    ensures ValuesNamed(OptionalLine(name, value), other) == if name == other then OptionValues(value) else []
  {
  }

  /** The one property name a line carries decides whether it is listed. */
  lemma SingleLineValues(line: ContentLine, name: string)
    ensures ValuesNamed([line], name) == if line.name == name then [line.value] else []
  {
    assert [line][1..] == [];
  }

  /** No required property of an event is an optional one. */
  lemma RequiredHaveNoOptionalProperty(t: EventTexts, name: string)
    requires name == "DESCRIPTION" || name == "LOCATION" || name == "SUMMARY" || name == "RRULE"
    ensures ValuesNamed(RequiredProperties(t), name) == []
  {
    var q := RequiredProperties(t);
    assert q == [q[0]] + ([q[1]] + [q[2]]);
    ValuesNamedConcat([q[0]], [q[1]] + [q[2]], name);
    ValuesNamedConcat([q[1]], [q[2]], name);
    SingleLineValues(q[0], name);
    SingleLineValues(q[1], name);
    SingleLineValues(q[2], name);
  }

  /** The values of an event's lines under the name of one of its optional properties: that property's text, if set. */
  lemma OptionalPropertyValues(t: EventTexts, name: string, value: Option<string>)
    requires (name == "DESCRIPTION" && value == t.description) || (name == "LOCATION" && value == t.location)
          || (name == "SUMMARY" && value == t.summary) || (name == "RRULE" && value == t.rule)
    ensures ValuesNamed(EventLinesOf(t), name) == OptionValues(value)
  {
    EventValuesNamed(t, name);
    RequiredHaveNoOptionalProperty(t, name);
    SingleLineValues(ContentLine("BEGIN", "VEVENT"), name);
    OptionalLineValues("DESCRIPTION", t.description, name);
    OptionalLineValues("LOCATION", t.location, name);
    OptionalLineValues("SUMMARY", t.summary, name);
    OptionalLineValues("RRULE", t.rule, name);
    SingleLineValues(ContentLine("END", "VEVENT"), name);
  }

  /**
    Each optional property of an event is written exactly when it is set:
    the values written under its name are the one it holds, or none.
   */
  lemma OptionalPropertiesWrittenIffSet(e: EventData)
    ensures ValuesNamed(EventLines(e), "DESCRIPTION") == OptionValues(e.description)
    ensures ValuesNamed(EventLines(e), "LOCATION") == OptionValues(e.location)
    ensures ValuesNamed(EventLines(e), "SUMMARY") == OptionValues(e.summary)
    ensures ValuesNamed(EventLines(e), "RRULE") ==
      if e.recurrenceRule.Some? then [RecurrenceRules.Format(e.recurrenceRule.value)] else []
  {
    var t := Texts(e);
    OptionalPropertyValues(t, "DESCRIPTION", t.description);
    OptionalPropertyValues(t, "LOCATION", t.location);
    OptionalPropertyValues(t, "SUMMARY", t.summary);
    OptionalPropertyValues(t, "RRULE", t.rule);
  }

  /** The lines of an event with no optional property set: the markers around the required properties. */
  lemma BareEventLines(t: EventTexts)
    requires t.description.None? && t.location.None? && t.summary.None? && t.rule.None?
    ensures EventLinesOf(t) == [ContentLine("BEGIN", "VEVENT")] + RequiredProperties(t) + [ContentLine("END", "VEVENT")]
  {
    var q := RequiredProperties(t);
    assert EventProperties(t) == q by {
      assert q + [] + [] + [] + [] == q;
    }
  }

  /** The lines of a calendar with the default identifier and one event, which starts on a date. */
  lemma EndToEndExample(uid: Value)
    ensures CalendarLines(DefaultProductIdentifier, [EventComponent(ExampleEvent(uid))]) == ExampleLines(uid)
  {
    var t := ExampleEventTexts(uid);
    BareEventLines(t);
    OneComponent(DefaultProductIdentifier, EventComponent(ExampleEvent(uid)));
    var event := [ContentLine("BEGIN", "VEVENT")] + RequiredProperties(t) + [ContentLine("END", "VEVENT")];
    assert event == ExampleLines(uid)[3..8];
  }

  /** The texts of the example event: its stamp and start written out. */
  lemma ExampleEventTexts(uid: Value) returns (t: EventTexts)
    ensures t == Texts(ExampleEvent(uid))
    ensures t == EventTexts(uid, "20210101T000000Z", "20210101", None, None, None, None)
  {
    DateTimes.FormatExample2021();
    Dates.FormatExample2021();
    t := Texts(ExampleEvent(uid));
  }

  /** A calendar with one component: the component's lines between the calendar's properties and its END. */
  lemma OneComponent(productIdentifier: string, c: Component)
    ensures CalendarLines(productIdentifier, [c]) ==
      [ContentLine("BEGIN", "VCALENDAR")] + CalendarProperties(productIdentifier) + ComponentLines(c)
      + [ContentLine("END", "VCALENDAR")]
  {
    SingleComponentLines(c);
  }

  lemma SingleComponentLines(c: Component)
    ensures ComponentsLines([c]) == ComponentLines(c)
  {
    var cs := [c];
    assert cs[0] == c && cs[1..] == [];
    ConcatEmpty(ComponentLines(c));
  }

  function ExampleEvent(uid: Value): EventData {
    EventData(uid, DateTimes.DateTime(Dates.New(2021, 1, 1), Times.NewUtc(0, 0, 0)),
      StartDateTimes.FromDate(Dates.New(2021, 1, 1)), None, None, None, None)
  }

  function ExampleLines(uid: string): seq<ContentLine> {
    [ContentLine("BEGIN", "VCALENDAR"),
     ContentLine("PRODID", DefaultProductIdentifier),
     ContentLine("VERSION", "2.0"),
     ContentLine("BEGIN", "VEVENT"),
     ContentLine("UID", uid),
     ContentLine("DTSTAMP", "20210101T000000Z"),
     ContentLine("DTSTART", "20210101"),
     ContentLine("END", "VEVENT"),
     ContentLine("END", "VCALENDAR")]
  }

  /**
    The same example through the objects: build the event and the calendar,
    write to a sink that never fails, and read back what it received.
   */
  method EndToEnd(uuid: string) returns (r: Result<(), IoError>, lines: seq<ContentLine>)
    requires UuidText(uuid)
    ensures r == Ok(()) && lines == ExampleLines(uuid)
  {
    var start := StartDateTimes.FromDate(Dates.New(2021, 1, 1));
    var stamp := DateTimes.DateTime(Dates.New(2021, 1, 1), Times.NewUtc(0, 0, 0));
    var event := new Event(start, stamp, uuid);
    UuidTextIsValue(uuid);
    var calendar := new Calendar();
    calendar.AddComponent(FromEvent(event));
    var sink := new Sink(Fault(None, IoError(0)));
    assert calendar.ProductIdentifier() == DefaultProductIdentifier;
    assert calendar.components == [EventComponent(ExampleEvent(uuid))];
    EndToEndExample(uuid);
    EmitFaultless(SinkState([], 0), IoError(0), ExampleLines(uuid));
    r := calendar.Write(sink);
    lines := sink.lines;
    assert [] + ExampleLines(uuid) == ExampleLines(uuid);
  }
}
