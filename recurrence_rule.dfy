/**
  Recurrence rules, the RECUR value type of RFC 5545 section 3.3.10 reduced
  to what the source supports: a frequency and an optional inclusive end
  bound (`UNTIL`), with the seven frequency tokens and the `FREQ=...` text form.
 */
module RecurrenceRules {
  import opened Prelude
  import opened Text
  import Dates
  import Times
  import DateTimes

  datatype RecurrenceFrequency = Yearly | Monthly | Weekly | Daily | Hourly | Minutely | Secondly

  /** `Display` of a frequency: its FREQ token. */
  function Token(f: RecurrenceFrequency): string {
    match f
    case Yearly => "YEARLY"
    case Monthly => "MONTHLY"
    case Weekly => "WEEKLY"
    case Daily => "DAILY"
    case Hourly => "HOURLY"
    case Minutely => "MINUTELY"
    case Secondly => "SECONDLY"
  }

  /** `FromStr` of a frequency: an exact, case-sensitive match on one of the seven tokens. */
  function ParseFrequency(s: string): (r: Result<RecurrenceFrequency, ()>)
    ensures r.Ok? ==> Token(r.value) == s
  {
    if s == "YEARLY" then Ok(Yearly)
    else if s == "MONTHLY" then Ok(Monthly)
    else if s == "WEEKLY" then Ok(Weekly)
    else if s == "DAILY" then Ok(Daily)
    else if s == "HOURLY" then Ok(Hourly)
    else if s == "MINUTELY" then Ok(Minutely)
    else if s == "SECONDLY" then Ok(Secondly)
    else Err(())
  }

  /** Distinct frequencies have distinct tokens. */
  lemma TokensDistinct(f: RecurrenceFrequency, g: RecurrenceFrequency)
    ensures Token(f) == Token(g) <==> f == g
  {
  }

  /** Parsing accepts exactly the seven tokens and maps each back to its frequency. */
  lemma ParseFrequencyExact(s: string, f: RecurrenceFrequency)
    ensures ParseFrequency(s) == Ok(f) <==> s == Token(f)
  {
  }

  lemma ParseFrequencyExamples()
    ensures ParseFrequency("WEEKLY") == Ok(Weekly)
    ensures ParseFrequency("weekly").Err?
    ensures ParseFrequency("FREQ=WEEKLY").Err?
    ensures ParseFrequency("").Err?
  {
  }

  /** The end bound, if there is one, is inclusive. */
  datatype RecurrenceRule = RecurrenceRule(freq: RecurrenceFrequency, until: Option<DateTimes.DateTime>)

  /** `RecurrenceRule::new`: the given frequency and no end bound. */
  function New(freq: RecurrenceFrequency): (r: RecurrenceRule)
    ensures r.freq == freq && r.until == None
  {
    RecurrenceRule(freq, None)
  }

  /** `rule.until(bound)`: a new rule with the receiver's frequency and the end bound set; the receiver is a value and stays as it was. */
  function Until(rule: RecurrenceRule, bound: DateTimes.DateTime): (r: RecurrenceRule)
    ensures r.freq == rule.freq && r.until == Some(bound)
  {
    RecurrenceRule(rule.freq, Some(bound))
  }

  /** Setting the end bound twice keeps only the second. */
  lemma UntilLastWins(rule: RecurrenceRule, first: DateTimes.DateTime, second: DateTimes.DateTime)
    ensures Until(Until(rule, first), second) == Until(rule, second)
  {
  }

  /** `Display`: `FREQ=` and the token, then `;UNTIL=` and the bound's text when there is a bound. */
  function Format(rule: RecurrenceRule): string {
    "FREQ=" + (Token(rule.freq) + UntilPart(rule.until))
  }

  function UntilPart(until: Option<DateTimes.DateTime>): string {
    match until
    case None => ""
    case Some(bound) => ";UNTIL=" + DateTimes.Format(bound)
  }

  lemma FormatExampleWeekly()
    ensures Format(New(Weekly)) == "FREQ=WEEKLY"
  {
  }

  /** The text of a rule with an end bound, for any text of the bound. */
  lemma FormatWithBound(f: RecurrenceFrequency, bound: DateTimes.DateTime, text: string)
    requires DateTimes.Format(bound) == text
    ensures Format(Until(New(f), bound)) == "FREQ=" + (Token(f) + (";UNTIL=" + text))
  {
  }

  /**
    The bound is a parameter pinned by the precondition rather than a literal
    so that the verifier uses `DateTimes.FormatExample` instead of unfolding
    the date-time's text character by character.
   */
  lemma FormatExampleUntil(bound: DateTimes.DateTime)
    requires bound == DateTimes.DateTime(Dates.New(1998, 1, 19), Times.NewUtc(7, 0, 0))
    ensures Format(Until(New(Weekly), bound)) == "FREQ=WEEKLY;UNTIL=19980119T070000Z"
  {
    DateTimes.FormatExample();
    FormatWithBound(Weekly, bound, "19980119T070000Z");
  }

  /** No token contains the `;` that starts the `UNTIL` part. */
  lemma TokenHasNoSeparator(f: RecurrenceFrequency)
    ensures ';' !in Token(f)
  {
  }

  /** The text holds a `;` exactly when the rule has an end bound: the `UNTIL` part is written iff it is set. */
  lemma UntilWrittenIffSet(rule: RecurrenceRule)
    ensures ';' in Format(rule) <==> rule.until.Some?
  {
    var head, until := "FREQ=" + Token(rule.freq), UntilPart(rule.until);
    TokenHasNoSeparator(rule.freq);
    ConcatAssoc("FREQ=", Token(rule.freq), until);
    SeparatorStartsTail(head, until, ';');
  }

  /** In a separator-free head followed by a tail that is empty or starts with the separator, the separator occurs iff the tail is not empty. */
  lemma SeparatorStartsTail(p: string, x: string, c: char)
    requires c !in p
    requires x == [] || x[0] == c
    ensures c in p + x <==> x != []
  {
    if x == [] {
      assert p + x == p;
    } else {
      assert (p + x)[|p|] == c;
    }
  }

  /**
    Two texts, each a separator-free head followed by a tail that is empty or
    starts with the separator, are equal only when the heads and the tails are.
   */
  lemma {:induction false} SeparatedHeads(p: string, q: string, x: string, y: string, c: char)
    requires c !in p && c !in q
    requires x == [] || x[0] == c
    requires y == [] || y[0] == c
    requires p + x == q + y
    ensures p == q && x == y
  {
    SplitAtSeparatedTail(p, x, c);
    SplitAtSeparatedTail(q, y, c);
    if x == [] {
      assert p == p + x;
      assert y == [];
      assert q == q + y;
    } else {
      assert y != [];
      assert x == [x[0]] + x[1..] && y == [y[0]] + y[1..];
    }
  }

  /** The first separator in such a text is the one that starts the tail. */
  lemma SplitAtSeparatedTail(p: string, x: string, c: char)
    requires c !in p
    requires x == [] || x[0] == c
    ensures SplitOnce(p + x, c) == if x == [] then None else Some((p, x[1..]))
  {
    if x == [] {
      assert p + x == p;
    } else {
      assert p + x == p + [c] + x[1..];
      SplitOnceAt(p, x[1..], c);
    }
  }

  /** The `UNTIL` part determines the bound. */
  lemma UntilPartInjective(u: Option<DateTimes.DateTime>, v: Option<DateTimes.DateTime>)
    requires UntilPart(u) == UntilPart(v)
    ensures u == v
  {
    if u.Some? && v.Some? {
      var fu, fv := DateTimes.Format(u.value), DateTimes.Format(v.value);
      assert fu == UntilPart(u)[7..] && fv == UntilPart(v)[7..];
      DateTimes.FormatInjective(u.value, v.value);
    }
  }

  lemma FormatAfterKey(rule: RecurrenceRule)
    ensures |Format(rule)| >= 5 && Format(rule)[5..] == Token(rule.freq) + UntilPart(rule.until)
  {
  }

  /** The text of a rule determines the rule: two rules with the same text are equal. */
  lemma FormatInjective(a: RecurrenceRule, b: RecurrenceRule)
    requires Format(a) == Format(b)
    ensures a == b
  {
    var ta, xa := Token(a.freq), UntilPart(a.until);
    var tb, xb := Token(b.freq), UntilPart(b.until);
    FormatAfterKey(a);
    FormatAfterKey(b);
    TokenHasNoSeparator(a.freq);
    TokenHasNoSeparator(b.freq);
    SeparatedHeads(ta, tb, xa, xb, ';');
    TokensDistinct(a.freq, b.freq);
    UntilPartInjective(a.until, b.until);
  }
}
