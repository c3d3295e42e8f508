/**
  The boundary to the content-line writer every `write` in the library goes
  through.  A content line is a property name and its value; the writer
  appends whole lines to a sink, and any write attempt may fail with an I/O
  error.  Escaping, line folding and line endings belong to the writer and
  are not modelled: a line here is the pair the library hands over.

  A sink is described by the one write attempt, counted from zero, at which
  it fails (if any).  `Emit` is the meaning of handing a sequence of lines to
  the writer one by one, stopping at the first failure the way `?` does.
 */
module ContentLines {
  import opened Prelude

  datatype ContentLine = ContentLine(name: string, value: string)

  /** An `io::Error`, kept opaque: only its identity matters, since callers get it back unchanged. */
  datatype IoError = IoError(kind: nat)

  /**
    The characters a property value may hold: the VALUE-CHAR production of
    section 3.1 of RFC 5545, that is every character except the control
    characters, horizontal tab excepted.
   */
  predicate ValidValue(s: string) {
    forall i | 0 <= i < |s| :: s[i] == '\t' || (' ' <= s[i] && s[i] as int != 0x7F)
  }

  /** Where the sink fails: the index of the failing write attempt, and the error it reports. */
  datatype Fault = Fault(at: Option<nat>, error: IoError)

  /** What the sink has accepted so far, and how many write attempts it has seen. */
  datatype SinkState = SinkState(lines: seq<ContentLine>, attempts: nat)

  datatype Outcome = Outcome(state: SinkState, result: Result<(), IoError>)

  /** Write the lines one at a time; the first attempt that fails ends the writing and its error is returned. */
  function Emit(fault: Fault, s: SinkState, out: seq<ContentLine>): Outcome
    decreases |out|
  {
    if out == [] then
      Outcome(s, Ok(()))
    else if fault.at == Some(s.attempts) then
      Outcome(SinkState(s.lines, s.attempts + 1), Err(fault.error))
    else
      Emit(fault, SinkState(s.lines + [out[0]], s.attempts + 1), out[1..])
  }

  /** Whether the failing attempt falls among the next `n` attempts. */
  predicate FailsWithin(fault: Fault, s: SinkState, n: nat) {
    fault.at.Some? && s.attempts <= fault.at.value < s.attempts + n
  }

  /**
    The closed form of `Emit`: if the failing attempt is the k-th of these
    writes, the sink holds exactly the k lines before it, k + 1 attempts were
    made (none after the failure) and the error comes back unchanged;
    otherwise every line is appended, in order, one attempt each.
   */
  lemma {:induction false} EmitClosedForm(fault: Fault, s: SinkState, out: seq<ContentLine>)
    ensures FailsWithin(fault, s, |out|) ==>
      var k := fault.at.value - s.attempts;
      Emit(fault, s, out) == Outcome(SinkState(s.lines + out[..k], s.attempts + k + 1), Err(fault.error))
    ensures !FailsWithin(fault, s, |out|) ==>
      Emit(fault, s, out) == Outcome(SinkState(s.lines + out, s.attempts + |out|), Ok(()))
    decreases |out|
  {
    if out != [] && fault.at != Some(s.attempts) {
      var s' := SinkState(s.lines + [out[0]], s.attempts + 1);
      EmitClosedForm(fault, s', out[1..]);
      assert s.lines + [out[0]] + out[1..] == s.lines + out;
      if FailsWithin(fault, s, |out|) {
        var k := fault.at.value - s.attempts;
        assert s.lines + [out[0]] + out[1..][..k - 1] == s.lines + out[..k];
      }
    } else if out == [] {
      assert s.lines + out == s.lines;
    } else {
      assert s.lines + out[..0] == s.lines;
    }
  }

  /** Writing two runs of lines is writing the first and, only if that succeeded, then the second. */
  lemma {:induction false} EmitConcat(fault: Fault, s: SinkState, a: seq<ContentLine>, b: seq<ContentLine>)
    ensures Emit(fault, s, a + b) ==
      var o := Emit(fault, s, a);
      if o.result.Err? then o else Emit(fault, o.state, b)
    decreases |a|
  {
    if a == [] {
      assert a + b == b;
    } else if fault.at != Some(s.attempts) {
      assert (a + b)[1..] == a[1..] + b;
      EmitConcat(fault, SinkState(s.lines + [a[0]], s.attempts + 1), a[1..], b);
    }
  }

  /** Once a prefix of the lines has failed, the rest of them change nothing. */
  lemma EmitStopped(fault: Fault, s: SinkState, done: seq<ContentLine>, out: seq<ContentLine>)
    requires |done| <= |out| && out[..|done|] == done
    requires Emit(fault, s, done).result.Err?
    ensures Emit(fault, s, out) == Emit(fault, s, done)
  {
    assert out == done + out[|done|..];
    EmitConcat(fault, s, done, out[|done|..]);
  }

  /** After a prefix that succeeded, writing one more line continues from the state it left. */
  lemma EmitExtended(fault: Fault, s: SinkState, done: seq<ContentLine>, line: ContentLine)
    requires Emit(fault, s, done).result.Ok?
    ensures Emit(fault, s, done + [line]) == Emit(fault, Emit(fault, s, done).state, [line])
  {
    EmitConcat(fault, s, done, [line]);
  }

  /** Writing a line ahead of others is one attempt and, only if it succeeds, the others after it. */
  lemma EmitCons(fault: Fault, s: SinkState, line: ContentLine, rest: seq<ContentLine>)
    ensures Emit(fault, s, [line] + rest) ==
      var o := Emit(fault, s, [line]);
      if o.result.Err? then o else Emit(fault, o.state, rest)
  {
    assert ([line] + rest)[1..] == rest;
    assert [line][1..] == [];
  }

  /**
    One write of a run of lines, seen from the run: if it failed, that is the
    outcome of the whole run; if not, the run goes on from the new state with
    the lines after it.
   */
  lemma EmitStep(fault: Fault, before: SinkState, after: SinkState, r: Result<(), IoError>,
                 line: ContentLine, rest: seq<ContentLine>)
    requires Outcome(after, r) == Emit(fault, before, [line])
    ensures r.Err? ==> Outcome(after, r) == Emit(fault, before, [line] + rest)
    ensures r.Ok? ==> Emit(fault, after, rest) == Emit(fault, before, [line] + rest)
  {
    EmitCons(fault, before, line, rest);
  }

  /** The same for a run of several lines written by one call. */
  lemma EmitRunStep(fault: Fault, before: SinkState, after: SinkState, r: Result<(), IoError>,
                    run: seq<ContentLine>, rest: seq<ContentLine>)
    requires Outcome(after, r) == Emit(fault, before, run)
    ensures r.Err? ==> Outcome(after, r) == Emit(fault, before, run + rest)
    ensures r.Ok? ==> Emit(fault, after, rest) == Emit(fault, before, run + rest)
  {
    EmitConcat(fault, before, run, rest);
  }

  /** A sink that never fails receives every line, in order. */
  lemma EmitFaultless(s: SinkState, error: IoError, out: seq<ContentLine>)
    ensures Emit(Fault(None, error), s, out) == Outcome(SinkState(s.lines + out, s.attempts + |out|), Ok(()))
  {
    EmitClosedForm(Fault(None, error), s, out);
  }

  /**
    The writer over a caller's sink.  `Write` hands over one line; the sink
    either takes it or fails on that attempt.
   */
  class Sink {
    var lines: seq<ContentLine>
    var attempts: nat
    const fault: Fault

    function State(): SinkState
      reads this
    {
      SinkState(lines, attempts)
    }

    constructor (fault: Fault)
      ensures State() == SinkState([], 0) && this.fault == fault
    {
      lines := [];
      attempts := 0;
      this.fault := fault;
    }

    method Write(line: ContentLine) returns (r: Result<(), IoError>)
      modifies this
      ensures Outcome(State(), r) == Emit(fault, old(State()), [line])
    {
      if fault.at == Some(attempts) {
        r := Err(fault.error);
      } else {
        lines := lines + [line];
        r := Ok(());
      }
      attempts := attempts + 1;
    }
  }
}
