/**
  Text primitives the value types are built from: ASCII digits, the decimal
  value of a digit string (what `str::parse` yields for an unsigned type wide
  enough to hold it), the zero-padded decimal rendering that the format spec
  `{:0N}` produces, `str::split_once` on a character, and the lexicographic
  order of `str`.
 */
module Text {
  import opened Prelude

  function Pow10(n: nat): (p: nat)
    ensures p >= 1
  {
    if n == 0 then 1 else 10 * Pow10(n - 1)
  }

  predicate IsDigit(c: char) {
    '0' <= c <= '9'
  }

  predicate AllDigits(s: string) {
    forall i | 0 <= i < |s| :: IsDigit(s[i])
  }

  function DigitValue(c: char): nat
    requires IsDigit(c)
  {
    c as int - '0' as int
  }

  function DigitChar(v: nat): char
    requires v < 10
  {
    ('0' as int + v) as char
  }

  /** The number a string of decimal digits denotes, most significant digit first. */
  function DecimalValue(s: string): (v: nat)
    requires AllDigits(s)
    ensures v < Pow10(|s|)
  {
    if s == [] then 0 else DecimalValue(s[..|s| - 1]) * 10 + DigitValue(s[|s| - 1])
  }

  /** The shortest decimal rendering of `n`, as `Display` writes an unsigned integer. */
  function Decimal(n: nat): (s: string)
    ensures 1 <= |s| && AllDigits(s) && DecimalValue(s) == n
  {
    if n < 10 then
      [DigitChar(n)]
    else
      var s := Decimal(n / 10) + [DigitChar(n % 10)];
      assert s[..|s| - 1] == Decimal(n / 10);
      s
  }

  function Zeros(k: nat): (s: string)
    ensures |s| == k && AllDigits(s)
  {
    seq(k, _ => '0')
  }

  /**
    `n` rendered with at least `width` characters, padded on the left with
    '0': the format spec `{:0width}` applied to an unsigned integer.  Its
    digits always denote `n`, and when `n` fits in `width` digits the
    rendering is exactly `width` characters long.
   */
  function ZeroPad(n: nat, width: nat): (s: string)
    ensures AllDigits(s) && DecimalValue(s) == n
    ensures 1 <= width && n < Pow10(width) ==> |s| == width
  {
    var d := Decimal(n);
    DecimalFits(n, width);
    if |d| >= width then
      d
    else
      LeadingZeros(width - |d|, d);
      Zeros(width - |d|) + d
  }

  lemma {:induction false} DecimalFits(n: nat, width: nat)
    ensures 1 <= width && n < Pow10(width) ==> |Decimal(n)| <= width
  {
    if 1 <= width && n < Pow10(width) && n >= 10 {
      DecimalFits(n / 10, width - 1);
    }
  }

  lemma {:induction false} ZerosValue(k: nat)
    ensures DecimalValue(Zeros(k)) == 0
  {
    if k > 0 {
      assert Zeros(k)[..k - 1] == Zeros(k - 1);
      ZerosValue(k - 1);
    }
  }

  /** Leading zeros do not change the value of a digit string. */
  lemma {:induction false} LeadingZeros(k: nat, s: string)
    requires AllDigits(s)
    ensures AllDigits(Zeros(k) + s) && DecimalValue(Zeros(k) + s) == DecimalValue(s)
  {
    var t := Zeros(k) + s;
    if s == [] {
      assert t == Zeros(k);
      ZerosValue(k);
    } else {
      assert t[..|t| - 1] == Zeros(k) + s[..|s| - 1];
      LeadingZeros(k, s[..|s| - 1]);
    }
  }

  /** Two digit strings of the same length with the same value are the same string. */
  lemma {:induction false} DigitsDetermined(a: string, b: string)
    requires AllDigits(a) && AllDigits(b) && |a| == |b|
    requires DecimalValue(a) == DecimalValue(b)
    ensures a == b
  {
    if a != [] {
      var n := |a|;
      var x, y := DecimalValue(a[..n - 1]), DecimalValue(b[..n - 1]);
      var d, e := DigitValue(a[n - 1]), DigitValue(b[n - 1]);
      assert x * 10 + d == y * 10 + e;
      assert x == y;
      DigitsDetermined(a[..n - 1], b[..n - 1]);
      assert a[n - 1] == b[n - 1];
      assert a == a[..n - 1] + [a[n - 1]];
      assert b == b[..n - 1] + [b[n - 1]];
    }
  }

  /** A fixed-width digit string is the zero-padded rendering of its own value. */
  lemma FixedWidthIsZeroPadded(s: string)
    requires AllDigits(s) && 1 <= |s|
    ensures ZeroPad(DecimalValue(s), |s|) == s
  {
    DigitsDetermined(ZeroPad(DecimalValue(s), |s|), s);
  }

  /** Lexicographic comparison of strings, as `Ord` for `str` compares them. */
  function CompareStrings(a: string, b: string): Ordering
  {
    if a == [] && b == [] then Equal
    else if a == [] then Less
    else if b == [] then Greater
    else CompareInt(a[0] as int, b[0] as int).Then(CompareStrings(a[1..], b[1..]))
  }

  /** Comparing two concatenations whose first parts have the same length compares part by part. */
  lemma {:induction false} CompareConcat(x: string, y: string, u: string, v: string)
    requires |x| == |y|
    ensures CompareStrings(x + u, y + v) == CompareStrings(x, y).Then(CompareStrings(u, v))
  {
    if x != [] {
      assert (x + u)[1..] == x[1..] + u;
      assert (y + v)[1..] == y[1..] + v;
      CompareConcat(x[1..], y[1..], u, v);
    } else {
      assert x + u == u && y + v == v;
    }
  }

  lemma {:induction false} CompareSame(s: string)
    ensures CompareStrings(s, s) == Equal
  {
    if s != [] {
      CompareSame(s[1..]);
    }
  }

  /** Two texts built from parts of equal length around a common separator compare part by part. */
  lemma CompareAroundSeparator(x: string, y: string, separator: string, u: string, v: string)
    requires |x| == |y|
    ensures CompareStrings(x + separator + u, y + separator + v) == CompareStrings(x, y).Then(CompareStrings(u, v))
  {
    CompareConcat(x + separator, y + separator, u, v);
    CompareConcat(x, y, separator, separator);
    CompareSame(separator);
  }

  /** On digit strings of equal length, lexicographic order is numeric order. */
  lemma {:induction false} CompareDigits(a: string, b: string)
    requires AllDigits(a) && AllDigits(b) && |a| == |b|
    ensures CompareStrings(a, b) == CompareInt(DecimalValue(a), DecimalValue(b))
  {
    if a != [] {
      var n := |a|;
      assert a == a[..n - 1] + [a[n - 1]];
      assert b == b[..n - 1] + [b[n - 1]];
      CompareConcat(a[..n - 1], b[..n - 1], [a[n - 1]], [b[n - 1]]);
      CompareDigits(a[..n - 1], b[..n - 1]);
    }
  }

  /** The index of the first occurrence of `c` in `s`. */
  function FirstIndexOf(s: string, c: char): (r: Option<nat>)
    ensures r.None? <==> c !in s
    ensures r.Some? ==> r.value < |s| && s[r.value] == c && c !in s[..r.value]
  {
    if s == [] then None
    else if s[0] == c then Some(0)
    else
      match FirstIndexOf(s[1..], c)
      case None => None
      case Some(i) => Some(i + 1)
  }

  /** `s.split_once(c)`: the text before and after the first `c`, or nothing when there is none. */
  function SplitOnce(s: string, c: char): (r: Option<(string, string)>)
    ensures r.None? <==> c !in s
    ensures r.Some? ==> s == r.value.0 + [c] + r.value.1 && c !in r.value.0
  {
    match FirstIndexOf(s, c)
    case None => None
    case Some(i) => Some((s[..i], s[i + 1..]))
  }

  /** Splitting at a separator that the first part does not contain gives back the two parts. */
  lemma SplitOnceAt(a: string, b: string, c: char)
    requires c !in a
    ensures SplitOnce(a + [c] + b, c) == Some((a, b))
  {
    var s := a + [c] + b;
    assert s[|a|] == c;
    assert s[..|a|] == a;
    assert s[|a| + 1..] == b;
  }
}
