/** The elapsed/total time labels shown under the seek bar: `M:SS`, minutes
    without padding, seconds padded to two digits with a leading zero. */
module TimeLabel {

  datatype Option<T> = None | Some(value: T)

  predicate IsDigit(c: char) { '0' <= c <= '9' }

  predicate IsDigits(s: string) { forall i :: 0 <= i < |s| ==> IsDigit(s[i]) }

  /** Decimal notation as `String(n)` writes a non-negative integer: at least
      one digit and no superfluous leading zero. */
  predicate IsCanonical(s: string) { |s| > 0 && IsDigits(s) && (s[0] == '0' ==> |s| == 1) }

  function DigitValue(c: char): (d: nat)
    requires IsDigit(c)
    ensures d < 10
  {
    c as int - '0' as int
  }

  function DigitChar(d: nat): (c: char)
    requires d < 10
    ensures IsDigit(c) && DigitValue(c) == d
  {
    ('0' as int + d) as char
  }

  /** The number a string of decimal digits denotes (most significant first). */
  function DecimalValue(s: string): (v: nat)
    requires IsDigits(s)
  {
    if s == [] then 0
    else
      assert IsDigits(s[..|s| - 1]) by { assert forall i :: 0 <= i < |s| - 1 ==> s[..|s| - 1][i] == s[i]; }
      DecimalValue(s[..|s| - 1]) * 10 + DigitValue(s[|s| - 1])
  }

  /** `String(n)` for a non-negative integer `n`. */
  function NatToString(n: nat): (s: string)
    ensures IsCanonical(s) && DecimalValue(s) == n
    ensures n < 10 ==> |s| == 1
    ensures 10 <= n < 100 ==> |s| == 2
  {
    if n < 10 then [DigitChar(n)]
    else
      var prefix := NatToString(n / 10);
      var s := prefix + [DigitChar(n % 10)];
      assert s[..|s| - 1] == prefix;
      assert s[0] == prefix[0];
      s
  }

  /** `s.padStart(width, fill)` for a one-character `fill`: `s` itself when it
      is already `width` long, otherwise `fill` repeated in front of it. */
  function PadStart(s: string, width: nat, fill: char): (r: string)
    ensures |r| == if |s| >= width then |s| else width
    ensures r[|r| - |s|..] == s
    ensures forall i :: 0 <= i < |r| - |s| ==> r[i] == fill
  {
    if |s| >= width then s else seq(width - |s|, _ => fill) + s
  }

  /** The label for a whole number of seconds `s`: the minutes `s / 60`
      unpadded, a colon, then the seconds `s % 60` padded to two digits. */
  function FormatSeconds(s: nat): (r: string)
    ensures |r| >= 4 && r[|r| - 3] == ':'
    ensures IsCanonical(r[..|r| - 3])
    ensures IsDigits(r[|r| - 2..]) && DecimalValue(r[|r| - 2..]) < 60
    ensures DecimalValue(r[..|r| - 3]) * 60 + DecimalValue(r[|r| - 2..]) == s
  {
    var minutes := NatToString(s / 60);
    var seconds := TwoDigits(s % 60);
    SplitAtColon(minutes, seconds);
    assert DecimalValue(minutes) * 60 + DecimalValue(seconds) == s by {
      assert DecimalValue(minutes) == s / 60 && DecimalValue(seconds) == s % 60;
    }
    minutes + ":" + seconds
  }

  /** The seconds field: `String(n).padStart(2, "0")`. */
  function TwoDigits(n: nat): (r: string)
    requires n < 100
    ensures |r| == 2 && IsDigits(r) && DecimalValue(r) == n
  {
    var digits := NatToString(n);
    var r := PadStart(digits, 2, '0');
    ZeroPaddingKeepsValue(r, |r| - |digits|);
    r
  }

  lemma SplitAtColon(minutes: string, seconds: string)
    requires |seconds| == 2
    ensures var r := minutes + ":" + seconds;
      |r| == |minutes| + 3 && r[|r| - 3] == ':' && r[..|r| - 3] == minutes && r[|r| - 2..] == seconds
  {
  }

  /** JavaScript `t % 60` for `t >= 0`: `t - 60 * trunc(t / 60)`, and the
      truncation is the floor since the quotient is not negative. */
  function Remainder60(t: real): (r: real)
    requires t >= 0.0
    ensures 0.0 <= r < 60.0
  {
    t - 60.0 * ((t / 60.0).Floor as real)
  }

  /** The label exactly as the component computes it from a time in seconds:
      `Math.floor(t / 60)`, a colon, `String(Math.floor(t % 60)).padStart(2, "0")`. */
  function ComponentLabel(t: real): (r: string)
    requires t >= 0.0
    ensures |r| >= 4 && r[|r| - 3] == ':'
  {
    var minutes := (t / 60.0).Floor;
    var seconds := Remainder60(t).Floor;
    assert minutes >= 0 && 0 <= seconds < 60;
    var field := PadStart(NatToString(seconds), 2, '0');
    SplitAtColon(NatToString(minutes), field);
    NatToString(minutes) + ":" + field
  }

  /** Reads a label back: the minutes before the colon, the two-digit seconds after it. */
  function ParseLabel(l: string): (r: Option<nat>)
    ensures r.Some? ==> |l| >= 4 && l[|l| - 3] == ':'
  {
    if |l| >= 4 && l[|l| - 3] == ':' && IsCanonical(l[..|l| - 3])
       && IsDigits(l[|l| - 2..]) && DecimalValue(l[|l| - 2..]) < 60
    then Some(DecimalValue(l[..|l| - 3]) * 60 + DecimalValue(l[|l| - 2..]))
    else None
  }

  lemma {:induction false} ZeroPaddingKeepsValue(s: string, k: nat)
    requires IsDigits(s) && k <= |s|
    requires forall i :: 0 <= i < k ==> s[i] == '0'
    ensures DecimalValue(s) == DecimalValue(s[k..])
    decreases |s|
  {
    if |s| == 0 {
    } else if k == |s| {
      assert s[k..] == [];
      AllZerosValue(s);
    } else {
      var init := s[..|s| - 1];
      assert IsDigits(init) by { assert forall i :: 0 <= i < |s| - 1 ==> init[i] == s[i]; }
      ZeroPaddingKeepsValue(init, k);
      assert s[k..][..|s[k..]| - 1] == init[k..];
      assert s[k..][|s[k..]| - 1] == s[|s| - 1];
    }
  }

  lemma {:induction false} AllZerosValue(s: string)
    requires forall i :: 0 <= i < |s| ==> s[i] == '0'
    ensures IsDigits(s) && DecimalValue(s) == 0
    decreases |s|
  {
    if |s| > 0 {
      var init := s[..|s| - 1];
      assert forall i :: 0 <= i < |init| ==> init[i] == s[i];
      AllZerosValue(init);
    }
  }

  /** Two canonical decimal strings with the same value are equal. */
  lemma {:induction false} CanonicalRoundTrip(s: string)
    requires IsCanonical(s)
    ensures NatToString(DecimalValue(s)) == s
    decreases |s|
  {
    var n := DecimalValue(s);
    var init := s[..|s| - 1];
    assert IsDigits(init) by { assert forall i :: 0 <= i < |init| ==> init[i] == s[i]; }
    if |s| == 1 {
      assert init == [];
      assert DecimalValue(init) == 0;
      assert n == DecimalValue(init) * 10 + DigitValue(s[0]);
      assert DigitChar(n) == s[0];
      assert s == [s[0]];
    } else {
      assert init[0] == s[0];
      assert IsCanonical(init);
      CanonicalRoundTrip(init);
      var m := DecimalValue(init);
      assert m != 0 by {
        if m == 0 { ZeroValueIsZeroString(init); }
      }
      assert n / 10 == m && n % 10 == DigitValue(s[|s| - 1]);
      assert s == init + [s[|s| - 1]];
    }
  }

  lemma {:induction false} ZeroValueIsZeroString(s: string)
    requires IsCanonical(s) && DecimalValue(s) == 0
    ensures s == "0"
  {
    var init := s[..|s| - 1];
    assert IsDigits(init) by { assert forall i :: 0 <= i < |init| ==> init[i] == s[i]; }
    if |s| > 1 {
      assert DecimalValue(init) == 0;
      LeadingDigitPositive(s);
    }
  }

  /** A canonical string of two or more digits denotes a value of at least 10. */
  lemma {:induction false} LeadingDigitPositive(s: string)
    requires IsCanonical(s) && |s| > 1
    ensures DecimalValue(s) >= 10
    decreases |s|
  {
    var init := s[..|s| - 1];
    assert IsDigits(init) by { assert forall i :: 0 <= i < |init| ==> init[i] == s[i]; }
    assert init[0] == s[0];
    if |init| == 1 {
      assert init[..0] == [];
      assert DecimalValue(init) == DigitValue(s[0]) >= 1;
    } else {
      LeadingDigitPositive(init);
    }
  }

  /** Reading a formatted label gives back the seconds it was made from. */
  lemma FormatThenParse(s: nat)
    ensures ParseLabel(FormatSeconds(s)) == Some(s)
  {
  }

  /** A label that reads back as `s` is the one `FormatSeconds(s)` writes, so
      every label has exactly one spelling. */
  lemma ParseThenFormat(l: string, s: nat)
    requires ParseLabel(l) == Some(s)
    ensures FormatSeconds(s) == l
  {
    var minutes, seconds := l[..|l| - 3], l[|l| - 2..];
    assert s / 60 == DecimalValue(minutes) && s % 60 == DecimalValue(seconds);
    CanonicalRoundTrip(minutes);
    TwoDigitsRoundTrip(seconds);
    SplitAtColon(minutes, seconds);
    assert l == minutes + ":" + seconds;
  }

  /** Every two-digit field below 60 is the padded spelling of its own value. */
  lemma TwoDigitsRoundTrip(seconds: string)
    requires |seconds| == 2 && IsDigits(seconds) && DecimalValue(seconds) < 60
    ensures TwoDigits(DecimalValue(seconds)) == seconds
  {
    var n := DecimalValue(seconds);
    var tail := seconds[1..];
    assert tail == [seconds[1]];
    TwoDigitValue(seconds);
    if seconds[0] == '0' {
      CanonicalRoundTrip(tail);
      assert DecimalValue(tail) == n;
      assert TwoDigits(n) == ['0'] + NatToString(n);
      assert seconds == ['0'] + tail;
    } else {
      CanonicalRoundTrip(seconds);
    }
  }

  lemma TwoDigitValue(s: string)
    requires |s| == 2 && IsDigits(s)
    ensures DecimalValue(s) == DigitValue(s[0]) * 10 + DigitValue(s[1])
    ensures DecimalValue(s[1..]) == DigitValue(s[1])
  {
    var first := s[..1];
    assert first == [s[0]] && first[..0] == [];
    assert IsDigits(first);
    assert DecimalValue(first) == DigitValue(s[0]);
    assert s[1..][..0] == [];
  }

  /** The label of a time in seconds is the label of its whole seconds: the
      fractional part never reaches the display. */
  lemma WholeSecondsLabel(t: real)
    requires t >= 0.0
    ensures ComponentLabel(t) == FormatSeconds(t.Floor)
  {
    var s := t.Floor;
    var q, r := s / 60, s % 60;
    assert s as real <= t < s as real + 1.0;
    assert (q * 60) as real <= t < ((q + 1) * 60) as real;
    FloorIs(t / 60.0, q);
    FloorIs(Remainder60(t), r);
  }

  lemma FloorIs(x: real, k: int)
    requires k as real <= x < k as real + 1.0
    ensures x.Floor == k
  {
  }

  /** The examples of a 125-second position in a 200-second track. */
  lemma LabelExamples()
    ensures FormatSeconds(125) == "2:05"
    ensures FormatSeconds(200) == "3:20"
    ensures ComponentLabel(125.0) == "2:05"
  {
    WholeSecondsLabel(125.0);
  }
}
