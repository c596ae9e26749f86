/** The focus timer's read-out: the minutes and seconds of the time left, each zero-padded to
    two characters, and the status line under them. */
module FocusTimer {
  import opened Text
  import opened JsMath

  datatype TimerDisplay = TimerDisplay(minutesText: string, secondsText: string, statusLabel: string)

  /** `Math.floor(timeLeft / 60)`. */
  function MinutesPart(timeLeft: int): (r: int)
    ensures r * 60 <= timeLeft < r * 60 + 60
    ensures timeLeft >= 0 ==> r >= 0
  {
    FloorDiv(timeLeft, 60)
  }

  /** `timeLeft % 60`. */
  function SecondsPart(timeLeft: int): (r: int)
    ensures timeLeft >= 0 ==> 0 <= r <= 59
    ensures timeLeft < 0 ==> -59 <= r <= 0
    ensures (timeLeft - r) % 60 == 0
  {
    Rem(timeLeft, 60)
  }

  /** For a non-negative time the parts are a minute count and a second in [0, 59] that
      recombine to the time. */
  lemma SplitRoundTrip(timeLeft: int)
    requires timeLeft >= 0
    ensures 0 <= SecondsPart(timeLeft) <= 59
    ensures MinutesPart(timeLeft) >= 0
    ensures MinutesPart(timeLeft) * 60 + SecondsPart(timeLeft) == timeLeft
  {
  }

  /** `String(n).padStart(2, "0")`. */
  function PadTwo(s: string): (r: string)
    ensures |r| >= 2
  {
    PadStart(s, 2, '0')
  }

  /** The status line under the digits. */
  function StatusLabel(isActive: bool): (r: string)
    ensures r == "Deep Focus" <==> isActive
    ensures r == "Paused" <==> !isActive
  {
    if isActive then "Deep Focus" else "Paused"
  }

  /** What the timer shows for `timeLeft` seconds. */
  function Display(timeLeft: int, isActive: bool): (d: TimerDisplay)
    ensures |d.minutesText| >= 2 && |d.secondsText| >= 2
    ensures d.statusLabel == "Deep Focus" <==> isActive
  {
    TimerDisplay(PadTwo(IntToString(MinutesPart(timeLeft))),
                 PadTwo(IntToString(SecondsPart(timeLeft))),
                 StatusLabel(isActive))
  }

  /** The rendered `MM:SS` text. */
  function Rendered(d: TimerDisplay): (r: string)
    ensures |r| == |d.minutesText| + 1 + |d.secondsText|
    ensures r[|d.minutesText|] == ':'
    ensures r[..|d.minutesText|] == d.minutesText && r[|d.minutesText| + 1..] == d.secondsText
  {
    d.minutesText + ":" + d.secondsText
  }

  lemma {:induction false} ParseLeadingZero(s: string)
    requires IsDigits(s)
    ensures IsDigits("0" + s) && ParseNat("0" + s) == ParseNat(s)
  {
    var z := "0" + s;
    if s != [] {
      assert z[..|z| - 1] == "0" + s[..|s| - 1];
      ParseLeadingZero(s[..|s| - 1]);
    } else {
      assert z[..0] == [];
    }
  }

  /** A number below a hundred, padded, is two digits that parse back to it. */
  lemma PadTwoNat(n: nat)
    requires n < 100
    ensures |PadTwo(NatToString(n))| == 2
    ensures IsDigits(PadTwo(NatToString(n)))
    ensures ParseNat(PadTwo(NatToString(n))) == n
  {
    NatToStringLength(n);
    ParseNatToString(n);
    var s := NatToString(n);
    if n < 10 {
      assert PadTwo(s) == "0" + s;
      ParseLeadingZero(s);
    }
  }

  /** Two two-character fields joined by a colon make five characters, the colon at index 2. */
  lemma RenderedShape(d: TimerDisplay)
    requires |d.minutesText| == 2 && |d.secondsText| == 2
    ensures |Rendered(d)| == 5 && Rendered(d)[2] == ':'
  {
  }

  /** For 0 <= timeLeft < 6000 the read-out is exactly five characters, two digits, a colon and
      two digits, and reading it back as minutes and seconds gives `timeLeft`. */
  lemma DisplayShape(timeLeft: int, isActive: bool)
    requires 0 <= timeLeft < 6000
    ensures var d := Display(timeLeft, isActive);
            |d.minutesText| == 2 && |d.secondsText| == 2
            && |Rendered(d)| == 5 && Rendered(d)[2] == ':'
            && IsDigits(d.minutesText) && IsDigits(d.secondsText)
            && ParseNat(d.secondsText) < 60
            && ParseNat(d.minutesText) * 60 + ParseNat(d.secondsText) == timeLeft
  {
    var m, s := MinutesPart(timeLeft), SecondsPart(timeLeft);
    SplitRoundTrip(timeLeft);
    assert m < 100;
    PadTwoNat(m);
    PadTwoNat(s);
    var d := Display(timeLeft, isActive);
    assert d.minutesText == PadTwo(NatToString(m));
    assert d.secondsText == PadTwo(NatToString(s));
    assert ParseNat(d.minutesText) == m && ParseNat(d.secondsText) == s;
    RenderedShape(d);
  }

  /** From 6000 seconds on, the minutes field outgrows two characters. */
  lemma DisplayLong(timeLeft: int, isActive: bool)
    requires timeLeft >= 6000
    ensures |Display(timeLeft, isActive).minutesText| >= 3
    ensures |Rendered(Display(timeLeft, isActive))| >= 6
  {
    NatToStringLength(MinutesPart(timeLeft));
  }
}
