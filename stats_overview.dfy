/** The dashboard's four statistic cards and the value string each one shows. */
module StatsOverview {
  import opened Text
  import opened JsMath

  datatype StatsProps = StatsProps(
    integrityScore: int,
    totalFocusMinutes: int,
    sessionsCompleted: int,
    streakDays: int)

  datatype StatCard = StatCard(heading: string, value: string, subtext: string)

  /** `${integrityScore}%`: the score's digits followed by a percent sign. */
  function IntegrityValue(score: int): (r: string)
    ensures |r| >= 2 && r[|r| - 1] == '%'
    ensures score >= 0 ==> IsDigits(r[..|r| - 1]) && ParseNat(r[..|r| - 1]) == score
  {
    var digits := IntToString(score);
    assert (digits + "%")[..|digits|] == digits;
    ParseIntToString(score);
    digits + "%"
  }

  /** The hour part of the focus-time card, `Math.round(m / 60)`. */
  function HoursPart(minutes: int): (r: int)
    ensures 60 * r - 30 <= minutes < 60 * r + 30
    ensures minutes >= 0 ==> r >= 0
  {
    RoundDiv(minutes, 60)
  }

  /** The minute part of the focus-time card, `m % 60`. */
  function LeftoverMinutes(minutes: int): (r: int)
    ensures minutes >= 0 ==> 0 <= r <= 59
    ensures minutes <= 0 ==> -59 <= r <= 0
    ensures (minutes - r) % 60 == 0
  {
    Rem(minutes, 60)
  }

  /** `${Math.round(m / 60)}h ${m % 60}m`: for a non-negative count, the hours' digits, then
      "h ", then the leftover minutes' digits, then "m". */
  function FocusTimeValue(minutes: int): (r: string)
    ensures |r| >= 5 && r[|r| - 1] == 'm'
    ensures minutes >= 0 ==>
              var k := |IntToString(HoursPart(minutes))|;
              1 <= k && k + 3 < |r| && r[k..k + 2] == "h "
              && IsDigits(r[..k]) && ParseNat(r[..k]) == HoursPart(minutes)
              && IsDigits(r[k + 2..|r| - 1]) && ParseNat(r[k + 2..|r| - 1]) == LeftoverMinutes(minutes)
  {
    var h := IntToString(HoursPart(minutes));
    var m := IntToString(LeftoverMinutes(minutes));
    var r := h + "h " + m + "m";
    assert r[..|h|] == h;
    assert r[|h|..|h| + 2] == "h ";
    assert r[|h| + 2..|r| - 1] == m;
    ParseIntToString(HoursPart(minutes));
    ParseIntToString(LeftoverMinutes(minutes));
    r
  }

  /** `sessionsCompleted.toString()`. */
  function SessionsValue(sessions: int): (r: string)
    ensures sessions >= 0 ==> IsDigits(r) && ParseNat(r) == sessions
  {
    ParseIntToString(sessions);
    IntToString(sessions)
  }

  /** `${streakDays} Days`. */
  function StreakValue(days: int): (r: string)
    ensures |r| >= 6 && r[|r| - 5..] == " Days"
    ensures days >= 0 ==> IsDigits(r[..|r| - 5]) && ParseNat(r[..|r| - 5]) == days
  {
    var digits := IntToString(days);
    assert (digits + " Days")[..|digits|] == digits;
    ParseIntToString(days);
    digits + " Days"
  }

  /** The four cards in display order, around the four value strings. */
  function Layout(integrity: string, focus: string, sessions: string, streak: string): (r: seq<StatCard>)
    ensures |r| == 4
    ensures r[0].value == integrity && r[1].value == focus
    ensures r[2].value == sessions && r[3].value == streak
  {
    [ StatCard("Integrity Score", integrity, "Keep it up"),
      StatCard("Focus Time", focus, "This week"),
      StatCard("Sessions", sessions, "Completed"),
      StatCard("Streak", streak, "You're on fire!") ]
  }

  /** The cards for the given statistics. */
  function Cards(p: StatsProps): (r: seq<StatCard>)
    ensures |r| == 4
    ensures r[0].value == IntegrityValue(p.integrityScore)
    ensures r[1].value == FocusTimeValue(p.totalFocusMinutes)
    ensures r[2].value == SessionsValue(p.sessionsCompleted)
    ensures r[3].value == StreakValue(p.streakDays)
  {
    Layout(IntegrityValue(p.integrityScore), FocusTimeValue(p.totalFocusMinutes),
           SessionsValue(p.sessionsCompleted), StreakValue(p.streakDays))
  }

  /** The hour part rounds: it is the floor of m / 60 plus one exactly when at least half an
      hour is left over, and the minute part stays in [0, 59]. */
  lemma HoursRoundHalfUp(minutes: int)
    requires minutes >= 0
    ensures HoursPart(minutes) == minutes / 60 + (if minutes % 60 >= 30 then 1 else 0)
    ensures LeftoverMinutes(minutes) == minutes % 60 && 0 <= LeftoverMinutes(minutes) <= 59
  {
    var q, r := minutes / 60, minutes % 60;
    assert minutes == 60 * q + r;
    assert 2 * minutes + 60 == 120 * q + (2 * r + 60);
    if r >= 30 {
      assert 2 * minutes + 60 == 120 * (q + 1) + (2 * r - 60);
    }
  }

  /** The card reads back as the true duration exactly when fewer than thirty minutes are left
      over; otherwise it overstates by an hour. */
  lemma FocusTimeExactIff(minutes: int)
    requires minutes >= 0
    ensures HoursPart(minutes) * 60 + LeftoverMinutes(minutes) == minutes <==> minutes % 60 < 30
    ensures minutes % 60 >= 30 ==> HoursPart(minutes) * 60 + LeftoverMinutes(minutes) == minutes + 60
  {
    HoursRoundHalfUp(minutes);
  }

  /** Ninety minutes render as "2h 30m". */
  lemma NinetyMinutes()
    ensures FocusTimeValue(90) == "2h 30m"
  {
    HoursRoundHalfUp(90);
    assert HoursPart(90) == 2 && LeftoverMinutes(90) == 30;
    assert NatToString(30) == NatToString(3) + [DigitChar(0)];
  }
}
