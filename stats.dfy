/** The focus-session statistics aggregator: a pure reduction from a list of recorded focus
    sessions to the totals shown on the dashboard. */
module StatsCalculator {
  import opened Wrappers
  import opened Seqs

  /** A recorded focus session. `durationSeconds` is `None` when the stored value is missing;
      `startedAt` is the ISO timestamp text. */
  datatype FocusSession = FocusSession(
    id: string,
    userId: string,
    intent: string,
    durationSeconds: Option<int>,
    startedAt: string,
    endedAt: Option<string>,
    completed: bool,
    distractionCount: Option<int>)

  datatype UserStats = UserStats(totalFocusMinutes: int, sessionsCompleted: nat, streakDays: nat)

  /** `curr.duration_seconds || 0`: a missing (or zero) duration counts as no seconds. */
  function Seconds(s: FocusSession): int
  {
    s.durationSeconds.GetOr(0)
  }

  predicate IsCompleted(s: FocusSession)
  {
    s.completed
  }

  /** The set of local-date keys of the sessions' start times. `dayKey` stands for
      `new Date(t).toDateString()`, which depends on the time zone. */
  function DayKeys(cs: seq<FocusSession>, dayKey: string -> string): (r: set<string>)
    ensures |r| <= |cs|
    ensures forall i :: 0 <= i < |cs| ==> dayKey(cs[i].startedAt) in r
  {
    if cs == [] then {}
    else
      var prev := DayKeys(cs[..|cs| - 1], dayKey);
      assert forall i :: 0 <= i < |cs| - 1 ==> cs[..|cs| - 1][i] == cs[i];
      prev + {dayKey(cs[|cs| - 1].startedAt)}
  }

  /** `calculateStats(sessions)`. */
  function CalculateStats(sessions: seq<FocusSession>, dayKey: string -> string): (r: UserStats)
    ensures sessions == [] ==> r == UserStats(0, 0, 0)
    ensures r.sessionsCompleted <= |sessions|
    ensures r.streakDays <= r.sessionsCompleted
    ensures r.streakDays == 0 <==> r.sessionsCompleted == 0
  {
    if |sessions| == 0 then UserStats(0, 0, 0)
    else
      var completed := Filter(IsCompleted, sessions);
      var totalSeconds := SumOf(Seconds, completed);
      var uniqueDays := DayKeys(completed, dayKey);
      assert completed != [] ==> dayKey(completed[0].startedAt) in uniqueDays;
      UserStats(totalSeconds / 60, |completed|, |uniqueDays|)
  }

  /** A session's contribution to the number of completed sessions. */
  function CompletedIndicator(s: FocusSession): int
  {
    if s.completed then 1 else 0
  }

  /** A session's contribution to the focused seconds. */
  function CompletedSeconds(s: FocusSession): int
  {
    if s.completed then Seconds(s) else 0
  }

  lemma {:induction false} FilterCountMasked(sessions: seq<FocusSession>)
    ensures |Filter(IsCompleted, sessions)| == SumOf(CompletedIndicator, sessions)
    ensures SumOf(Seconds, Filter(IsCompleted, sessions)) == SumOf(CompletedSeconds, sessions)
  {
    if sessions != [] {
      var init, x := sessions[..|sessions| - 1], sessions[|sessions| - 1];
      assert sessions == init + [x];
      FilterConcat(IsCompleted, init, [x]);
      FilterCountMasked(init);
      assert Filter(IsCompleted, [x]) == (if x.completed then [x] else []) by {
        assert [x][1..] == [];
      }
      SumConcat(Seconds, Filter(IsCompleted, init), Filter(IsCompleted, [x]));
      assert SumOf(Seconds, [x]) == Seconds(x) by { assert [x][..0] == []; }
    }
  }

  /** `sessionsCompleted` counts the sessions flagged completed, and `totalFocusMinutes` is the
      floor of the completed sessions' seconds over sixty. */
  lemma StatsMeaning(sessions: seq<FocusSession>, dayKey: string -> string)
    ensures CalculateStats(sessions, dayKey).sessionsCompleted == SumOf(CompletedIndicator, sessions)
    ensures CalculateStats(sessions, dayKey).totalFocusMinutes
            == SumOf(CompletedSeconds, sessions) / 60
  {
    FilterCountMasked(sessions);
  }

  /** `k` is a key of some session in `cs`. */
  predicate KeyOccurs(cs: seq<FocusSession>, dayKey: string -> string, k: string)
  {
    exists i :: 0 <= i < |cs| && dayKey(cs[i].startedAt) == k
  }

  lemma {:induction false} DayKeysMembers(cs: seq<FocusSession>, dayKey: string -> string, k: string)
    ensures k in DayKeys(cs, dayKey) <==> KeyOccurs(cs, dayKey, k)
  {
    if cs != [] {
      var init := cs[..|cs| - 1];
      DayKeysMembers(init, dayKey, k);
      if KeyOccurs(init, dayKey, k) {
        var i :| 0 <= i < |init| && dayKey(init[i].startedAt) == k;
        assert cs[i] == init[i];
      }
      if KeyOccurs(cs, dayKey, k) && k != dayKey(cs[|cs| - 1].startedAt) {
        var i :| 0 <= i < |cs| && dayKey(cs[i].startedAt) == k;
        assert init[i] == cs[i];
      }
    }
  }

  /** The set of day keys only depends on which sessions occur, not on their order. */
  lemma DayKeysPermutation(a: seq<FocusSession>, b: seq<FocusSession>, dayKey: string -> string)
    requires multiset(a) == multiset(b)
    ensures DayKeys(a, dayKey) == DayKeys(b, dayKey)
  {
    forall k ensures k in DayKeys(a, dayKey) <==> k in DayKeys(b, dayKey) {
      DayKeysMembers(a, dayKey, k);
      DayKeysMembers(b, dayKey, k);
      if KeyOccurs(a, dayKey, k) {
        var i :| 0 <= i < |a| && dayKey(a[i].startedAt) == k;
        assert a[i] in multiset(b);
        var j :| 0 <= j < |b| && b[j] == a[i];
      }
      if KeyOccurs(b, dayKey, k) {
        var j :| 0 <= j < |b| && dayKey(b[j].startedAt) == k;
        assert b[j] in multiset(a);
        var i :| 0 <= i < |a| && a[i] == b[j];
      }
    }
  }

  /** Shuffling the input does not change the statistics. */
  lemma StatsPermutation(a: seq<FocusSession>, b: seq<FocusSession>, dayKey: string -> string)
    requires multiset(a) == multiset(b)
    ensures CalculateStats(a, dayKey) == CalculateStats(b, dayKey)
  {
    assert |a| == |multiset(a)| == |multiset(b)| == |b|;
    var ca, cb := Filter(IsCompleted, a), Filter(IsCompleted, b);
    FilterPermutation(IsCompleted, a, b);
    SumPermutation(Seconds, ca, cb);
    DayKeysPermutation(ca, cb, dayKey);
    assert |ca| == |multiset(ca)| == |multiset(cb)| == |cb|;
  }

  /** An incomplete session, whatever its duration, changes nothing. */
  lemma StatsIgnoreIncomplete(sessions: seq<FocusSession>, x: FocusSession, dayKey: string -> string)
    requires !x.completed
    ensures CalculateStats(sessions + [x], dayKey) == CalculateStats(sessions, dayKey)
  {
    FilterConcat(IsCompleted, sessions, [x]);
    assert Filter(IsCompleted, [x]) == [] by { assert [x][1..] == []; }
    assert Filter(IsCompleted, sessions + [x]) == Filter(IsCompleted, sessions);
    if sessions == [] {
      assert Filter(IsCompleted, sessions) == [];
    }
  }

  /** The statistics read off the completed sessions alone (the empty fast path agrees). */
  lemma StatsOfCompleted(sessions: seq<FocusSession>, dayKey: string -> string)
    ensures var c := Filter(IsCompleted, sessions);
            CalculateStats(sessions, dayKey)
            == UserStats(SumOf(Seconds, c) / 60, |c|, |DayKeys(c, dayKey)|)
  {
    if sessions == [] {
      assert Filter(IsCompleted, sessions) == [];
    }
  }

  /** Appending a completed session appends it to the completed ones. */
  lemma FilterAppendCompleted(sessions: seq<FocusSession>, x: FocusSession)
    requires x.completed
    ensures Filter(IsCompleted, sessions + [x]) == Filter(IsCompleted, sessions) + [x]
  {
    FilterConcat(IsCompleted, sessions, [x]);
    assert Filter(IsCompleted, [x]) == [x] by { assert [x][1..] == []; }
  }

  /** A completed session adds one to the count, its seconds (none if missing) to the total,
      and one day exactly when its day key is new. */
  lemma StatsAddCompleted(sessions: seq<FocusSession>, x: FocusSession, dayKey: string -> string)
    requires x.completed
    ensures CalculateStats(sessions + [x], dayKey).sessionsCompleted
            == CalculateStats(sessions, dayKey).sessionsCompleted + 1
    ensures SumOf(CompletedSeconds, sessions + [x]) == SumOf(CompletedSeconds, sessions) + Seconds(x)
    ensures CalculateStats(sessions + [x], dayKey).streakDays
            == CalculateStats(sessions, dayKey).streakDays
               + (if KeyOccurs(Filter(IsCompleted, sessions), dayKey, dayKey(x.startedAt)) then 0 else 1)
  {
    FilterAppendCompleted(sessions, x);
    StatsOfCompleted(sessions, dayKey);
    StatsOfCompleted(sessions + [x], dayKey);
    SumConcat(CompletedSeconds, sessions, [x]);
    assert SumOf(CompletedSeconds, [x]) == Seconds(x) by { assert [x][..0] == []; }
    AddedDayKeys(Filter(IsCompleted, sessions), x, dayKey);
  }

  /** One more session adds its day key to the set, which grows exactly when the key is new. */
  lemma AddedDayKeys(c: seq<FocusSession>, x: FocusSession, dayKey: string -> string)
    ensures |DayKeys(c + [x], dayKey)|
            == |DayKeys(c, dayKey)| + (if KeyOccurs(c, dayKey, dayKey(x.startedAt)) then 0 else 1)
  {
    var c' := c + [x];
    assert c'[..|c'| - 1] == c;
    var keys, k := DayKeys(c, dayKey), dayKey(x.startedAt);
    assert DayKeys(c', dayKey) == keys + {k};
    DayKeysMembers(c, dayKey, k);
    if k in keys {
      assert keys + {k} == keys;
    } else {
      assert |keys + {k}| == |keys| + |{k}|;
    }
  }

  /** With every duration non-negative, the focused minutes are non-negative. */
  lemma {:induction false} MinutesNonNegative(sessions: seq<FocusSession>, dayKey: string -> string)
    requires forall i :: 0 <= i < |sessions| ==> Seconds(sessions[i]) >= 0
    ensures CalculateStats(sessions, dayKey).totalFocusMinutes >= 0
  {
    StatsMeaning(sessions, dayKey);
    MaskedSumNonNegative(sessions);
  }

  lemma {:induction false} MaskedSumNonNegative(sessions: seq<FocusSession>)
    requires forall i :: 0 <= i < |sessions| ==> Seconds(sessions[i]) >= 0
    ensures SumOf(CompletedSeconds, sessions) >= 0
  {
    if sessions != [] {
      MaskedSumNonNegative(sessions[..|sessions| - 1]);
    }
  }

  function Session(id: string, seconds: int, completed: bool, startedAt: string): FocusSession
  {
    FocusSession(id, "u1", "test", Some(seconds), startedAt, None, completed, None)
  }

  /** The empty list gives all zeros. */
  lemma ExampleEmpty(dayKey: string -> string)
    ensures CalculateStats([], dayKey) == UserStats(0, 0, 0)
  {
  }

  /** Two completed sessions of 1500 s give 50 minutes and two sessions. */
  lemma ExampleTotalMinutes(dayKey: string -> string)
    ensures var r := CalculateStats([Session("1", 1500, true, "2023-01-01T10:00:00Z"),
                                     Session("2", 1500, true, "2023-01-01T11:00:00Z")], dayKey);
            r.totalFocusMinutes == 50 && r.sessionsCompleted == 2
  {
    var s1, s2 := Session("1", 1500, true, "2023-01-01T10:00:00Z"), Session("2", 1500, true, "2023-01-01T11:00:00Z");
    StatsAddCompleted([s1], s2, dayKey);
    StatsAddCompleted([], s1, dayKey);
    assert [] + [s1] == [s1];
    StatsMeaning([s1, s2], dayKey);
    assert [s1, s2][..1] == [s1];
    assert [s1][..0] == [];
  }

  /** A completed 1500 s session and an incomplete 3000 s one give 25 minutes and one session. */
  lemma ExampleIgnoresIncomplete(dayKey: string -> string)
    ensures var r := CalculateStats([Session("1", 1500, true, "2023-01-01T10:00:00Z"),
                                     Session("2", 3000, false, "2023-01-01T11:00:00Z")], dayKey);
            r.totalFocusMinutes == 25 && r.sessionsCompleted == 1
  {
    var s1, s2 := Session("1", 1500, true, "2023-01-01T10:00:00Z"), Session("2", 3000, false, "2023-01-01T11:00:00Z");
    StatsIgnoreIncomplete([s1], s2, dayKey);
    StatsMeaning([s1], dayKey);
    assert [s1][..0] == [];
  }

  /** Two sessions on one day and one on the next give two active days. */
  lemma ExampleUniqueDays(dayKey: string -> string)
    requires dayKey("2023-01-01T10:00:00Z") == dayKey("2023-01-01T15:00:00Z")
    requires dayKey("2023-01-01T10:00:00Z") != dayKey("2023-01-02T10:00:00Z")
    ensures CalculateStats([Session("1", 60, true, "2023-01-01T10:00:00Z"),
                            Session("2", 60, true, "2023-01-01T15:00:00Z"),
                            Session("3", 60, true, "2023-01-02T10:00:00Z")], dayKey).streakDays == 2
  {
    var s1 := Session("1", 60, true, "2023-01-01T10:00:00Z");
    var s2 := Session("2", 60, true, "2023-01-01T15:00:00Z");
    var s3 := Session("3", 60, true, "2023-01-02T10:00:00Z");
    var all := [s1, s2, s3];
    assert Filter(IsCompleted, all) == all by {
      assert all[1..] == [s2, s3];
      assert all[1..][1..] == [s3];
      assert all[1..][1..][1..] == [];
    }
    assert all[..2] == [s1, s2];
    assert all[..2][..1] == [s1];
    assert [s1][..0] == [];
    var k1, k3 := dayKey(s1.startedAt), dayKey(s3.startedAt);
    assert DayKeys([s1], dayKey) == {k1};
    assert DayKeys([s1, s2], dayKey) == {k1};
    assert DayKeys(all, dayKey) == {k1, k3};
  }
}
