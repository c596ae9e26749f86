/** The focus page: intent, then a breathing exercise, then a countdown, then a completion or
    reflection screen, then back to intent. Each clock tick of the interval is one `Tick` call;
    the completion effect runs at the end of the step that makes its condition true. */
module FocusPage {
  import opened Wrappers
  import opened Text

  datatype SessionState = Intent | Breathing | Focus | Completion | Reflection

  /** The row `saveSession` inserts, with the values its closure sees. */
  datatype SaveRequest = SaveRequest(intent: string, durationSeconds: int, completed: bool, startedAt: string)

  /** The three duration buttons, in seconds; the first is the default. */
  predicate IsDurationChoice(seconds: int)
  {
    seconds == 25 * 60 || seconds == 50 * 60 || seconds == 90 * 60
  }

  /** One interval tick of the countdown. */
  function TickValue(prev: int): (r: int)
    ensures 0 <= r
    ensures prev >= 1 ==> r == prev - 1
    ensures prev <= 0 ==> r == 0
  {
    if prev <= 1 then 0 else prev - 1
  }

  /** The countdown after `k` ticks. */
  function Ticks(t: int, k: nat): int
  {
    if k == 0 then t else TickValue(Ticks(t, k - 1))
  }

  /** Starting from `t` seconds, the countdown shows `t - k` after `k <= t` ticks: it is zero
      exactly after `t` ticks and still positive before. */
  lemma {:induction false} Countdown(t: nat, k: nat)
    requires k <= t
    ensures Ticks(t, k) == t - k
    ensures Ticks(t, k) == 0 <==> k == t
  {
    if k > 0 {
      Countdown(t, k - 1);
    }
  }

  /** Once zero, further ticks keep the countdown at zero. */
  lemma {:induction false} CountdownStaysZero(t: nat, k: nat)
    requires k >= t
    ensures Ticks(t, k) == 0
  {
    if k == t {
      Countdown(t, k);
    } else {
      CountdownStaysZero(t, k - 1);
    }
  }

  /** The `duration_seconds` written for a session: the full duration when completed, the
      elapsed time when ended early. */
  function SavedDuration(duration: int, timeLeft: int, completed: bool): (r: int)
    ensures completed ==> r == duration
    ensures !completed ==> r + timeLeft == duration
    ensures 0 <= timeLeft <= duration ==> 0 <= r <= duration
  {
    if completed then duration else duration - timeLeft
  }

  /** The stored score a session starts from: a missing or zero score is read as 100. */
  function PriorScore(stored: Option<int>): (r: int)
    ensures stored.None? ==> r == 100
    ensures stored.Some? && stored.value != 0 ==> r == stored.value
    ensures stored.Some? && stored.value == 0 ==> r == 100
  {
    if stored.None? || stored.value == 0 then 100 else stored.value
  }

  predicate InRange(score: int)
  {
    0 <= score <= 100
  }

  /** The integrity score after a session: plus 2 capped at 100 when completed, minus 5 floored
      at 0 when ended early. */
  function NewScore(stored: Option<int>, completed: bool): (r: int)
    ensures completed ==>
              r <= 100 && r <= PriorScore(stored) + 2 && (r == 100 || r == PriorScore(stored) + 2)
    ensures !completed ==>
              r >= 0 && r >= PriorScore(stored) - 5 && (r == 0 || r == PriorScore(stored) - 5)
    ensures stored.None? || InRange(stored.value) ==> InRange(r)
  {
    var s := PriorScore(stored);
    if completed then (if s + 2 < 100 then s + 2 else 100)
    else (if s - 5 > 0 then s - 5 else 0)
  }

  /** The score after `n` early endings in a row. Twenty take a fresh score of 100 down to 0,
      but a stored 0 reads as a missing score, so the next one starts again from 100. */
  function ScoreAfterEarlyEnds(stored: Option<int>, n: nat): int
  {
    if n == 0 then PriorScore(stored) else NewScore(Some(ScoreAfterEarlyEnds(stored, n - 1)), false)
  }

  lemma {:induction false} EarlyEndsFromFull(n: nat)
    requires n <= 20
    ensures ScoreAfterEarlyEnds(None, n) == 100 - 5 * n
  {
    if n > 0 {
      EarlyEndsFromFull(n - 1);
    }
  }

  /** A score worn down to 0 does not stay there: the 21st early ending reads the stored 0 as
      100 and saves 95. */
  lemma EarlyEndsRebound()
    ensures ScoreAfterEarlyEnds(None, 20) == 0
    ensures ScoreAfterEarlyEnds(None, 21) == 95
  {
    EarlyEndsFromFull(20);
  }

  class FocusRoomPage {
    var state: SessionState
    var intent: string
    var duration: int
    var timeLeft: int
    var isActive: bool
    var startedAt: Option<string>
    /** Every `saveSession` call that got past its `startedAt` guard, in order. */
    var saves: seq<SaveRequest>

    /** The timer is never negative, the duration is one of the choices, and in focus the
        countdown is positive and at most the duration. */
    predicate Valid()
      reads this
    {
      && IsDurationChoice(duration)
      && 0 <= timeLeft
      && (state == Focus ==> 0 < timeLeft <= duration)
    }

    constructor ()
      ensures Valid()
      ensures state == Intent && intent == "" && duration == 25 * 60 && timeLeft == duration
      ensures !isActive && startedAt == None && saves == []
    {
      state, intent, duration, timeLeft := Intent, "", 25 * 60, 25 * 60;
      isActive, startedAt, saves := false, None, [];
    }

    /** The intent input. */
    method SetIntent(value: string)
      requires state == Intent
      modifies this
      ensures intent == value
      ensures state == old(state) && duration == old(duration) && timeLeft == old(timeLeft)
      ensures isActive == old(isActive) && startedAt == old(startedAt) && saves == old(saves)
    {
      intent := value;
    }

    /** A duration button. */
    method ChooseDuration(seconds: int)
      requires state == Intent && IsDurationChoice(seconds)
      requires Valid()
      modifies this
      ensures Valid()
      ensures duration == seconds
      ensures state == old(state) && intent == old(intent) && timeLeft == old(timeLeft)
      ensures isActive == old(isActive) && startedAt == old(startedAt) && saves == old(saves)
    {
      duration := seconds;
    }

    /** `handleStartBreathing`: only a non-blank intent moves on to breathing. */
    method StartBreathing()
      requires state == Intent
      requires Valid()
      modifies this
      ensures Valid()
      ensures state == (if IsBlank(old(intent)) then Intent else Breathing)
      ensures intent == old(intent) && duration == old(duration) && timeLeft == old(timeLeft)
      ensures isActive == old(isActive) && startedAt == old(startedAt) && saves == old(saves)
    {
      if TrimsToEmpty(intent) {
        return;
      }
      state := Breathing;
    }

    /** `handleStartFocus`, called when the breathing exercise completes; `now` is the clock. */
    method StartFocus(now: string)
      requires state == Breathing
      requires Valid()
      modifies this
      ensures Valid()
      ensures state == Focus && isActive && timeLeft == duration && startedAt == Some(now)
      ensures intent == old(intent) && duration == old(duration) && saves == old(saves)
    {
      timeLeft := duration;
      startedAt := Some(now);
      state := Focus;
      isActive := true;
    }

    /** `saveSession(completed)` as far as the page decides it. */
    method Save(completed: bool)
      modifies this
      ensures saves == old(saves) + (if old(startedAt).Some? then
                [SaveRequest(intent, SavedDuration(duration, timeLeft, completed), completed, old(startedAt).value)]
              else [])
      ensures state == old(state) && intent == old(intent) && duration == old(duration)
      ensures timeLeft == old(timeLeft) && isActive == old(isActive) && startedAt == old(startedAt)
    {
      if startedAt.None? {
        return;
      }
      saves := saves + [SaveRequest(intent, SavedDuration(duration, timeLeft, completed), completed, startedAt.value)];
    }

    /** One second: the interval runs only while active in focus; when the countdown reaches
        zero the completion effect stops the timer, shows completion and saves a completed
        session. */
    method Tick()
      requires Valid()
      modifies this
      ensures Valid()
      ensures !(old(isActive) && old(state) == Focus) ==>
                state == old(state) && timeLeft == old(timeLeft) && isActive == old(isActive) && saves == old(saves)
      ensures old(isActive) && old(state) == Focus ==>
                timeLeft == old(timeLeft) - 1
                && (timeLeft > 0 ==> state == Focus && isActive && saves == old(saves))
                && (timeLeft == 0 ==>
                      (state == Completion && !isActive
                       && saves == old(saves) + (if startedAt.Some? then
                            [SaveRequest(intent, duration, true, startedAt.value)] else [])))
      ensures intent == old(intent) && duration == old(duration) && startedAt == old(startedAt)
    {
      if !isActive || state != Focus {
        return;
      }
      timeLeft := TickValue(timeLeft);
      if timeLeft == 0 && state == Focus {
        isActive := false;
        state := Completion;
        Save(true);
      }
    }

    /** `handleEndEarly`: stop, show the reflection screen and save the elapsed time. */
    method EndEarly()
      requires state == Focus
      requires Valid()
      modifies this
      ensures Valid()
      ensures state == Reflection && !isActive
      ensures saves == old(saves) + (if startedAt.Some? then
                [SaveRequest(intent, duration - timeLeft, false, startedAt.value)] else [])
      ensures 0 <= duration - timeLeft < duration
      ensures intent == old(intent) && duration == old(duration) && timeLeft == old(timeLeft)
      ensures startedAt == old(startedAt)
    {
      isActive := false;
      state := Reflection;
      Save(false);
    }

    /** "Begin Again" on the completion or reflection screen. */
    method BeginAgain()
      requires state == Completion || state == Reflection
      requires Valid()
      modifies this
      ensures Valid()
      ensures state == Intent
      ensures intent == old(intent) && duration == old(duration) && timeLeft == old(timeLeft)
      ensures isActive == old(isActive) && startedAt == old(startedAt) && saves == old(saves)
    {
      state := Intent;
    }
  }
}
