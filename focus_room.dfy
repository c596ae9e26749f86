/** The focus room: IDLE, then SETUP (intention and duration), then ACTIVE (a countdown), then
    COMPLETE. The countdown effect runs after every step that changes the state or the time
    left: while ACTIVE with time left it keeps ticking, and whenever the time left is zero it
    forces COMPLETE. */
module FocusRoom {
  import opened Text
  import opened FocusTimer

  datatype FocusState = Idle | Setup | Active | Complete

  /** The duration buttons, in minutes; 25 is the default. */
  predicate IsDurationChoice(minutes: int)
  {
    minutes == 15 || minutes == 25 || minutes == 45 || minutes == 60
  }

  /** `formatTime`: zero-padded whole minutes, a colon, zero-padded remaining seconds. */
  function FormatTime(seconds: int): (r: string)
    ensures |r| >= 5
  {
    PadTwo(IntToString(MinutesPart(seconds))) + ":" + PadTwo(IntToString(SecondsPart(seconds)))
  }

  /** The room's text is the focus timer's read-out. */
  lemma FormatTimeIsTimerText(seconds: int, isActive: bool)
    ensures FormatTime(seconds) == Rendered(Display(seconds, isActive))
  {
  }

  lemma RenderedFields(d: TimerDisplay)
    requires |d.minutesText| == 2 && |d.secondsText| == 2
    ensures Rendered(d)[..2] == d.minutesText && Rendered(d)[3..] == d.secondsText
  {
    var r := Rendered(d);
    assert r == d.minutesText + [':'] + d.secondsText;
    assert r[..2] == d.minutesText;
  }

  /** Below 6000 seconds the text is five characters with the colon at index 2, and its two
      fields read back as minutes and seconds. */
  lemma FormatTimeShape(seconds: int)
    requires 0 <= seconds < 6000
    ensures var r := FormatTime(seconds);
            && |r| == 5 && r[2] == ':'
            && IsDigits(r[..2]) && IsDigits(r[3..])
            && ParseNat(r[3..]) < 60
            && ParseNat(r[..2]) * 60 + ParseNat(r[3..]) == seconds
  {
    var d := Display(seconds, true);
    DisplayShape(seconds, true);
    FormatTimeIsTimerText(seconds, true);
    RenderedFields(d);
  }

  class FocusRoomMachine {
    var state: FocusState
    var intention: string
    var duration: int
    var timeLeft: int
    var showBreathing: bool

    /** The duration is a choice, the countdown is never negative, and the room is COMPLETE
        exactly when the countdown is zero. */
    predicate Valid()
      reads this
    {
      && IsDurationChoice(duration)
      && 0 <= timeLeft
      && (state == Complete <==> timeLeft == 0)
    }

    constructor ()
      ensures Valid()
      ensures state == Idle && intention == "" && duration == 25 && timeLeft == 25 * 60 && !showBreathing
    {
      state, intention, duration, timeLeft, showBreathing := Idle, "", 25, 25 * 60, false;
    }

    /** The countdown effect's immediate part: a zero time left forces COMPLETE. */
    method Settle()
      modifies this
      ensures state == (if timeLeft == 0 then Complete else old(state))
      ensures intention == old(intention) && duration == old(duration)
      ensures timeLeft == old(timeLeft) && showBreathing == old(showBreathing)
    {
      if state == Active && timeLeft > 0 {
        // the interval is (re)started; its ticks are `Tick` calls
      } else if timeLeft == 0 {
        state := Complete;
      }
    }

    /** "Begin Ritual". */
    method BeginRitual()
      requires state == Idle && Valid()
      modifies this
      ensures Valid()
      ensures state == Setup
      ensures intention == old(intention) && duration == old(duration)
      ensures timeLeft == old(timeLeft) && showBreathing == old(showBreathing)
    {
      state := Setup;
      Settle();
    }

    /** The intention input. */
    method SetIntention(value: string)
      requires state == Setup && Valid()
      modifies this
      ensures Valid()
      ensures intention == value
      ensures state == old(state) && duration == old(duration)
      ensures timeLeft == old(timeLeft) && showBreathing == old(showBreathing)
    {
      intention := value;
    }

    /** A duration button. */
    method ChooseDuration(minutes: int)
      requires state == Setup && Valid() && IsDurationChoice(minutes)
      modifies this
      ensures Valid()
      ensures duration == minutes
      ensures state == old(state) && intention == old(intention)
      ensures timeLeft == old(timeLeft) && showBreathing == old(showBreathing)
    {
      duration := minutes;
    }

    /** `startSession`, from the button or the Enter key: only the empty string is refused, so
        an intention of spaces starts a session. */
    method StartSession()
      requires state == Setup && Valid()
      modifies this
      ensures Valid()
      ensures old(intention) == "" ==> state == old(state) && timeLeft == old(timeLeft)
      ensures old(intention) != "" ==> state == Active && timeLeft == duration * 60
      ensures intention == old(intention) && duration == old(duration) && showBreathing == old(showBreathing)
    {
      if intention == "" {
        return;
      }
      timeLeft := duration * 60;
      state := Active;
      Settle();
    }

    /** One second of the interval, which exists only while ACTIVE with time left. */
    method Tick()
      requires Valid()
      modifies this
      ensures Valid()
      ensures old(state) == Active && old(timeLeft) > 0 ==>
                timeLeft == old(timeLeft) - 1 && state == (if timeLeft == 0 then Complete else Active)
      ensures !(old(state) == Active && old(timeLeft) > 0) ==>
                timeLeft == old(timeLeft) && state == old(state)
      ensures intention == old(intention) && duration == old(duration) && showBreathing == old(showBreathing)
    {
      if state == Active && timeLeft > 0 {
        timeLeft := timeLeft - 1;
        Settle();
      }
    }

    /** "Guided Breath" / "Hide Ritual". */
    method ToggleBreathing()
      requires state == Active && Valid()
      modifies this
      ensures Valid()
      ensures showBreathing == !old(showBreathing)
      ensures state == old(state) && intention == old(intention)
      ensures duration == old(duration) && timeLeft == old(timeLeft)
    {
      showBreathing := !showBreathing;
    }

    /** "Exit Room": back to IDLE, the countdown kept as it was. */
    method ExitRoom()
      requires state == Active && Valid()
      modifies this
      ensures Valid()
      ensures state == Idle
      ensures intention == old(intention) && duration == old(duration)
      ensures timeLeft == old(timeLeft) && showBreathing == old(showBreathing)
    {
      state := Idle;
      Settle();
    }

    /** "Re-enter Flow" sets IDLE, but the time left is still zero, so the effect forces
        COMPLETE straight back: the room never leaves COMPLETE. */
    method ReEnterFlow()
      requires state == Complete && Valid()
      modifies this
      ensures Valid()
      ensures state == Complete && timeLeft == 0
      ensures intention == old(intention) && duration == old(duration) && showBreathing == old(showBreathing)
    {
      state := Idle;
      Settle();
    }
  }
}
