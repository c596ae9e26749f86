/** The breathing circle: inhale, hold, exhale, one phase per four-second timeout, for three
    cycles, after which it calls its completion callback and schedules nothing more. */
module Breathing {
  datatype Phase = Inhale | Hold | Exhale

  const MaxCycles: nat := 3

  datatype BreathState = BreathState(phase: Phase, cycles: nat)

  const Start := BreathState(Inhale, 0)

  /** What one timeout does. */
  function Step(s: BreathState): (r: BreathState)
    ensures s.phase == Inhale ==> r.phase == Hold
    ensures s.phase == Hold ==> r.phase == Exhale
    ensures s.phase == Exhale ==> r.phase == Inhale
    ensures r.cycles == s.cycles + (if s.phase == Exhale then 1 else 0)
  {
    match s.phase
    case Inhale => s.(phase := Hold)
    case Hold => s.(phase := Exhale)
    case Exhale => BreathState(Inhale, s.cycles + 1)
  }

  /** A timeout is pending exactly while fewer than three cycles are done. */
  predicate Scheduled(s: BreathState)
    ensures Scheduled(s) ==> Step(s).cycles <= MaxCycles
  {
    s.cycles < MaxCycles
  }

  /** The state after `n` timeouts, stopping once nothing is scheduled. */
  function Run(s: BreathState, n: nat): (r: BreathState)
    ensures s.cycles <= r.cycles
    ensures s.cycles <= MaxCycles ==> r.cycles <= MaxCycles
    ensures !Scheduled(s) ==> r == s
    decreases n
  {
    if n == 0 || !Scheduled(s) then s else Run(Step(s), n - 1)
  }

  function PhaseAt(k: nat): Phase
  {
    if k % 3 == 0 then Inhale else if k % 3 == 1 then Hold else Exhale
  }

  /** The state `k` steps into a run from a state at the start of a cycle. */
  lemma {:induction false} RunFromCycleStart(c: nat, k: nat)
    requires c + k / 3 <= MaxCycles
    requires c + k / 3 == MaxCycles ==> k % 3 == 0
    ensures Run(BreathState(Inhale, c), k) == BreathState(PhaseAt(k), c + k / 3)
    decreases k
  {
    var s := BreathState(Inhale, c);
    if k == 0 {
    } else if k == 1 {
      assert Run(s, 1) == Run(Step(s), 0);
    } else if k == 2 {
      assert Run(s, 2) == Run(Step(s), 1) == Run(Step(Step(s)), 0);
    } else {
      assert c < MaxCycles;
      var s1 := Step(s);
      var s2 := Step(s1);
      var s3 := Step(s2);
      assert s3 == BreathState(Inhale, c + 1);
      assert Run(s, k) == Run(s1, k - 1);
      assert Run(s1, k - 1) == Run(s2, k - 2);
      assert Run(s2, k - 2) == Run(s3, k - 3);
      RunFromCycleStart(c + 1, k - 3);
      assert (k - 3) / 3 == k / 3 - 1 && (k - 3) % 3 == k % 3;
    }
  }

  /** From the start, the circle completes after exactly nine steps: three full cycles, and
      before that a timeout is always pending. */
  lemma NineStepsToComplete(k: nat)
    requires k <= 9
    ensures Scheduled(Run(Start, k)) <==> k < 9
    ensures Run(Start, 9) == BreathState(Inhale, MaxCycles)
  {
    RunFromCycleStart(0, k);
    RunFromCycleStart(0, 9);
  }

  /** "Cycle N of 3". */
  function CycleNumber(cycles: int): (r: int)
    ensures r <= MaxCycles
    ensures cycles >= 0 ==> 1 <= r
    ensures cycles + 1 <= MaxCycles ==> r == cycles + 1
    ensures cycles + 1 >= MaxCycles ==> r == MaxCycles
  {
    if cycles + 1 < MaxCycles then cycles + 1 else MaxCycles
  }

  function PhaseText(p: Phase): (r: string)
    ensures p == Inhale <==> r == "Inhale..."
    ensures p == Hold <==> r == "Hold..."
    ensures p == Exhale <==> r == "Exhale..."
  {
    match p
    case Inhale => "Inhale..."
    case Hold => "Hold..."
    case Exhale => "Exhale..."
  }

  /** What the effect does after a timeout has landed in a state: wait for the next timeout,
      call the completion callback, find no callback to call, or throw. */
  datatype Completion = Waiting | Called | NoCallback | Threw

  /** The effect as written: at three cycles it calls `onComplete()` whether or not the parent
      passed one, so a circle rendered without a callback throws a TypeError. */
  function EffectAsWritten(s: BreathState, hasCallback: bool): (r: Completion)
    ensures r == Waiting <==> Scheduled(s)
    ensures r == Called <==> !Scheduled(s) && hasCallback
    ensures r == Threw <==> !Scheduled(s) && !hasCallback
  {
    if Scheduled(s) then Waiting else if hasCallback then Called else Threw
  }

  /** The effect with the call guarded, `onComplete?.()`: a circle without a callback simply
      stops, and one with a callback behaves as written. */
  function Effect(s: BreathState, hasCallback: bool): (r: Completion)
    ensures r != Threw
    ensures hasCallback ==> r == EffectAsWritten(s, hasCallback)
    ensures r == NoCallback <==> !Scheduled(s) && !hasCallback
  {
    if Scheduled(s) then Waiting else if hasCallback then Called else NoCallback
  }

  /** The focus room renders the circle without a callback: as written, the ninth timeout
      ends in a throw. */
  lemma RoomCircleThrows()
    ensures forall k :: 0 <= k < 9 ==> EffectAsWritten(Run(Start, k), false) == Waiting
    ensures EffectAsWritten(Run(Start, 9), false) == Threw
  {
    forall k | 0 <= k < 9
      ensures EffectAsWritten(Run(Start, k), false) == Waiting
    {
      NineStepsToComplete(k);
    }
    NineStepsToComplete(9);
  }

  /** With the guard, the room's circle stops quietly after three cycles, while the focus
      page's circle, which has a callback, still calls it exactly then. */
  lemma RoomCircleStops()
    ensures forall k :: 0 <= k < 9 ==> Effect(Run(Start, k), false) == Waiting
    ensures Effect(Run(Start, 9), false) == NoCallback
    ensures Effect(Run(Start, 9), true) == Called
  {
    forall k | 0 <= k < 9
      ensures Effect(Run(Start, k), false) == Waiting
    {
      NineStepsToComplete(k);
    }
    NineStepsToComplete(9);
  }

  class BreathingCircle {
    var phase: Phase
    var cycles: nat
    /** How many times the completion callback has been called. */
    var completions: nat

    predicate Valid()
      reads this
    {
      cycles <= MaxCycles && (cycles == MaxCycles ==> phase == Inhale)
    }

    function State(): BreathState
      reads this
    {
      BreathState(phase, cycles)
    }

    /** Whether the parent passed `onComplete`. */
    const hasCallback: bool

    constructor (hasCallback: bool)
      ensures Valid() && State() == Start && completions == 0
      ensures this.hasCallback == hasCallback
    {
      this.hasCallback := hasCallback;
      phase, cycles, completions := Inhale, 0, 0;
    }

    /** The pending timeout fires; the effect then either schedules the next one or, at three
        cycles, calls the completion callback when there is one. */
    method Fire() returns (effect: Completion)
      requires Valid() && Scheduled(State())
      modifies this
      ensures Valid()
      ensures State() == Step(old(State()))
      ensures effect == Effect(State(), hasCallback)
      ensures completions == old(completions) + (if effect == Called then 1 else 0)
    {
      var next := Step(State());
      phase, cycles := next.phase, next.cycles;
      effect := Waiting;
      if cycles >= MaxCycles {
        if hasCallback {
          effect := Called;
          completions := completions + 1;
        } else {
          effect := NoCallback;
        }
      }
    }
  }
}
