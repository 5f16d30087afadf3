/**
 * The three breathing-exercise guides: diaphragmatic breathing, pursed-lip
 * breathing and progressive muscle relaxation. Each is a countdown through a
 * fixed phase table, ticked once a second while it is not idle, with its own
 * rule for the round (or muscle-group) counter and for when it stops.
 */
module BreathingGuides {

  datatype Guide = Diaphragmatic | PursedLip | Relaxation

  datatype Phase = Idle | Prepare | Inhale | Hold | Exhale | Tense | Release

  /** One entry of a guide's `phases` table. */
  datatype PhaseSpec = PhaseSpec(duration: int, next: Phase, instruction: string)

  /** `phase`, the counter (`round`, or `groupIndex` for relaxation) and `timer`. */
  datatype TimerState = TimerState(phase: Phase, counter: int, timer: int)

  /** The `phases` table of each guide. */
  function Phases(g: Guide): map<Phase, PhaseSpec> {
    match g
    case Diaphragmatic =>
      map[Prepare := PhaseSpec(3, Inhale, "เตรียมตัว..."),
          Inhale := PhaseSpec(3, Hold, "หายใจเข้า"),
          Hold := PhaseSpec(2, Exhale, "กลั้นหายใจ"),
          Exhale := PhaseSpec(4, Prepare, "หายใจออก")]
    case PursedLip =>
      map[Inhale := PhaseSpec(2, Exhale, "หายใจเข้าทางจมูก"),
          Exhale := PhaseSpec(4, Inhale, "หายใจออกช้าๆ แบบจีบปาก")]
    case Relaxation =>
      map[Tense := PhaseSpec(5, Release, "เกร็ง"),
          Release := PhaseSpec(10, Tense, "คลาย")]
  }

  /** The nine muscle groups of the relaxation guide, in order. */
  const MuscleGroups: seq<string> := [
    "เท้าทั้งสองข้าง", "น่องและหน้าแข้ง", "ต้นขา", "สะโพกและก้น",
    "หน้าท้อง", "หน้าอก", "แขนและมือ", "คอและไหล่", "ใบหน้า"
  ]

  function Duration(g: Guide, ph: Phase): int
    requires ph in Phases(g)
  {
    Phases(g)[ph].duration
  }

  /** The phase whose entry increments the counter. */
  function CycleStart(g: Guide): Phase {
    match g
    case Diaphragmatic => Inhale
    case PursedLip => Inhale
    case Relaxation => Tense
  }

  /** The phase and counter `startExercise` sets. */
  function StartState(g: Guide): TimerState {
    match g
    case Diaphragmatic => TimerState(Prepare, 1, 3)
    case PursedLip => TimerState(Inhale, 1, 2)
    case Relaxation => TimerState(Tense, 0, 5)
  }

  /** What `stopExercise` leaves behind, and the initial state. */
  const IdleState: TimerState := TimerState(Idle, 0, 0)

  /** The state is idle or in one of the guide's phases. */
  predicate WellTyped(g: Guide, s: TimerState) {
    s.phase == Idle || s.phase in Phases(g)
  }

  /** Each guide's stop rule, checked when the current phase runs out. */
  predicate StopsAtEndOf(g: Guide, s: TimerState)
    requires s.phase in Phases(g)
  {
    match g
    case Diaphragmatic => Phases(g)[s.phase].next == Prepare && s.counter >= 8
    case PursedLip => s.phase == Exhale && s.counter >= 10
    case Relaxation => s.phase == Release && s.counter >= |MuscleGroups| - 1
  }

  /**
   * One interval tick. No interval is installed while the guide is idle, so a
   * tick then changes nothing.
   */
  function Step(g: Guide, s: TimerState): (r: TimerState)
    requires WellTyped(g, s)
    ensures WellTyped(g, r)
  {
    if s.phase == Idle then s
    else if s.timer > 1 then s.(timer := s.timer - 1)
    else if StopsAtEndOf(g, s) then IdleState
    else
      var next := Phases(g)[s.phase].next;
      TimerState(next, if next == CycleStart(g) then s.counter + 1 else s.counter, Duration(g, next))
  }

  /** The state after `n` ticks. */
  function Run(g: Guide, s: TimerState, n: nat): (r: TimerState)
    requires WellTyped(g, s)
    ensures WellTyped(g, r)
    decreases n
  {
    if n == 0 then s else Run(g, Step(g, s), n - 1)
  }

  /** None of the first `n` states from `s` is idle. */
  predicate ActiveFor(g: Guide, s: TimerState, n: nat)
    requires WellTyped(g, s)
    decreases n
  {
    n == 0 || (s.phase != Idle && ActiveFor(g, Step(g, s), n - 1))
  }

  /** How many of the first `n` states from `s` begin a `ph` phase. */
  function Occurrences(g: Guide, s: TimerState, n: nat, ph: Phase): nat
    requires WellTyped(g, s) && ph in Phases(g)
    decreases n
  {
    if n == 0 then 0
    else (if s.phase == ph && s.timer == Duration(g, ph) then 1 else 0)
         + Occurrences(g, Step(g, s), n - 1, ph)
  }

  /** The bounds every reachable state keeps. */
  predicate Invariant(g: Guide, s: TimerState) {
    if s.phase == Idle then s.counter == 0 && s.timer == 0
    else
      && s.phase in Phases(g)
      && 1 <= s.timer <= Duration(g, s.phase)
      && match g
         case Diaphragmatic => 1 <= s.counter <= 8 && (s.phase == Prepare ==> s.counter <= 7)
         case PursedLip => 1 <= s.counter <= 10
         case Relaxation => 0 <= s.counter <= |MuscleGroups| - 1
  }

  // ---------------------------------------------------------------------
  // Invariant
  // ---------------------------------------------------------------------

  lemma StartKeepsInvariant(g: Guide)
    ensures Invariant(g, StartState(g)) && Invariant(g, IdleState)
  {
  }

  /**
   * A tick keeps the timer within its phase's duration and the counter within
   * its guide's range, so `muscleGroups[groupIndex]` is always in bounds.
   */
  lemma StepKeepsInvariant(g: Guide, s: TimerState)
    requires Invariant(g, s)
    ensures Invariant(g, Step(g, s))
    ensures g == Relaxation && s.phase != Idle ==> 0 <= s.counter < |MuscleGroups|
  {
  }

  // ---------------------------------------------------------------------
  // Run lengths
  // ---------------------------------------------------------------------

  /** `n` ticks from `s` stay active, end in `t` and begin `k` phases `ph`. */
  predicate Segment(g: Guide, s: TimerState, n: nat, t: TimerState, ph: Phase, k: nat)
    requires WellTyped(g, s) && ph in Phases(g)
  {
    ActiveFor(g, s, n) && Run(g, s, n) == t && Occurrences(g, s, n, ph) == k
  }

  lemma {:induction false} SegmentJoin(g: Guide, s: TimerState, a: nat, m: TimerState, b: nat,
                                       t: TimerState, ph: Phase, k1: nat, k2: nat)
    requires WellTyped(g, s) && WellTyped(g, m) && ph in Phases(g)
    requires Segment(g, s, a, m, ph, k1) && Segment(g, m, b, t, ph, k2)
    ensures Segment(g, s, a + b, t, ph, k1 + k2)
  {
    RunJoin(g, s, a, b);
    ActiveJoin(g, s, a, b);
    OccurrencesJoin(g, s, a, b, ph);
  }

  lemma {:induction false} RunJoin(g: Guide, s: TimerState, a: nat, b: nat)
    requires WellTyped(g, s)
    ensures Run(g, s, a + b) == Run(g, Run(g, s, a), b)
    decreases a
  {
    if a > 0 {
      RunJoin(g, Step(g, s), a - 1, b);
    }
  }

  lemma {:induction false} ActiveJoin(g: Guide, s: TimerState, a: nat, b: nat)
    requires WellTyped(g, s)
    ensures ActiveFor(g, s, a + b) <==> ActiveFor(g, s, a) && ActiveFor(g, Run(g, s, a), b)
    decreases a
  {
    if a > 0 {
      ActiveJoin(g, Step(g, s), a - 1, b);
    }
  }

  lemma {:induction false} OccurrencesJoin(g: Guide, s: TimerState, a: nat, b: nat, ph: Phase)
    requires WellTyped(g, s) && ph in Phases(g)
    ensures Occurrences(g, s, a + b, ph) == Occurrences(g, s, a, ph) + Occurrences(g, Run(g, s, a), b, ph)
    decreases a
  {
    if a > 0 {
      OccurrencesJoin(g, Step(g, s), a - 1, b, ph);
    }
  }

  /**
   * A phase with `timer` seconds left stays active for exactly those ticks,
   * then takes the end-of-phase transition; it begins a phase only when its
   * timer is still full.
   */
  lemma {:induction false} Countdown(g: Guide, s: TimerState, ph: Phase)
    requires s.phase in Phases(g) && ph in Phases(g)
    requires 1 <= s.timer <= Duration(g, s.phase)
    ensures Segment(g, s, s.timer, Step(g, s.(timer := 1)), ph,
                    if s.phase == ph && s.timer == Duration(g, ph) then 1 else 0)
    decreases s.timer
  {
    if s.timer > 1 {
      var s' := Step(g, s);
      assert s' == s.(timer := s.timer - 1);
      Countdown(g, s', ph);
      assert s'.(timer := 1) == s.(timer := 1);
    } else {
      assert s.(timer := 1) == s;
    }
  }

  /** A whole phase entered with a full timer. */
  lemma PhaseBlock(g: Guide, p: Phase, c: int, ph: Phase)
    requires p in Phases(g) && ph in Phases(g) && Duration(g, p) >= 1
    ensures Segment(g, TimerState(p, c, Duration(g, p)), Duration(g, p),
                    Step(g, TimerState(p, c, 1)), ph, if p == ph then 1 else 0)
  {
    Countdown(g, TimerState(p, c, Duration(g, p)), ph);
  }

  /** One pursed-lip breath: 2 + 4 ticks, one inhale. */
  lemma PursedLipCycle(r: int)
    ensures Segment(PursedLip, TimerState(Inhale, r, 2), 6,
                    if r >= 10 then IdleState else TimerState(Inhale, r + 1, 2), Inhale, 1)
  {
    var g := PursedLip;
    PhaseBlock(g, Inhale, r, Inhale);
    PhaseBlock(g, Exhale, r, Inhale);
    SegmentJoin(g, TimerState(Inhale, r, 2), 2, TimerState(Exhale, r, 4), 4,
                if r >= 10 then IdleState else TimerState(Inhale, r + 1, 2), Inhale, 1, 0);
  }

  lemma {:induction false} PursedLipFrom(r: int)
    requires 1 <= r <= 10
    ensures Segment(PursedLip, TimerState(Inhale, r, 2), 6 * (11 - r), IdleState, Inhale, 11 - r)
    decreases 10 - r
  {
    PursedLipCycle(r);
    if r < 10 {
      PursedLipFrom(r + 1);
      SegmentJoin(PursedLip, TimerState(Inhale, r, 2), 6, TimerState(Inhale, r + 1, 2),
                  6 * (10 - r), IdleState, Inhale, 1, 10 - r);
    }
  }

  /** Pursed-lip breathing runs exactly 60 ticks, through 10 inhale phases. */
  lemma PursedLipRunLength()
    ensures Segment(PursedLip, StartState(PursedLip), 60, IdleState, Inhale, 10)
  {
    PursedLipFrom(1);
  }

  /** One relaxation group: tense 5 then release 10 ticks. */
  lemma RelaxationCycle(i: int)
    ensures Segment(Relaxation, TimerState(Tense, i, 5), 15,
                    if i >= 8 then IdleState else TimerState(Tense, i + 1, 5), Tense, 1)
  {
    var g := Relaxation;
    PhaseBlock(g, Tense, i, Tense);
    PhaseBlock(g, Release, i, Tense);
    SegmentJoin(g, TimerState(Tense, i, 5), 5, TimerState(Release, i, 10), 10,
                if i >= 8 then IdleState else TimerState(Tense, i + 1, 5), Tense, 1, 0);
  }

  /** From group i: 15(9-i) ticks with 9-i tense phases, then idle. */
  lemma {:induction false} RelaxationFrom(i: int)
    requires 0 <= i <= 8
    ensures Segment(Relaxation, TimerState(Tense, i, 5), 15 * (9 - i), IdleState, Tense, 9 - i)
    decreases 8 - i
  {
    RelaxationCycle(i);
    if i < 8 {
      RelaxationFrom(i + 1);
      SegmentJoin(Relaxation, TimerState(Tense, i, 5), 15, TimerState(Tense, i + 1, 5),
                  15 * (8 - i), IdleState, Tense, 1, 8 - i);
    }
  }

  /** From group i, the tense phase of each later group j begins at tick 15(j-i). */
  lemma {:induction false} RelaxationGroupStarts(i: int)
    requires 0 <= i <= 8
    ensures forall j | i <= j <= 8 :: Run(Relaxation, TimerState(Tense, i, 5), GroupStart(j - i)) == TimerState(Tense, j, 5)
    decreases 8 - i
  {
    if i < 8 {
      RelaxationCycle(i);
      RelaxationGroupStarts(i + 1);
      forall j | i < j <= 8
        ensures Run(Relaxation, TimerState(Tense, i, 5), GroupStart(j - i)) == TimerState(Tense, j, 5)
      {
        RunJoin(Relaxation, TimerState(Tense, i, 5), 15, GroupStart(j - i - 1));
      }
    }
  }

  /** The tick at which the j-th muscle group of a relaxation run begins. */
  function GroupStart(j: nat): nat {
    15 * j
  }

  /**
   * Relaxation runs exactly 135 ticks through 9 tense phases, and the phase
   * beginning at tick 15j tenses group j: each group is tensed once, in order.
   */
  lemma RelaxationRunLength()
    ensures Segment(Relaxation, StartState(Relaxation), 135, IdleState, Tense, |MuscleGroups|)
    ensures forall j | 0 <= j < |MuscleGroups| :: Run(Relaxation, StartState(Relaxation), GroupStart(j)) == TimerState(Tense, j, 5)
  {
    RelaxationFrom(0);
    RelaxationGroupStarts(0);
  }

  /**
   * One diaphragmatic breath: prepare 3, inhale 3, hold 2, exhale 4 ticks.
   * Entering inhale bumps the round, so the stop test at the end of exhale
   * already sees the bumped value.
   */
  lemma DiaphragmaticCycle(r: int)
    ensures Segment(Diaphragmatic, TimerState(Prepare, r, 3), 12,
                    if r + 1 >= 8 then IdleState else TimerState(Prepare, r + 1, 3), Inhale, 1)
  {
    var g := Diaphragmatic;
    var end := if r + 1 >= 8 then IdleState else TimerState(Prepare, r + 1, 3);
    PhaseBlock(g, Prepare, r, Inhale);
    PhaseBlock(g, Inhale, r + 1, Inhale);
    PhaseBlock(g, Hold, r + 1, Inhale);
    PhaseBlock(g, Exhale, r + 1, Inhale);
    SegmentJoin(g, TimerState(Hold, r + 1, 2), 2, TimerState(Exhale, r + 1, 4), 4, end, Inhale, 0, 0);
    SegmentJoin(g, TimerState(Inhale, r + 1, 3), 3, TimerState(Hold, r + 1, 2), 6, end, Inhale, 1, 0);
    SegmentJoin(g, TimerState(Prepare, r, 3), 3, TimerState(Inhale, r + 1, 3), 9, end, Inhale, 0, 1);
  }

  lemma {:induction false} DiaphragmaticFrom(r: int)
    requires 1 <= r <= 7
    ensures Segment(Diaphragmatic, TimerState(Prepare, r, 3), 12 * (8 - r), IdleState, Inhale, 8 - r)
    decreases 7 - r
  {
    DiaphragmaticCycle(r);
    if r < 7 {
      DiaphragmaticFrom(r + 1);
      SegmentJoin(Diaphragmatic, TimerState(Prepare, r, 3), 12, TimerState(Prepare, r + 1, 3),
                  12 * (7 - r), IdleState, Inhale, 1, 7 - r);
    }
  }

  /**
   * Diaphragmatic breathing runs exactly 84 ticks with 7 inhale phases, not
   * the 8 rounds its label announces: the first prepare-to-inhale transition
   * already moves the round from 1 to 2.
   */
  lemma DiaphragmaticRunLength()
    ensures Segment(Diaphragmatic, StartState(Diaphragmatic), 84, IdleState, Inhale, 7)
  {
    DiaphragmaticFrom(1);
  }

  // ---------------------------------------------------------------------
  // A guide component as an object
  // ---------------------------------------------------------------------

  /** One mounted guide component with its `phase`, counter and `timer` state. */
  class BreathingGuide {
    const guide: Guide
    var phase: Phase
    var counter: int
    var timer: int

    function State(): TimerState
      reads this
    {
      TimerState(phase, counter, timer)
    }

    ghost predicate Valid()
      reads this
    {
      Invariant(guide, State())
    }

    constructor (g: Guide)
      ensures guide == g && State() == IdleState && Valid()
    {
      guide := g;
      phase, counter, timer := Idle, 0, 0;
    }

    /** `startExercise`; the component shows its start button only when idle. */
    method Start()
      modifies this
      ensures State() == StartState(guide) && Valid()
    {
      match guide
      case Diaphragmatic => phase, timer, counter := Prepare, 3, 1;
      case PursedLip => phase, timer, counter := Inhale, 2, 1;
      case Relaxation => phase, counter, timer := Tense, 0, 5;
    }

    /** `stopExercise`: from any state, back to idle; stopping twice is stopping once. */
    method Stop()
      modifies this
      ensures State() == IdleState && Valid()
    {
      phase, counter, timer := Idle, 0, 0;
    }

    /** One second of the interval. */
    method Tick()
      requires Valid()
      modifies this
      ensures State() == Step(guide, old(State())) && Valid()
    {
      StepKeepsInvariant(guide, State());
      if phase != Idle {
        if timer > 1 {
          timer := timer - 1;
        } else if StopsAtEndOf(guide, State()) {
          Stop();
        } else {
          var next := Phases(guide)[phase].next;
          if next == CycleStart(guide) {
            counter := counter + 1;
          }
          phase := next;
          timer := Phases(guide)[next].duration;
        }
      }
    }

    /** The muscle group the relaxation guide names while it runs. */
    function CurrentMuscleGroup(): (name: string)
      reads this
      requires Valid() && guide == Relaxation && phase != Idle
      ensures name in MuscleGroups
    {
      MuscleGroups[counter]
    }
  }
}
