/**
 * The inhaler practice guides: `MedicationGuideBase`, a linear, non-looping
 * stepper over a table of timed steps, and its two tables, MDI (metered-dose
 * inhaler) and DPI (dry-powder inhaler).
 */
module MedicationGuides {

  /** A `GuideStep`: its instruction text and how many seconds it lasts. */
  datatype GuideStep = GuideStep(text: string, duration: int)

  const MdiSteps: seq<GuideStep> := [
    GuideStep("1. ถอดฝาครอบและ 'เขย่า' ขวดแนวตั้ง 5-10 ครั้ง", 5),
    GuideStep("2. หายใจออกทางปากให้สุด (หันหน้าหนี)", 4),
    GuideStep("3. อมปากกระบอกยาให้สนิท", 3),
    GuideStep("4. กด 1 ครั้ง พร้อมสูดหายใจเข้า 'ช้าและลึก'", 5),
    GuideStep("5. กลั้นหายใจ (นับ 1-10)", 10),
    GuideStep("6. ผ่อนลมหายใจออกทางจมูกช้าๆ", 4)
  ]

  const DpiSteps: seq<GuideStep> := [
    GuideStep("1. เตรียมยา (หมุน/ดัน จนดัง 'คลิก')", 5),
    GuideStep("2. หายใจออกให้สุด (ห้ามเป่าเข้าเครื่อง)", 4),
    GuideStep("3. อมปากกระบอกยาให้สนิท", 3),
    GuideStep("4. สูดหายใจเข้าทางปาก 'เร็วและแรง'", 3),
    GuideStep("5. เอาเครื่องออก แล้วกลั้นหายใจ (นับ 1-10)", 10),
    GuideStep("6. ผ่อนลมหายใจออกช้าๆ", 4),
    GuideStep("7. บ้วนปากด้วยน้ำสะอาด", 5)
  ]

  /** "Hold your breath", the text that marks a breath-hold step. */
  const HoldBreath: string := "กลั้นหายใจ"

  /** `pat` occurs in `s` starting at index `i`. */
  predicate OccursAt(s: string, pat: string, i: int) {
    0 <= i <= |s| - |pat| && s[i..i + |pat|] == pat
  }

  /** `String.prototype.includes`. */
  predicate Contains(s: string, pat: string) {
    exists i :: 0 <= i <= |s| - |pat| && OccursAt(s, pat, i)
  }

  /** `isHoldBreath`: the step is shown in red while the learner holds their breath. */
  predicate IsHoldBreath(step: GuideStep) {
    Contains(step.text, HoldBreath)
  }

  /** A usable table: at least one step, every step at least a second long. */
  predicate WellFormed(steps: seq<GuideStep>) {
    |steps| > 0 && forall i :: 0 <= i < |steps| ==> steps[i].duration >= 1
  }

  /** `active`, `stepIndex` and `timeLeft`. */
  datatype StepperState = StepperState(active: bool, stepIndex: int, timeLeft: int)

  /** What `stop` leaves behind, and the initial state. */
  const Stopped: StepperState := StepperState(false, 0, 0)

  function StartState(steps: seq<GuideStep>): StepperState
    requires |steps| > 0
  {
    StepperState(true, 0, steps[0].duration)
  }

  /** The state is stopped or on one of the steps. */
  predicate InRange(steps: seq<GuideStep>, s: StepperState) {
    s.active ==> 0 <= s.stepIndex < |steps|
  }

  /**
   * One interval tick. No interval runs while the guide is inactive, so a
   * tick then changes nothing.
   */
  function Step(steps: seq<GuideStep>, s: StepperState): (r: StepperState)
    requires InRange(steps, s)
    ensures InRange(steps, r)
  {
    if !s.active then s
    else if s.timeLeft <= 1 then
      if s.stepIndex < |steps| - 1 then StepperState(true, s.stepIndex + 1, steps[s.stepIndex + 1].duration)
      else Stopped
    else s.(timeLeft := s.timeLeft - 1)
  }

  /** The bounds every reachable state keeps. */
  predicate Invariant(steps: seq<GuideStep>, s: StepperState) {
    if s.active then 0 <= s.stepIndex < |steps| && 1 <= s.timeLeft <= steps[s.stepIndex].duration
    else s.stepIndex == 0 && s.timeLeft == 0
  }

  function Run(steps: seq<GuideStep>, s: StepperState, n: nat): StepperState
    requires InRange(steps, s)
    decreases n
  {
    if n == 0 then s else Run(steps, Step(steps, s), n - 1)
  }

  predicate ActiveFor(steps: seq<GuideStep>, s: StepperState, n: nat)
    requires InRange(steps, s)
    decreases n
  {
    n == 0 || (s.active && ActiveFor(steps, Step(steps, s), n - 1))
  }

  /** The step index shown in each of the first `n` states from `s`. */
  function Shown(steps: seq<GuideStep>, s: StepperState, n: nat): (r: seq<int>)
    requires InRange(steps, s)
    ensures |r| == n
    decreases n
  {
    if n == 0 then [] else [s.stepIndex] + Shown(steps, Step(steps, s), n - 1)
  }

  /** Each step from `i` on, shown for its whole duration, in order. */
  function Schedule(steps: seq<GuideStep>, i: nat): seq<int>
    requires forall k :: 0 <= k < |steps| ==> steps[k].duration >= 1
    decreases |steps| - i
  {
    if i >= |steps| then [] else seq(steps[i].duration, _ => i) + Schedule(steps, i + 1)
  }

  /** The total duration of the steps from `i` on. */
  function TotalFrom(steps: seq<GuideStep>, i: nat): nat
    requires forall k :: 0 <= k < |steps| ==> steps[k].duration >= 1
    decreases |steps| - i
  {
    if i >= |steps| then 0 else steps[i].duration + TotalFrom(steps, i + 1)
  }

  // ---------------------------------------------------------------------
  // Invariant and stop
  // ---------------------------------------------------------------------

  /** Ticks keep the step index in [0, len-1], so `steps[stepIndex]` is always defined. */
  lemma StepKeepsInvariant(steps: seq<GuideStep>, s: StepperState)
    requires WellFormed(steps) && Invariant(steps, s)
    ensures Invariant(steps, Step(steps, s))
    ensures Invariant(steps, StartState(steps)) && Invariant(steps, Stopped)
  {
  }

  // ---------------------------------------------------------------------
  // A full run
  // ---------------------------------------------------------------------

  /** `n` ticks from `s` stay active, end in `t` and show the indices `shown`. */
  predicate Segment(steps: seq<GuideStep>, s: StepperState, n: nat, t: StepperState, shown: seq<int>)
    requires InRange(steps, s)
  {
    ActiveFor(steps, s, n) && Run(steps, s, n) == t && Shown(steps, s, n) == shown
  }

  lemma {:induction false} SegmentJoin(steps: seq<GuideStep>, s: StepperState, a: nat, m: StepperState,
                                       b: nat, t: StepperState, x: seq<int>, y: seq<int>)
    requires InRange(steps, s) && InRange(steps, m)
    requires Segment(steps, s, a, m, x) && Segment(steps, m, b, t, y)
    ensures Segment(steps, s, a + b, t, x + y)
    decreases a
  {
    if a > 0 {
      SegmentJoin(steps, Step(steps, s), a - 1, m, b, t, x[1..], y);
      assert x + y == [x[0]] + (x[1..] + y);
    }
  }

  /** Step `i` with `t` seconds left shows `i` for exactly `t` ticks, then moves on. */
  lemma {:induction false} Countdown(steps: seq<GuideStep>, i: int, t: int)
    requires 0 <= i < |steps| && t >= 1
    ensures Segment(steps, StepperState(true, i, t), t,
                    Step(steps, StepperState(true, i, 1)), seq(t, _ => i))
    decreases t
  {
    if t > 1 {
      Countdown(steps, i, t - 1);
      assert seq(t, _ => i) == [i] + seq(t - 1, _ => i);
    }
  }

  lemma {:induction false} RunFrom(steps: seq<GuideStep>, i: nat)
    requires WellFormed(steps) && i < |steps|
    ensures Segment(steps, StepperState(true, i, steps[i].duration), TotalFrom(steps, i),
                    Stopped, Schedule(steps, i))
    decreases |steps| - i
  {
    Countdown(steps, i, steps[i].duration);
    if i < |steps| - 1 {
      RunFrom(steps, i + 1);
      SegmentJoin(steps, StepperState(true, i, steps[i].duration), steps[i].duration,
                  StepperState(true, i + 1, steps[i + 1].duration), TotalFrom(steps, i + 1),
                  Stopped, seq(steps[i].duration, _ => i), Schedule(steps, i + 1));
    } else {
      assert Schedule(steps, i) == seq(steps[i].duration, _ => i) + [];
    }
  }

  /**
   * A started guide stays active for exactly the sum of its durations, shows
   * every step once, in order, for its whole duration, and then stops.
   */
  lemma FullRun(steps: seq<GuideStep>)
    requires WellFormed(steps)
    ensures Segment(steps, StartState(steps), TotalFrom(steps, 0), Stopped, Schedule(steps, 0))
  {
    RunFrom(steps, 0);
  }

  /**
   * Both device tables are well formed; a started MDI guide runs 31 ticks and
   * a started DPI guide 34, each showing its steps in order.
   */
  lemma DeviceTables()
    ensures WellFormed(MdiSteps) && TotalFrom(MdiSteps, 0) == 31
    ensures WellFormed(DpiSteps) && TotalFrom(DpiSteps, 0) == 34
    ensures Segment(MdiSteps, StartState(MdiSteps), 31, Stopped, Schedule(MdiSteps, 0))
    ensures Segment(DpiSteps, StartState(DpiSteps), 34, Stopped, Schedule(DpiSteps, 0))
  {
    MdiRunLength();
    DpiRunLength();
  }

  lemma MdiRunLength()
    ensures WellFormed(MdiSteps) && TotalFrom(MdiSteps, 0) == 31
    ensures Segment(MdiSteps, StartState(MdiSteps), 31, Stopped, Schedule(MdiSteps, 0))
  {
    assert TotalFrom(MdiSteps, 6) == 0;
    FullRun(MdiSteps);
  }

  lemma DpiRunLength()
    ensures WellFormed(DpiSteps) && TotalFrom(DpiSteps, 0) == 34
    ensures Segment(DpiSteps, StartState(DpiSteps), 34, Stopped, Schedule(DpiSteps, 0))
  {
    assert TotalFrom(DpiSteps, 7) == 0;
    FullRun(DpiSteps);
  }

  // ---------------------------------------------------------------------
  // The breath-hold step
  // ---------------------------------------------------------------------

  /** A text lacking one of the pattern's characters cannot contain it. */
  lemma MissingCharacter(s: string, pat: string, c: char)
    requires c in pat && c !in s
    ensures !Contains(s, pat)
  {
    var k :| 0 <= k < |pat| && pat[k] == c;
    forall i | 0 <= i <= |s| - |pat| ensures !OccursAt(s, pat, i) {
      assert s[i..i + |pat|][k] == s[i + k];
    }
  }

  /** The same, for a text given in three pieces. */
  lemma NotHoldBreath(t: string, a: string, b: string, d: string, c: char)
    requires t == a + b + d && c in HoldBreath && c !in a && c !in b && c !in d
    ensures !Contains(t, HoldBreath)
  {
    MissingCharacter(t, HoldBreath, c);
  }

  lemma ContainsAt(s: string, pat: string, i: int)
    requires OccursAt(s, pat, i)
    ensures Contains(s, pat)
  {
  }

  /** Steps of the MDI table that are not breath-hold steps. */
  lemma MdiStep0NotHoldBreath()
    ensures !IsHoldBreath(MdiSteps[0])
  {
    NotHoldBreath(MdiSteps[0].text, "1. ถอดฝาครอบและ", " 'เขย่า' ขวดแนว", "ตั้ง 5-10 ครั้ง", 'ก');
  }

  lemma MdiStep1NotHoldBreath()
    ensures !IsHoldBreath(MdiSteps[1])
  {
    NotHoldBreath(MdiSteps[1].text, "2. หายใจออกทา", "งปากให้สุด ", "(หันหน้าหนี)", 'ล');
  }

  lemma MdiStep2NotHoldBreath()
    ensures !IsHoldBreath(MdiSteps[2])
  {
    NotHoldBreath(MdiSteps[2].text, "3. อมปา", "กกระบอกยา", "ให้สนิท", 'ล');
  }

  lemma MdiStep3NotHoldBreath()
    ensures !IsHoldBreath(MdiSteps[3])
  {
    NotHoldBreath(MdiSteps[3].text, "4. กด 1 ครั้ง ", "พร้อมสูดหายใจเ", "ข้า 'ช้าและลึก'", 'น');
  }

  lemma MdiStep5NotHoldBreath()
    ensures !IsHoldBreath(MdiSteps[5])
  {
    NotHoldBreath(MdiSteps[5].text, "6. ผ่อนลม", "หายใจออกทา", "งจมูกช้าๆ", 'ั');
  }

  /** In the MDI table only step 5, the ten-second step, is a breath-hold step. */
  lemma MdiHoldBreathStep()
    ensures forall i :: 0 <= i < |MdiSteps| ==> (IsHoldBreath(MdiSteps[i]) <==> i == 4)
    ensures MdiSteps[4].duration == 10
  {
    MdiStep0NotHoldBreath();
    MdiStep1NotHoldBreath();
    MdiStep2NotHoldBreath();
    MdiStep3NotHoldBreath();
    MdiStep5NotHoldBreath();
    assert MdiSteps[4].text[3..13] == HoldBreath;
    ContainsAt(MdiSteps[4].text, HoldBreath, 3);
  }

  /** Steps of the DPI table that are not breath-hold steps. */
  lemma DpiStep0NotHoldBreath()
    ensures !IsHoldBreath(DpiSteps[0])
  {
    NotHoldBreath(DpiSteps[0].text, "1. เตรียมยา", " (หมุน/ดัน จ", "นดัง 'คลิก')", '้');
  }

  lemma DpiStep1NotHoldBreath()
    ensures !IsHoldBreath(DpiSteps[1])
  {
    NotHoldBreath(DpiSteps[1].text, "2. หายใจออกให้", "สุด (ห้ามเป่า", "เข้าเครื่อง)", 'ล');
  }

  lemma DpiStep2NotHoldBreath()
    ensures !IsHoldBreath(DpiSteps[2])
  {
    NotHoldBreath(DpiSteps[2].text, "3. อมปา", "กกระบอกยา", "ให้สนิท", 'ล');
  }

  lemma DpiStep3NotHoldBreath()
    ensures !IsHoldBreath(DpiSteps[3])
  {
    NotHoldBreath(DpiSteps[3].text, "4. สูดหายใจ", "เข้าทางปาก ", "'เร็วและแรง'", 'ั');
  }

  lemma DpiStep5NotHoldBreath()
    ensures !IsHoldBreath(DpiSteps[5])
  {
    NotHoldBreath(DpiSteps[5].text, "6. ผ่อน", "ลมหายใจ", "ออกช้าๆ", 'ั');
  }

  lemma DpiStep6NotHoldBreath()
    ensures !IsHoldBreath(DpiSteps[6])
  {
    NotHoldBreath(DpiSteps[6].text, "7. บ้วน", "ปากด้วย", "น้ำสะอาด", 'ล');
  }

  /** In the DPI table only step 5, the ten-second step, is a breath-hold step. */
  lemma DpiHoldBreathStep()
    ensures forall i :: 0 <= i < |DpiSteps| ==> (IsHoldBreath(DpiSteps[i]) <==> i == 4)
    ensures DpiSteps[4].duration == 10
  {
    DpiStep0NotHoldBreath();
    DpiStep1NotHoldBreath();
    DpiStep2NotHoldBreath();
    DpiStep3NotHoldBreath();
    DpiStep5NotHoldBreath();
    DpiStep6NotHoldBreath();
    assert DpiSteps[4].text[21..31] == HoldBreath;
    ContainsAt(DpiSteps[4].text, HoldBreath, 21);
  }

  // ---------------------------------------------------------------------
  // The component as an object
  // ---------------------------------------------------------------------

  /** One mounted `MedicationGuideBase` with its step table. */
  class MedicationGuide {
    const steps: seq<GuideStep>
    var active: bool
    var stepIndex: int
    var timeLeft: int

    function State(): StepperState
      reads this
    {
      StepperState(active, stepIndex, timeLeft)
    }

    ghost predicate Valid()
      reads this
    {
      WellFormed(steps) && Invariant(steps, State())
    }

    constructor (table: seq<GuideStep>)
      requires WellFormed(table)
      ensures steps == table && State() == Stopped && Valid()
    {
      steps := table;
      active, stepIndex, timeLeft := false, 0, 0;
    }

    /** `start`: reads `steps[0]`, so it needs a non-empty table. */
    method Start()
      requires |steps| > 0
      modifies this
      ensures State() == StartState(steps)
      ensures WellFormed(steps) ==> Valid()
    {
      active := true;
      stepIndex := 0;
      timeLeft := steps[0].duration;
    }

    /** `stop`: from any state, the same inactive state; stopping twice is stopping once. */
    method Stop()
      modifies this
      ensures State() == Stopped
      ensures WellFormed(steps) ==> Valid()
    {
      active := false;
      stepIndex := 0;
      timeLeft := 0;
    }

    /** One second of the interval. */
    method Tick()
      requires Valid()
      modifies this
      ensures State() == Step(steps, old(State())) && Valid()
    {
      StepKeepsInvariant(steps, State());
      if active {
        if timeLeft <= 1 {
          if stepIndex < |steps| - 1 {
            stepIndex := stepIndex + 1;
            timeLeft := steps[stepIndex].duration;
          } else {
            Stop();
          }
        } else {
          timeLeft := timeLeft - 1;
        }
      }
    }

    /** `currentStep`: always one of the table's steps. */
    function CurrentStep(): (step: GuideStep)
      reads this
      requires Valid()
      ensures step in steps
    {
      steps[stepIndex]
    }
  }
}
