/**
 * The routing rules of the application shell: which navigation entries are
 * locked, what the lesson route shows for its `id` parameter, and where the
 * learner is sent after marking a lesson complete.
 */
module AppRouting {
  import opened Wrappers
  import opened SeqUtil
  import opened ParseInt
  import opened Progress

  /** The `Section` values navigation entries carry; `Lesson(k)` is `lessonk`. */
  datatype Section = Home | Lesson(k: nat) | Quiz | Videos

  /** The section's string value. */
  function SectionName(s: Section): string {
    match s
    case Home => "home"
    case Lesson(k) => "lesson" + Decimal(k)
    case Quiz => "quiz"
    case Videos => "videos"
  }

  /** The lesson number a navigation entry stands for: parsed after `lesson`, else 0. */
  function NavLessonId(name: string): Parsed {
    if |name| >= 6 && name[..6] == "lesson" then Parse(name[6..]) else Int(0)
  }

  /** `CustomNavLink`'s `isLocked`. */
  predicate IsNavLocked(section: Section, p: ProgressData, lessonCount: nat) {
    var id := NavLessonId(SectionName(section));
    || (id.Int? && id.value > 0 && !IsLessonUnlocked(p, id.value))
    || (section == Quiz && !IsQuizUnlocked(p, lessonCount))
  }

  /** `id || '1'`: a missing or empty route parameter means lesson 1. */
  function RouteId(id: Option<string>): string {
    if id.None? || id.value == "" then "1" else id.value
  }

  datatype LessonOutcome = RedirectHome | LockScreen(backTo: int) | ShowLesson(lessonId: int, completeDisabled: bool)

  /** `LessonPageWrapper`: parse the id, look the lesson up, then apply the lock. */
  function LessonPage(id: Option<string>, lessonIds: seq<int>, p: ProgressData): (o: LessonOutcome)
    ensures o.ShowLesson? ==>
              && o.lessonId in lessonIds
              && IsLessonUnlocked(p, o.lessonId)
              && (o.completeDisabled <==> IsLessonCompleted(p, o.lessonId))
    ensures o.LockScreen? ==> o.backTo + 1 in lessonIds && !IsLessonUnlocked(p, o.backTo + 1)
  {
    var parsed := Parse(RouteId(id));
    if parsed.NaN? || parsed.value !in lessonIds then RedirectHome
    else if !IsLessonUnlocked(p, parsed.value) then LockScreen(parsed.value - 1)
    else ShowLesson(parsed.value, IsLessonCompleted(p, parsed.value))
  }

  datatype Target = LessonRoute(lessonId: int) | QuizRoute

  /** Where `handleCompleteLesson` navigates after completing `lessonId`. */
  function NextTarget(lessonId: int, lessonCount: nat): (t: Target)
    ensures t.QuizRoute? <==> lessonId >= lessonCount
    ensures t.LessonRoute? ==> t.lessonId == lessonId + 1 && t.lessonId <= lessonCount
  {
    if lessonId + 1 <= lessonCount then LessonRoute(lessonId + 1) else QuizRoute
  }

  // ---------------------------------------------------------------------
  // Properties
  // ---------------------------------------------------------------------

  /**
   * A lesson entry is locked exactly when its lesson number is positive and
   * the lesson is not unlocked; the quiz entry exactly when the quiz is not
   * unlocked; the other entries never.
   */
  lemma NavLockRule(section: Section, p: ProgressData, lessonCount: nat)
    ensures IsNavLocked(section, p, lessonCount) <==>
              match section
              case Lesson(k) => k > 0 && !IsLessonUnlocked(p, k)
              case Quiz => !IsQuizUnlocked(p, lessonCount)
              case _ => false
  {
    if section.Lesson? {
      var name := SectionName(section);
      assert name[..6] == "lesson";
      assert name[6..] == Decimal(section.k) + [];
      DecimalRoundTrip(section.k, []);
    } else if section == Videos {
      assert SectionName(section)[0] != "lesson"[0];
    }
  }

  /** Under linear progress through lessons 1..k, exactly the entries beyond k+1 are locked. */
  lemma LockedBeyondFrontier(p: ProgressData, k: nat, j: nat, lessonCount: nat)
    requires p.completedLessons == Range(k)
    requires j >= 1
    ensures IsNavLocked(Lesson(j), p, lessonCount) <==> j > k + 1
  {
    NavLockRule(Lesson(j), p, lessonCount);
    UnlockedAfterPrefix(p, k, j);
  }

  /** With no id, or an empty one, the route shows lesson 1, which is never locked. */
  lemma DefaultRouteIsFirstLesson(id: Option<string>, lessonIds: seq<int>, p: ProgressData)
    requires id.None? || id.value == ""
    requires 1 in lessonIds
    ensures LessonPage(id, lessonIds, p) == ShowLesson(1, 1 in p.completedLessons)
  {
    assert Decimal(1) + [] == "1";
    DecimalRoundTrip(1, []);
  }

  /**
   * A route id spelling lesson k (trailing non-digits are ignored) redirects
   * home when there is no such lesson, shows the lock screen pointing at
   * k-1 when it is locked, and otherwise shows the lesson with the complete
   * button disabled exactly when it is already completed.
   */
  lemma NumericRoute(k: nat, rest: string, lessonIds: seq<int>, p: ProgressData)
    requires rest == [] || !IsDigit(rest[0])
    ensures var outcome := LessonPage(Some(Decimal(k) + rest), lessonIds, p);
            && (outcome == RedirectHome <==> k !in lessonIds)
            && (outcome == LockScreen(k - 1) <==> k in lessonIds && !IsLessonUnlocked(p, k))
            && (outcome == ShowLesson(k, k in p.completedLessons) <==> k in lessonIds && IsLessonUnlocked(p, k))
  {
    DecimalRoundTrip(k, rest);
  }

  /** A route id with no digit in it redirects home. */
  lemma NonNumericRouteRedirects(id: string, lessonIds: seq<int>, p: ProgressData)
    requires id != ""
    requires forall i | 0 <= i < |id| :: !IsDigit(id[i])
    ensures LessonPage(Some(id), lessonIds, p) == RedirectHome
  {
    NoDigitsIsNaN(id);
  }

  /** The lock screen always points back at an existing earlier lesson number other than 0. */
  lemma LockScreenPointsBack(id: Option<string>, lessonIds: seq<int>, p: ProgressData)
    requires LessonPage(id, lessonIds, p).LockScreen?
    ensures var b := LessonPage(id, lessonIds, p).backTo;
            b != 0 && b + 1 in lessonIds && !IsLessonCompleted(p, b)
  {
  }

  /**
   * Completing the frontier lesson of linear progress opens the target
   * `handleCompleteLesson` navigates to: the next lesson, or the quiz after
   * the last lesson.
   */
  lemma NextTargetIsOpen(p: ProgressData, k: nat, lessonId: int, lessonCount: nat)
    requires p.completedLessons == Range(k)
    requires 1 <= lessonId <= lessonCount
    requires IsLessonUnlocked(p, lessonId) && !IsLessonCompleted(p, lessonId)
    ensures var q := Apply(p, Complete(lessonId));
            match NextTarget(lessonId, lessonCount)
            case LessonRoute(j) => j <= lessonCount && IsLessonUnlocked(q, j)
            case QuizRoute => IsQuizUnlocked(q, lessonCount)
  {
    FrontierLesson(p, k, lessonId);
    CompleteUnlockedKeepsPrefix(p, k, lessonId);
    var q := Apply(p, Complete(lessonId));
    if lessonId + 1 <= lessonCount {
      UnlockedAfterPrefix(q, k + 1, lessonId + 1);
    }
  }

  /** Under linear progress through 1..k, the only unlocked lesson not yet completed is k+1. */
  lemma FrontierLesson(p: ProgressData, k: nat, lessonId: int)
    requires p.completedLessons == Range(k)
    requires lessonId >= 1 && IsLessonUnlocked(p, lessonId) && !IsLessonCompleted(p, lessonId)
    ensures lessonId == k + 1
  {
    UnlockedAfterPrefix(p, k, lessonId);
    RangeElements(k);
    assert lessonId !in Elements(Range(k));
  }

  /**
   * `handleCompleteLesson`: a completed lesson is ignored; otherwise it is
   * completed and the next target chosen.
   */
  method HandleCompleteLesson(learning: LearningSystem, lessonId: int, writeOk: bool) returns (target: Option<Target>)
    modifies learning`progress, learning`store
    ensures lessonId in old(learning.progress.completedLessons) ==>
              && target == None
              && learning.progress == old(learning.progress)
              && learning.store == old(learning.store)
    ensures lessonId !in old(learning.progress.completedLessons) ==>
              && target == Some(NextTarget(lessonId, learning.lessonCount))
              && learning.progress == Apply(old(learning.progress), Complete(lessonId))
              && learning.store == Saved(learning.isLoaded, writeOk, learning.progress, old(learning.store))
  {
    target := None;
    if !IsLessonCompleted(learning.progress, lessonId) {
      learning.CompleteLesson(lessonId, writeOk);
      target := Some(NextTarget(lessonId, learning.lessonCount));
    }
  }
}
