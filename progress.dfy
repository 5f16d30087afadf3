/**
 * The learner's progress record and the `useLearningSystem` hook that owns
 * it: the four updates, the derived unlock predicates, the overall progress
 * percentage, and the load/save lifecycle against the browser's storage.
 */
module Progress {
  import opened Wrappers
  import opened SeqUtil
  import Rounding

  /** `ProgressData`: the completed lesson ids and the stored quiz score, if any. */
  datatype ProgressData = ProgressData(completedLessons: seq<int>, quizScore: Option<int>)

  /** The record a first visit starts with. */
  const Initial: ProgressData := ProgressData([], None)

  /**
   * What storage holds under the progress key. `Corrupt` stands for saved
   * text that does not parse, or a storage read that throws.
   */
  datatype StoreEntry = Empty | Record(data: ProgressData) | Corrupt

  /** The four updaters the hook hands to `setProgress`. */
  datatype Update = Complete(lessonId: int) | SaveScore(score: int) | ClearScore | ClearAll

  /** The record after one update. */
  function Apply(prev: ProgressData, u: Update): (r: ProgressData)
    ensures u.Complete? && u.lessonId in prev.completedLessons ==> r == prev
    ensures u.Complete? && u.lessonId !in prev.completedLessons ==>
              && Sorted(r.completedLessons)
              && multiset(r.completedLessons) == multiset(prev.completedLessons) + multiset{u.lessonId}
              && r.quizScore == prev.quizScore
    ensures u.SaveScore? ==> r == ProgressData(prev.completedLessons, Some(u.score))
    ensures u.ClearScore? ==> r == ProgressData(prev.completedLessons, None)
    ensures u.ClearAll? ==> r == Initial
  {
    match u
    case Complete(id) =>
      if id in prev.completedLessons then prev
      else prev.(completedLessons := SortAsc(prev.completedLessons + [id]))
    case SaveScore(s) => prev.(quizScore := Some(s))
    case ClearScore => prev.(quizScore := None)
    case ClearAll => Initial
  }

  /** The record after a whole sequence of updates. */
  function ApplyAll(p: ProgressData, us: seq<Update>): ProgressData
    decreases |us|
  {
    if us == [] then p else ApplyAll(Apply(p, us[0]), us[1..])
  }

  predicate IsLessonCompleted(p: ProgressData, lessonId: int) {
    lessonId in p.completedLessons
  }

  predicate IsLessonUnlocked(p: ProgressData, lessonId: int) {
    lessonId == 1 || IsLessonCompleted(p, lessonId - 1)
  }

  /** Count-based, as the hook computes it: as many completed ids as lessons. */
  predicate AllLessonsCompleted(p: ProgressData, lessonCount: nat) {
    |p.completedLessons| == lessonCount
  }

  predicate IsQuizUnlocked(p: ProgressData, lessonCount: nat) {
    AllLessonsCompleted(p, lessonCount)
  }

  /** Completed lessons plus one for a finished quiz. */
  function TasksDone(p: ProgressData): nat {
    |p.completedLessons| + (if p.quizScore.Some? then 1 else 0)
  }

  /** `overallProgress`: the done tasks as a rounded percentage of lessons plus the quiz. */
  function OverallProgress(p: ProgressData, lessonCount: nat): int {
    Rounding.RoundedPercent(TasksDone(p), lessonCount + 1)
  }

  /** What storage holds after the save effect has run. */
  function Saved(isLoaded: bool, writeOk: bool, p: ProgressData, prior: StoreEntry): StoreEntry {
    if isLoaded && writeOk then Record(p) else prior
  }

  /** The record the load effect adopts: a parsed record replaces the current one. */
  function Restored(entry: StoreEntry, current: ProgressData): ProgressData {
    if entry.Record? then entry.data else current
  }

  // ---------------------------------------------------------------------
  // Properties of the updates and predicates
  // ---------------------------------------------------------------------

  /** Completing a new lesson adds exactly that id and keeps the list duplicate-free. */
  lemma CompleteNewLesson(p: ProgressData, lessonId: int)
    requires lessonId !in p.completedLessons
    ensures var r := Apply(p, Complete(lessonId));
      && |r.completedLessons| == |p.completedLessons| + 1
      && (forall x :: x in r.completedLessons <==> x in p.completedLessons || x == lessonId)
      && (Distinct(p.completedLessons) ==> Distinct(r.completedLessons))
      && r.quizScore == p.quizScore
  {
    var r := Apply(p, Complete(lessonId));
    var m := multiset(r.completedLessons);
    assert |m| == |multiset(p.completedLessons)| + 1;
    forall x ensures x in r.completedLessons <==> x in p.completedLessons || x == lessonId {
      assert x in r.completedLessons <==> x in m;
    }
    if Distinct(p.completedLessons) {
      DistinctIffSingleOccurrences(p.completedLessons);
      forall x ensures m[x] <= 1 {
        if x == lessonId {
          assert multiset(p.completedLessons)[x] == 0;
        }
      }
      DistinctIffSingleOccurrences(r.completedLessons);
    }
  }

  /** Completing the same lesson twice is the same as completing it once. */
  lemma CompleteIdempotent(p: ProgressData, lessonId: int)
    ensures Apply(Apply(p, Complete(lessonId)), Complete(lessonId)) == Apply(p, Complete(lessonId))
  {
    if lessonId !in p.completedLessons {
      CompleteNewLesson(p, lessonId);
    }
  }

  /** Whatever updates are applied, a duplicate-free sorted list stays so. */
  lemma {:induction false} UpdatesKeepListWellFormed(p: ProgressData, us: seq<Update>)
    requires Distinct(p.completedLessons) && Sorted(p.completedLessons)
    ensures Distinct(ApplyAll(p, us).completedLessons) && Sorted(ApplyAll(p, us).completedLessons)
    decreases |us|
  {
    if us != [] {
      var q := Apply(p, us[0]);
      if us[0].Complete? && us[0].lessonId !in p.completedLessons {
        CompleteNewLesson(p, us[0].lessonId);
      }
      assert Distinct(q.completedLessons) && Sorted(q.completedLessons);
      UpdatesKeepListWellFormed(q, us[1..]);
    }
  }

  /**
   * For a duplicate-free list of ids within 1..lessonCount, the count-based
   * quiz unlock holds exactly when every lesson is completed.
   */
  lemma QuizUnlockedIffAllCompleted(p: ProgressData, lessonCount: nat)
    requires Distinct(p.completedLessons)
    requires forall x :: x in p.completedLessons ==> 1 <= x <= lessonCount
    ensures IsQuizUnlocked(p, lessonCount) <==>
            forall k :: 1 <= k <= lessonCount ==> IsLessonCompleted(p, k)
  {
    var done := Elements(p.completedLessons);
    var all := Elements(Range(lessonCount));
    DistinctCardinality(p.completedLessons);
    RangeElements(lessonCount);
    assert done <= all;
    if forall k :: 1 <= k <= lessonCount ==> IsLessonCompleted(p, k) {
      forall k | k in all ensures k in done {
        assert IsLessonCompleted(p, k);
      }
      assert done == all;
    } else {
      var k :| 1 <= k <= lessonCount && !IsLessonCompleted(p, k);
      assert done <= all - {k};
      SubsetCardinality(done, all - {k});
    }
  }

  /**
   * When the completed lessons are exactly 1..k, the unlocked lessons are
   * exactly 1..k+1.
   */
  lemma UnlockedAfterPrefix(p: ProgressData, k: nat, lessonId: int)
    requires p.completedLessons == Range(k)
    requires lessonId >= 1
    ensures IsLessonUnlocked(p, lessonId) <==> lessonId <= k + 1
  {
    if 2 <= lessonId <= k + 1 {
      assert p.completedLessons[lessonId - 2] == lessonId - 1;
    }
  }

  /**
   * Strict linear gating: completing an unlocked lesson when lessons 1..k are
   * done leaves 1..k, or 1..k+1 when it was lesson k+1.
   */
  lemma CompleteUnlockedKeepsPrefix(p: ProgressData, k: nat, lessonId: int)
    requires p.completedLessons == Range(k)
    requires lessonId >= 1 && IsLessonUnlocked(p, lessonId)
    ensures Apply(p, Complete(lessonId)).completedLessons
            == Range(if lessonId == k + 1 then k + 1 else k)
  {
    UnlockedAfterPrefix(p, k, lessonId);
    if lessonId <= k {
      assert p.completedLessons[lessonId - 1] == lessonId;
    } else {
      CompleteFrontier(p, k);
    }
  }

  /** Completing lesson k+1 after lessons 1..k gives lessons 1..k+1. */
  lemma CompleteFrontier(p: ProgressData, k: nat)
    requires p.completedLessons == Range(k)
    ensures Apply(p, Complete(k + 1)).completedLessons == Range(k + 1)
  {
    RangeSnoc(k);
    var r := Apply(p, Complete(k + 1)).completedLessons;
    assert multiset(Range(k + 1)) == multiset(r);
    SortedUnique(r, Range(k + 1));
  }

  /**
   * The overall percentage lies in [0, 100] and is 100 once every lesson and
   * the quiz are done. Conversely 100 means everything is done as long as a
   * single missing task still rounds below 100, i.e. for fewer than 199
   * lessons.
   */
  lemma OverallProgressBounds(p: ProgressData, lessonCount: nat)
    requires |p.completedLessons| <= lessonCount
    ensures 0 <= OverallProgress(p, lessonCount) <= 100
    ensures |p.completedLessons| == lessonCount && p.quizScore.Some? ==>
            OverallProgress(p, lessonCount) == 100
    ensures lessonCount < 199 && OverallProgress(p, lessonCount) == 100 ==>
            |p.completedLessons| == lessonCount && p.quizScore.Some?
  {
    var m := lessonCount + 1;
    Rounding.PercentInRange(TasksDone(p), m);
    if TasksDone(p) == m {
      Rounding.PercentOfWhole(m);
    } else {
      Rounding.PercentAtLeast(TasksDone(p), m, 100);
      assert lessonCount < 199 ==> 200 * TasksDone(p) < m * 199;
    }
  }

  /** A fresh record shows 0 percent. */
  lemma InitialProgressIsZero(lessonCount: nat)
    ensures OverallProgress(Initial, lessonCount) == 0
  {
    Rounding.PercentOfNothing(lessonCount + 1);
  }

  /**
   * After `resetProgress`, a restart adopts the initial record, unless both
   * the key removal and the save effect failed.
   */
  lemma ResetSurvivesRestart(isLoaded: bool, removeOk: bool, writeOk: bool, prior: StoreEntry)
    requires removeOk || (isLoaded && writeOk)
    ensures Restored(Saved(isLoaded, writeOk, Initial, if removeOk then Empty else prior), Initial) == Initial
  {
  }

  /** A record saved by the effect is the one a restart adopts. */
  lemma SaveThenRestore(p: ProgressData, prior: StoreEntry, current: ProgressData)
    ensures Restored(Saved(true, true, p, prior), current) == p
  {
  }

  // ---------------------------------------------------------------------
  // The hook as an object
  // ---------------------------------------------------------------------

  /**
   * The `useLearningSystem` hook: its `progress` state, its `isLoaded` flag
   * and the storage entry it reads and writes. Each mutator applies its
   * updater and then runs the save effect, which writes only after the
   * initial load has finished.
   */
  class LearningSystem {
    /** `LESSONS.length`. */
    const lessonCount: nat
    var progress: ProgressData
    var isLoaded: bool
    var store: StoreEntry

    constructor (lessons: nat, saved: StoreEntry)
      requires lessons >= 1
      ensures lessonCount == lessons
      ensures progress == Initial && !isLoaded && store == saved
    {
      lessonCount := lessons;
      progress := Initial;
      isLoaded := false;
      store := saved;
    }

    /** The save effect: serialise the record if loading has finished. */
    method SaveEffect(writeOk: bool)
      modifies this`store
      ensures store == Saved(isLoaded, writeOk, progress, old(store))
    {
      if isLoaded && writeOk {
        store := Record(progress);
      }
    }

    /**
     * The load effect: adopt a parsed record, and mark loading finished
     * whatever the store held. The flag flip re-runs the save effect.
     */
    method Load(writeOk: bool)
      modifies this`progress, this`isLoaded, this`store
      ensures isLoaded
      ensures progress == Restored(old(store), old(progress))
      ensures store == Saved(true, writeOk, progress, old(store))
    {
      if store.Record? {
        progress := store.data;
      }
      isLoaded := true;
      SaveEffect(writeOk);
    }

    /** `completeLesson`: an id already present returns the same record, so nothing is saved. */
    method CompleteLesson(lessonId: int, writeOk: bool)
      modifies this`progress, this`store
      ensures progress == Apply(old(progress), Complete(lessonId))
      ensures store == if lessonId in old(progress).completedLessons then old(store)
                       else Saved(isLoaded, writeOk, progress, old(store))
      ensures !isLoaded ==> store == old(store)
    {
      if lessonId !in progress.completedLessons {
        progress := Apply(progress, Complete(lessonId));
        SaveEffect(writeOk);
      }
    }

    method SaveQuizScore(score: int, writeOk: bool)
      modifies this`progress, this`store
      ensures progress == Apply(old(progress), SaveScore(score))
      ensures store == Saved(isLoaded, writeOk, progress, old(store))
      ensures !isLoaded ==> store == old(store)
    {
      progress := Apply(progress, SaveScore(score));
      SaveEffect(writeOk);
    }

    method ResetQuiz(writeOk: bool)
      modifies this`progress, this`store
      ensures progress == Apply(old(progress), ClearScore)
      ensures store == Saved(isLoaded, writeOk, progress, old(store))
      ensures !isLoaded ==> store == old(store)
    {
      progress := Apply(progress, ClearScore);
      SaveEffect(writeOk);
    }

    /**
     * `resetProgress`: the in-memory reset happens whether or not removing the
     * key succeeds; the save effect then writes the initial record back.
     */
    method ResetProgress(removeOk: bool, writeOk: bool)
      modifies this`progress, this`store
      ensures progress == Initial
      ensures store == Saved(isLoaded, writeOk, Initial, if removeOk then Empty else old(store))
    {
      progress := Apply(progress, ClearAll);
      if removeOk {
        store := Empty;
      }
      SaveEffect(writeOk);
    }
  }
}
