/**
 * The quiz page: a write-once answer per question, an index that walks the
 * question list, the score computed from the answers, the 60% pass mark and
 * the choice between the locked, results and question views.
 */
module QuizPage {
  import opened Wrappers
  import Rounding
  import Progress

  /** `QuizQuestion`: the prompt, its options and the index of the right one. */
  datatype QuizQuestion = QuizQuestion(question: string, options: seq<string>, correctAnswer: int, explanation: string)

  /** The mark a score must reach to pass. */
  const PassMark: int := 60

  /** Question `i` has an answer and it is the right one. */
  predicate AnsweredCorrectly(questions: seq<QuizQuestion>, answers: map<int, int>, i: int)
    requires 0 <= i < |questions|
  {
    i in answers && answers[i] == questions[i].correctAnswer
  }

  /** How many of the first `n` questions are answered correctly. */
  function CorrectUpTo(questions: seq<QuizQuestion>, answers: map<int, int>, n: nat): (c: nat)
    requires n <= |questions|
    ensures c <= n
    ensures c == 0 <== forall i | 0 <= i < n :: !AnsweredCorrectly(questions, answers, i)
    ensures c == n <== forall i | 0 <= i < n :: AnsweredCorrectly(questions, answers, i)
  {
    if n == 0 then 0
    else CorrectUpTo(questions, answers, n - 1) + (if AnsweredCorrectly(questions, answers, n - 1) then 1 else 0)
  }

  /** The number of correctly answered questions. */
  function CorrectCount(questions: seq<QuizQuestion>, answers: map<int, int>): nat {
    CorrectUpTo(questions, answers, |questions|)
  }

  /** The indices of the correctly answered questions among the first `n`. */
  function CorrectSet(questions: seq<QuizQuestion>, answers: map<int, int>, n: nat): set<int>
    requires n <= |questions|
  {
    set i | 0 <= i < n && AnsweredCorrectly(questions, answers, i)
  }

  /** `calculateScore`: the correct answers as a rounded percentage of the questions. */
  function Score(questions: seq<QuizQuestion>, answers: map<int, int>): int
    requires |questions| > 0
  {
    Rounding.RoundedPercent(CorrectCount(questions, answers), |questions|)
  }

  /** `finalScore`: a stored score wins over recomputing from the answers. */
  function FinalScore(stored: Option<int>, questions: seq<QuizQuestion>, answers: map<int, int>): int
    requires |questions| > 0
  {
    if stored.Some? then stored.value else Score(questions, answers)
  }

  predicate Passed(finalScore: int) {
    finalScore >= PassMark
  }

  // ---------------------------------------------------------------------
  // Properties of the score
  // ---------------------------------------------------------------------

  /** The loop's count is the size of the set of correctly answered indices. */
  lemma {:induction false} CorrectUpToIsSetSize(questions: seq<QuizQuestion>, answers: map<int, int>, n: nat)
    requires n <= |questions|
    ensures CorrectUpTo(questions, answers, n) == |CorrectSet(questions, answers, n)|
  {
    if n > 0 {
      CorrectUpToIsSetSize(questions, answers, n - 1);
      var prev := CorrectSet(questions, answers, n - 1);
      if AnsweredCorrectly(questions, answers, n - 1) {
        assert CorrectSet(questions, answers, n) == prev + {n - 1};
        assert n - 1 !in prev;
      } else {
        assert CorrectSet(questions, answers, n) == prev;
      }
    }
  }

  /** The score counts exactly the questions whose recorded answer is right; unanswered ones count as wrong. */
  lemma CountIsCorrectlyAnswered(questions: seq<QuizQuestion>, answers: map<int, int>)
    ensures CorrectCount(questions, answers)
            == |set i | 0 <= i < |questions| && i in answers && answers[i] == questions[i].correctAnswer|
  {
    CorrectUpToIsSetSize(questions, answers, |questions|);
    assert CorrectSet(questions, answers, |questions|)
           == set i | 0 <= i < |questions| && i in answers && answers[i] == questions[i].correctAnswer;
  }

  /** Recording an answer for an unanswered question adds one to the count exactly when it is right. */
  lemma {:induction false} AnswerAddsAtMostOne(questions: seq<QuizQuestion>, answers: map<int, int>, n: nat, i: int, choice: int)
    requires n <= |questions| && 0 <= i < |questions| && i !in answers
    ensures CorrectUpTo(questions, answers[i := choice], n)
            == CorrectUpTo(questions, answers, n) + (if i < n && choice == questions[i].correctAnswer then 1 else 0)
  {
    if n > 0 {
      AnswerAddsAtMostOne(questions, answers, n - 1, i, choice);
    }
  }

  lemma ScoreBounds(questions: seq<QuizQuestion>, answers: map<int, int>)
    requires |questions| > 0
    ensures 0 <= Score(questions, answers) <= 100
  {
    Rounding.PercentInRange(CorrectCount(questions, answers), |questions|);
  }

  lemma AllCorrectScoresHundred(questions: seq<QuizQuestion>, answers: map<int, int>)
    requires |questions| > 0
    requires forall i | 0 <= i < |questions| :: AnsweredCorrectly(questions, answers, i)
    ensures Score(questions, answers) == 100
  {
    Rounding.PercentOfWhole(|questions|);
  }

  lemma NoneCorrectScoresZero(questions: seq<QuizQuestion>, answers: map<int, int>)
    requires |questions| > 0
    requires forall i | 0 <= i < |questions| :: !AnsweredCorrectly(questions, answers, i)
    ensures Score(questions, answers) == 0
  {
    Rounding.PercentOfNothing(|questions|);
  }

  /** Without a stored score, passing means at least 59.5% of the answers are right. */
  lemma PassedIffEnoughCorrect(questions: seq<QuizQuestion>, answers: map<int, int>)
    requires |questions| > 0
    ensures Passed(FinalScore(None, questions, answers))
            <==> 200 * CorrectCount(questions, answers) >= 119 * |questions|
  {
    Rounding.PercentAtLeast(CorrectCount(questions, answers), |questions|, PassMark);
  }

  /** A stored score decides the result whatever the answers are. */
  lemma StoredScoreDecides(s: int, questions: seq<QuizQuestion>, answers: map<int, int>, answers': map<int, int>)
    requires |questions| > 0
    ensures FinalScore(Some(s), questions, answers) == FinalScore(Some(s), questions, answers') == s
  {
  }

  /** Three right answers out of five score 60 and pass. */
  lemma ThreeOfFivePasses(questions: seq<QuizQuestion>, answers: map<int, int>)
    requires |questions| == 5
    requires CorrectCount(questions, answers) == 3
    ensures Score(questions, answers) == 60 && Passed(FinalScore(None, questions, answers))
  {
    PassedIffEnoughCorrect(questions, answers);
  }

  // ---------------------------------------------------------------------
  // What the page shows
  // ---------------------------------------------------------------------

  datatype View =
    | Locked
    | Results(finalScore: int, passed: bool)
    | Question(index: int, selected: Option<int>, nextEnabled: bool, isLast: bool)

  /** The view precedence: locked, then results, then the current question. */
  function CurrentView(isUnlocked: bool, stored: Option<int>, questions: seq<QuizQuestion>,
                       index: int, answers: map<int, int>, showResults: bool): (v: View)
    requires |questions| > 0
    ensures v.Locked? <==> !isUnlocked
    ensures v.Results? <==> isUnlocked && (showResults || stored.Some?)
    ensures v.Results? ==> v.finalScore == FinalScore(stored, questions, answers)
                           && (v.passed <==> v.finalScore >= PassMark)
    ensures v.Question? ==> v.index == index
                            && (v.selected.Some? <==> index in answers)
                            && (v.nextEnabled <==> index in answers)
                            && (v.isLast <==> index >= |questions| - 1)
  {
    if !isUnlocked then Locked
    else if showResults || stored.Some? then
      var f := FinalScore(stored, questions, answers);
      Results(f, Passed(f))
    else
      Question(index, if index in answers then Some(answers[index]) else None,
               index in answers, index >= |questions| - 1)
  }

  // ---------------------------------------------------------------------
  // The page's state and handlers
  // ---------------------------------------------------------------------

  /** The quiz page's `currentQuestionIndex`, `selectedAnswers` and `showResults` state. */
  class QuizSession {
    const questions: seq<QuizQuestion>
    var currentQuestionIndex: int
    var selectedAnswers: map<int, int>
    var showResults: bool

    /** The index stays on a question, and answers exist only up to it. */
    ghost predicate Valid()
      reads this
    {
      && |questions| > 0
      && 0 <= currentQuestionIndex < |questions|
      && forall k | k in selectedAnswers :: 0 <= k <= currentQuestionIndex
    }

    constructor (qs: seq<QuizQuestion>)
      requires |qs| > 0
      ensures questions == qs
      ensures currentQuestionIndex == 0 && selectedAnswers == map[] && !showResults
      ensures Valid()
    {
      questions := qs;
      currentQuestionIndex := 0;
      selectedAnswers := map[];
      showResults := false;
    }

    /** `handleAnswerSelect`: the first answer to a question is final. */
    method HandleAnswerSelect(optionIndex: int)
      requires Valid()
      modifies this`selectedAnswers
      ensures Valid()
      ensures selectedAnswers == if currentQuestionIndex in old(selectedAnswers) then old(selectedAnswers)
                                 else old(selectedAnswers)[currentQuestionIndex := optionIndex]
    {
      if currentQuestionIndex in selectedAnswers {
        return;
      }
      selectedAnswers := selectedAnswers[currentQuestionIndex := optionIndex];
    }

    /** `calculateScore`: the `forEach` loop that counts the right answers. */
    method CalculateScore() returns (score: int)
      requires |questions| > 0
      ensures score == Score(questions, selectedAnswers)
    {
      var correctCount := 0;
      var index := 0;
      while index < |questions|
        invariant 0 <= index <= |questions|
        invariant correctCount == CorrectUpTo(questions, selectedAnswers, index)
      {
        if index in selectedAnswers && selectedAnswers[index] == questions[index].correctAnswer {
          correctCount := correctCount + 1;
        }
        index := index + 1;
      }
      score := Rounding.RoundedPercent(correctCount, |questions|);
    }

    /**
     * `handleNextQuestion`, reachable only once the current question has an
     * answer: move on, or on the last question save the score and show the
     * results.
     */
    method HandleNextQuestion(learning: Progress.LearningSystem, writeOk: bool)
      requires Valid() && currentQuestionIndex in selectedAnswers
      modifies this`currentQuestionIndex, this`showResults, learning`progress, learning`store
      ensures Valid()
      ensures old(currentQuestionIndex) < |questions| - 1 ==>
                && currentQuestionIndex == old(currentQuestionIndex) + 1
                && showResults == old(showResults)
                && learning.progress == old(learning.progress)
                && learning.store == old(learning.store)
      ensures old(currentQuestionIndex) == |questions| - 1 ==>
                && currentQuestionIndex == old(currentQuestionIndex)
                && showResults
                && learning.progress == Progress.Apply(old(learning.progress), Progress.SaveScore(Score(questions, selectedAnswers)))
                && learning.store == Progress.Saved(learning.isLoaded, writeOk, learning.progress, old(learning.store))
    {
      if currentQuestionIndex < |questions| - 1 {
        currentQuestionIndex := currentQuestionIndex + 1;
      } else {
        var finalScore := CalculateScore();
        learning.SaveQuizScore(finalScore, writeOk);
        showResults := true;
      }
    }

    /** `handleFinishAndReset`: wipe the learner's progress before going home. */
    method HandleFinishAndReset(learning: Progress.LearningSystem, removeOk: bool, writeOk: bool)
      modifies learning`progress, learning`store
      ensures learning.progress == Progress.Initial
      ensures learning.store == Progress.Saved(learning.isLoaded, writeOk, Progress.Initial,
                                               if removeOk then Progress.Empty else old(learning.store))
    {
      learning.ResetProgress(removeOk, writeOk);
    }
  }
}
