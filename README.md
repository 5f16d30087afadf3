# COPD online learning: a verified model of the learning logic

The application teaches people with COPD through a short course. It has a
sequence of lessons that unlock one after another, a final quiz, three timed
breathing exercises and two inhaler-technique walkthroughs. This project
models the parts of it that decide things:

- **The progress engine** (`useLearningSystem`). It keeps the record of the
  completed lessons and the quiz score. It decides which lessons and whether
  the quiz are unlocked, and computes the overall progress percentage. It
  loads the record from browser storage and saves it back.
- **The breathing guides**: diaphragmatic breathing, pursed-lip breathing
  and progressive muscle relaxation. Each is a countdown through a fixed
  phase table, ticked once a second, with its own counter rule and stop rule.
- **The inhaler guide** (`MedicationGuideBase`). It steps linearly through
  the MDI table (metered-dose inhaler, 6 steps) and the DPI table (dry-powder
  inhaler, 7 steps), and highlights the breath-hold step.
- **The quiz page**. It records one final answer per question, walks the
  questions, scores the answers and applies the 60% pass mark. It shows the
  locked, results or question view in that order of precedence.
- **The application shell**. It covers the navigation lock, what the lesson
  route shows for its `id` parameter, where completing a lesson leads, and
  how a YouTube link becomes watch and thumbnail URLs.

## Layout

| file | module | models |
|---|---|---|
| `wrappers.dfy` | `Wrappers` | `Option`, for `T \| null` and `T \| undefined` |
| `rounding.dfy` | `Rounding` | `Math.round(k / m * 100)` as an integer percentage |
| `seq_util.dfy` | `SeqUtil` | sortedness, duplicate-freeness and the ascending sort of `completeLesson` |
| `progress.dfy` | `Progress` | `hooks/useLearningSystem.ts` |
| `breathing_guides.dfy` | `BreathingGuides` | `components/BreathingGuides.tsx` |
| `medication_guides.dfy` | `MedicationGuides` | `components/MedicationGuides.tsx` |
| `quiz_page.dfy` | `QuizPage` | `components/QuizPage.tsx` |
| `parse_int.dfy` | `ParseInt` | JavaScript's `parseInt`, as `App.tsx` uses it |
| `app_routing.dfy` | `AppRouting` | the lock, route and next-target rules of `App.tsx` |
| `video_info.dfy` | `VideoInfo` | `getYoutubeVideoInfo` in `App.tsx` |

## How the model is built

- **Classes for state.** Each piece of React state that a handler replaces
  becomes a field of a class:
  - `Progress.LearningSystem` holds `progress`, `isLoaded` and the storage
    entry;
  - `BreathingGuides.BreathingGuide` holds `phase`, the round or group
    counter, and `timer`;
  - `MedicationGuides.MedicationGuide` holds `active`, `stepIndex` and
    `timeLeft`;
  - `QuizPage.QuizSession` holds `currentQuestionIndex`, `selectedAnswers`
    and `showResults`.
- **Methods tied to pure step functions.** Every handler is a method whose
  postcondition ties the new state to a pure function of the old one. For
  example, `Tick` ends in `Step(old state)`, and `CompleteLesson` ends in
  `Apply(old progress, Complete(id))`. The properties are proved as lemmas
  about those functions.
- **Ticks.** One interval tick is one atomic step. No interval is installed
  while a guide is idle or inactive, so a tick then changes nothing.
- **Storage.** The storage is abstract. It is `Empty`, `Record(data)` or
  `Corrupt`, where `Corrupt` means the text does not parse or the read
  throws. Whether a write or a removal succeeds is a boolean parameter. The
  save effect runs after every change of `progress` or `isLoaded`, and it
  writes only once `isLoaded` holds. As a consequence, finishing the load
  writes the record back at once. Likewise, `resetProgress` removes the key,
  and the save effect then writes the initial record back (`ResetProgress`,
  `ResetSurvivesRestart`).
- **The lesson list.** The constants file holding `LESSONS` and
  `QUIZ_QUESTIONS` is not part of this model. The lesson count is therefore a
  parameter `lessonCount >= 1` of `LearningSystem`. Where ids matter, the
  lesson ids are a parameter `lessonIds` of the routing functions. The
  question list is a parameter of `QuizSession`, and it must be non-empty.
  `types.ts` lists five lesson sections, but the comment at
  `useLearningSystem.ts:86` says four lessons. The model fixes neither
  number.
- **Rounding.** `Math.round(100 * k / m)` is the integer `(200k + m) div 2m`,
  for `k >= 0` and `m > 0`. `Rounding.RoundedPercent` states exactly that
  `m(2r - 1) <= 200k < m(2r + 1)`.

Some behaviours of the code are kept as written, even where they are
surprising:

- **Quiz unlock counts.** The quiz unlocks on a count: as many completed ids
  as lessons. `QuizUnlockedIffAllCompleted` shows that this is the same as
  having completed every lesson 1..N, provided the ids are distinct and lie
  in 1..N.
- **Diaphragmatic rounds.** The first prepare-to-inhale transition already
  moves `round` from 1 to 2. The stop test `round >= 8` at the end of exhale
  therefore ends the exercise after 7 inhale phases and 84 ticks, although
  the label reads "/ 8" (`DiaphragmaticRunLength`). Pursed-lip breathing runs
  10 breaths in 60 ticks, and relaxation tenses 9 muscle groups in 135 ticks.
- **Start is not guarded.** `startExercise` and `start` do not check whether
  the guide is already running. Only the button, which shows "stop" while
  running, keeps them from being called then. The model has no guard either.
- **Next question is not guarded.** `handleNextQuestion` does not check that
  the current question has an answer; the disabled button does. The method
  takes it as a precondition.
- **The video regex.** The regex of `getYoutubeVideoInfo` is modelled with
  JavaScript's matching order:
  - the leftmost start position wins;
  - the alternatives are tried in order;
  - `[^\/]+` can only end at the first slash;
  - the greedy `.+` or `.*` takes the last slash, or the last `?v=` / `&v=`,
    that eleven id characters follow, without crossing a line terminator.

## Model

| member | source | states |
|---|---|---|
| Rounding.RoundedPercent | hooks/useLearningSystem.ts:89 | the result is `100k/m` rounded half-up: `m(2r-1) <= 200k < m(2r+1)` |
| SeqUtil.SortAsc | hooks/useLearningSystem.ts:43 | the result is sorted ascending and a permutation of the input |
| Progress.Apply | hooks/useLearningSystem.ts:38-64 | completing a listed id returns the record unchanged; completing a new id gives a sorted list with one more occurrence of the id and the same score; saving a score replaces only the score; clearing it sets only the score to null; the reset gives the empty record |
| Progress.IsLessonUnlocked | hooks/useLearningSystem.ts:70-73 | computes: lesson 1 is always open, and lesson n is open once lesson n-1 is in the completed list; UnlockedAfterPrefix states what this gives under linear progress |
| Progress.IsQuizUnlocked | hooks/useLearningSystem.ts:75-81 | computes: the completed list has as many entries as there are lessons; QuizUnlockedIffAllCompleted relates it to every lesson being done |
| Progress.OverallProgress | hooks/useLearningSystem.ts:83-90 | computes: completed lessons plus one for a stored quiz score, as a rounded percentage of the lesson count plus one; OverallProgressBounds bounds it |
| Progress.CompleteNewLesson | hooks/useLearningSystem.ts:43-44 | a new id grows the list by exactly one, its members become the old ones plus the id, duplicate-freeness is kept and the score is unchanged |
| Progress.CompleteIdempotent | hooks/useLearningSystem.ts:40-42 | completing the same lesson twice equals completing it once |
| Progress.UpdatesKeepListWellFormed | hooks/useLearningSystem.ts:38-64 | any sequence of the four updates keeps a sorted, duplicate-free lesson list |
| Progress.QuizUnlockedIffAllCompleted | hooks/useLearningSystem.ts:75-81 | for distinct ids in 1..N, the count-based quiz unlock holds exactly when every lesson 1..N is completed |
| Progress.UnlockedAfterPrefix | hooks/useLearningSystem.ts:70-73 | when lessons 1..k are completed, the unlocked lessons are exactly 1..k+1 (lesson 1 always, lesson n when n-1 is completed) |
| Progress.CompleteUnlockedKeepsPrefix | hooks/useLearningSystem.ts:38-73 | completing an unlocked lesson after lessons 1..k leaves 1..k, or 1..k+1 when it was lesson k+1 |
| Progress.CompleteFrontier | hooks/useLearningSystem.ts:43-44 | completing lesson k+1 after 1..k gives exactly 1..k+1 in order |
| Progress.OverallProgressBounds | hooks/useLearningSystem.ts:83-90 | the percentage lies in [0,100]; it is 100 when all lessons and the quiz are done; 100 means all are done when there are fewer than 199 lessons |
| Progress.InitialProgressIsZero | hooks/useLearningSystem.ts:83-90 | the initial record is at 0% |
| Progress.ResetSurvivesRestart | hooks/useLearningSystem.ts:56-64 | after a reset whose removal or rewrite succeeds, the next load restores the empty record |
| Progress.SaveThenRestore | hooks/useLearningSystem.ts:15-36 | a record saved after loading is the one the next load adopts; this holds by the abstraction of storage as `StoreEntry` (see Left out), not as a theorem about JSON |
| Progress.LearningSystem.constructor | hooks/useLearningSystem.ts:9-13 | an empty list, a null score, and `isLoaded` false |
| Progress.LearningSystem.SaveEffect | hooks/useLearningSystem.ts:28-36 | storage is written with the record only when loading has finished and the write succeeds |
| Progress.LearningSystem.Load | hooks/useLearningSystem.ts:15-26 | loading always ends with `isLoaded`; a parsed record is adopted and an absent or corrupt one leaves the state; the save effect then runs |
| Progress.LearningSystem.CompleteLesson | hooks/useLearningSystem.ts:38-46 | the record becomes `Apply(old, Complete(id))`; nothing is written for a duplicate or before loading |
| Progress.LearningSystem.SaveQuizScore | hooks/useLearningSystem.ts:48-50 | the score is set and the save effect runs; nothing is written before loading |
| Progress.LearningSystem.ResetQuiz | hooks/useLearningSystem.ts:52-54 | the score is cleared and the save effect runs; nothing is written before loading |
| Progress.LearningSystem.ResetProgress | hooks/useLearningSystem.ts:56-64 | the record is the initial one even if removal fails; storage is emptied on a successful removal and then rewritten by the save effect |
| BreathingGuides.Run | components/BreathingGuides.tsx:36-60 | any number of ticks leaves a state of the guide's own phase table or idle |
| BreathingGuides.Step | components/BreathingGuides.tsx:36-213 | one interval tick of any of the three guides: idle stays idle, a running timer counts down, and at the end of a phase the guide stops or enters the next phase with its duration, bumping the counter when a cycle restarts; the result stays in the guide's phase table or idle |
| BreathingGuides.StartKeepsInvariant | components/BreathingGuides.tsx:23-34 | the start and idle states satisfy the guide's bounds |
| BreathingGuides.StepKeepsInvariant | components/BreathingGuides.tsx:36-230 | a tick keeps `1 <= timer <= duration(phase)`, diaphragmatic round in [1,8], pursed-lip round in [1,10], relaxation group index in [0,8], so `muscleGroups[groupIndex]` is in bounds |
| BreathingGuides.Countdown | components/BreathingGuides.tsx:39-42 | a phase with t seconds left stays active exactly t ticks, then takes its end-of-phase transition |
| BreathingGuides.PursedLipCycle | components/BreathingGuides.tsx:90-124 | one breath is 6 ticks with one inhale, ending idle when round >= 10 and otherwise at the next round's inhale |
| BreathingGuides.PursedLipFrom | components/BreathingGuides.tsx:90-124 | from round r the guide runs 6(11-r) ticks with 11-r inhales and stops |
| BreathingGuides.PursedLipRunLength | components/BreathingGuides.tsx:90-124 | from start, pursed-lip breathing stays active exactly 60 ticks, through 10 inhale phases, then is idle |
| BreathingGuides.RelaxationCycle | components/BreathingGuides.tsx:176-213 | one muscle group is 15 ticks with one tense phase, ending idle after the last group |
| BreathingGuides.RelaxationFrom | components/BreathingGuides.tsx:176-213 | from group i the guide runs 15(9-i) ticks with 9-i tense phases and stops; for each group j >= i, tick 15(j-i) begins tensing group j |
| BreathingGuides.RelaxationRunLength | components/BreathingGuides.tsx:167-213 | from start, relaxation stays active exactly 135 ticks and then is idle; it begins exactly 9 tense phases, and for each j in 0..8 the one at tick 15j tenses group j, so each group is tensed once, in order |
| BreathingGuides.DiaphragmaticCycle | components/BreathingGuides.tsx:16-52 | one breath is 12 ticks with one inhale; the round is bumped on entering inhale, so the stop test sees the bumped value |
| BreathingGuides.DiaphragmaticFrom | components/BreathingGuides.tsx:16-52 | from a prepare phase with round r the guide runs 12(8-r) ticks with 8-r inhales and stops |
| BreathingGuides.DiaphragmaticRunLength | components/BreathingGuides.tsx:16-73 | from start, diaphragmatic breathing stays active exactly 84 ticks with 7 inhale phases, not the 8 rounds the label shows |
| BreathingGuides.BreathingGuide.constructor | components/BreathingGuides.tsx:11-13 | a new guide is idle with counter 0 and timer 0 |
| BreathingGuides.BreathingGuide.Start | components/BreathingGuides.tsx:30-34 | start sets prepare/3/round 1, inhale/2/round 1 or tense/5/group 0 for the three guides |
| BreathingGuides.BreathingGuide.Stop | components/BreathingGuides.tsx:23-28 | from any state the guide is idle with counter 0 and timer 0, so stopping twice is stopping once |
| BreathingGuides.BreathingGuide.Tick | components/BreathingGuides.tsx:36-60 | the new state is `Step(guide, old state)` and the bounds are kept |
| BreathingGuides.BreathingGuide.CurrentMuscleGroup | components/BreathingGuides.tsx:230 | while relaxation runs, `muscleGroups[groupIndex]` is one of the nine groups |
| MedicationGuides.Step | components/MedicationGuides.tsx:43-54 | a tick keeps an active stepper on a step of the table |
| MedicationGuides.StepKeepsInvariant | components/MedicationGuides.tsx:27-54 | ticks, start and stop keep `stepIndex` in [0, len-1] and `1 <= timeLeft <= duration` while active, and (false, 0, 0) while inactive |
| MedicationGuides.Countdown | components/MedicationGuides.tsx:43-53 | a step with t seconds left shows its index for exactly t ticks, then advances or stops |
| MedicationGuides.RunFrom | components/MedicationGuides.tsx:43-54 | from a full step i the guide stays active for the sum of the remaining durations, shows each remaining step once in order for its duration, then stops |
| MedicationGuides.FullRun | components/MedicationGuides.tsx:27-54 | from start every step is shown once, in order, for its full duration; the run lasts the sum of the durations and ends stopped |
| MedicationGuides.DeviceTables | components/MedicationGuides.tsx:102-123 | both tables are non-empty with positive durations; a started MDI guide stays active exactly 31 ticks and a DPI guide 34, showing every step once in order, then stops |
| MedicationGuides.MdiHoldBreathStep | components/MedicationGuides.tsx:102-109 | in the MDI table exactly the fifth step (index 4) contains "กลั้นหายใจ", and it lasts 10 seconds |
| MedicationGuides.DpiHoldBreathStep | components/MedicationGuides.tsx:115-123 | in the DPI table exactly the fifth step (index 4) contains "กลั้นหายใจ", and it lasts 10 seconds |
| MedicationGuides.MissingCharacter | components/MedicationGuides.tsx:63 | a text lacking a character of the pattern does not include it |
| MedicationGuides.IsHoldBreath | components/MedicationGuides.tsx:63 | computes: the step text includes "กลั้นหายใจ"; MdiHoldBreathStep and DpiHoldBreathStep say which steps qualify |
| MedicationGuides.MedicationGuide.constructor | components/MedicationGuides.tsx:22-24 | a new guide is inactive at step 0 with no time left |
| MedicationGuides.MedicationGuide.Start | components/MedicationGuides.tsx:27-31 | start needs a non-empty table and sets active, step 0 and the first duration |
| MedicationGuides.MedicationGuide.Stop | components/MedicationGuides.tsx:33-38 | from any state the guide is (false, 0, 0), so stopping twice is stopping once |
| MedicationGuides.MedicationGuide.Tick | components/MedicationGuides.tsx:40-60 | the new state is `Step(steps, old state)`: decrement, advance to the next step with its duration, or stop on the last step; the bounds are kept |
| MedicationGuides.MedicationGuide.CurrentStep | components/MedicationGuides.tsx:62 | the current step is always one of the table's steps |
| QuizPage.CorrectUpTo | components/QuizPage.tsx:39-47 | the count is at most the number of questions looked at; 0 when none is right and all of them when all are right |
| QuizPage.Score | components/QuizPage.tsx:39-47 | computes: the number of correct answers as a rounded percentage of the questions; ScoreBounds, PassedIffEnoughCorrect and CalculateScore state its properties |
| QuizPage.FinalScore | components/QuizPage.tsx:54-57 | computes: the stored quiz score when there is one, otherwise the score of the current answers; StoredScoreDecides states the precedence |
| QuizPage.Passed | components/QuizPage.tsx:75 | computes: the final score is at least 60 |
| QuizPage.CorrectUpToIsSetSize | components/QuizPage.tsx:39-47 | the loop's count equals the number of indices answered correctly |
| QuizPage.CountIsCorrectlyAnswered | components/QuizPage.tsx:41-45 | the score counts exactly the questions whose recorded answer equals `correctAnswer`; unanswered ones count as wrong |
| QuizPage.AnswerAddsAtMostOne | components/QuizPage.tsx:24-27 | recording a first answer raises the count by one exactly when the answer is right |
| QuizPage.ScoreBounds | components/QuizPage.tsx:46 | the score lies in [0,100] |
| QuizPage.AllCorrectScoresHundred | components/QuizPage.tsx:39-47 | all answers right give 100 |
| QuizPage.NoneCorrectScoresZero | components/QuizPage.tsx:39-47 | no answer right gives 0 |
| QuizPage.PassedIffEnoughCorrect | components/QuizPage.tsx:75 | without a stored score, passing (final score >= 60) holds exactly when `200 * correct >= 119 * questions` |
| QuizPage.StoredScoreDecides | components/QuizPage.tsx:54-57 | a stored score is the final score whatever the answers are |
| QuizPage.ThreeOfFivePasses | components/QuizPage.tsx:46-75 | three right answers out of five score 60 and pass |
| QuizPage.CurrentView | components/QuizPage.tsx:59-74 | locked exactly when not unlocked; results exactly when unlocked and the results flag or a stored score is set, with the final score and pass flag; otherwise the current question, whose advance control is enabled exactly when it has an answer |
| QuizPage.QuizSession.constructor | components/QuizPage.tsx:17-19 | the quiz starts at question 0 with no answers and no results |
| QuizPage.QuizSession.HandleAnswerSelect | components/QuizPage.tsx:24-27 | an answered question is left alone; otherwise exactly the current index gets the chosen option, other entries unchanged |
| QuizPage.QuizSession.CalculateScore | components/QuizPage.tsx:39-47 | the loop returns the rounded percentage of correctly answered questions |
| QuizPage.QuizSession.HandleNextQuestion | components/QuizPage.tsx:29-37 | before the last question it only advances the index; on the last it saves the computed score once and shows the results; the index stays in range |
| QuizPage.QuizSession.HandleFinishAndReset | components/QuizPage.tsx:49-52 | the learner's progress is reset |
| ParseInt.Parse | App.tsx:166 | computes `parseInt(text, 10)` exactly: skip leading white space, take one optional sign, read the longest run of decimal digits, NaN when there is none; DecimalRoundTrip, WhitespaceIgnored and NoDigitsIsNaN state its behaviour |
| ParseInt.DecimalRoundTrip | App.tsx:166 | `parseInt` of a number's decimal spelling, followed by any non-digit text, is that number |
| ParseInt.WhitespaceIgnored | App.tsx:166 | leading white space does not change `parseInt`'s result |
| ParseInt.NoDigitsIsNaN | App.tsx:166 | text without digits parses to NaN |
| AppRouting.IsNavLocked | App.tsx:61-62 | computes the nav entry's lock: the number parsed after `lesson` (0 for other sections) is positive and that lesson is not unlocked, or the entry is the quiz and the quiz is not unlocked; NavLockRule restates it per section |
| AppRouting.LessonPage | App.tsx:166-217 | the outcome of the lesson route: a shown lesson exists and is unlocked, with the complete button disabled exactly when it is completed; the lock screen points at a number one below an existing, still locked lesson |
| AppRouting.NextTarget | App.tsx:332-337 | the quiz exactly when the lesson is the last one or beyond; otherwise the route of lesson id+1, which exists |
| AppRouting.NavLockRule | App.tsx:61-62 | a lesson entry is locked exactly when its number is positive and the lesson is not unlocked, the quiz entry exactly when the quiz is not unlocked, the others never |
| AppRouting.LockedBeyondFrontier | App.tsx:61-62 | under linear progress through 1..k exactly the lesson entries beyond k+1 are locked |
| AppRouting.DefaultRouteIsFirstLesson | App.tsx:166-171 | no id or an empty id shows lesson 1, which is never locked |
| AppRouting.NumericRoute | App.tsx:166-217 | a lesson number redirects home when there is no such lesson, shows the lock screen pointing at the previous number when locked, and otherwise shows the lesson with the complete button disabled exactly when it is completed |
| AppRouting.NonNumericRouteRedirects | App.tsx:166-171 | an id without digits redirects home |
| AppRouting.LockScreenPointsBack | App.tsx:173-186 | the lock screen's back target is a lesson number other than 0, one before an existing lesson, and not completed |
| AppRouting.FrontierLesson | App.tsx:321-322 | under linear progress the only unlocked, uncompleted lesson is the next one |
| AppRouting.NextTargetIsOpen | App.tsx:321-337 | completing the frontier lesson opens the navigation target: the next lesson, or the quiz after the last lesson |
| AppRouting.HandleCompleteLesson | App.tsx:321-339 | a completed lesson is ignored with no target; otherwise the lesson is completed and the target is lesson id+1 when it exists, else the quiz |
| VideoInfo.FirstSlash | App.tsx:17 | the first `/` at or after a position, or none |
| VideoInfo.LastPath | App.tsx:17 | the last position after `[^\/]+\/` where `.+\/` lets an id follow |
| VideoInfo.LastQuery | App.tsx:17 | the last `?v=` or `&v=` that `.*` reaches and an id follows |
| VideoInfo.MatchAt | App.tsx:17 | when the pattern matches at a position, eleven id characters follow |
| VideoInfo.FirstMatch | App.tsx:18 | the leftmost matching position: it matches and no earlier one does; none when no position matches |
| VideoInfo.ExtractId | App.tsx:13-21 | a found id is 11 characters, none of `"`, `&`, `?`, `/` or space; no id for a missing or empty URL |
| VideoInfo.GetYoutubeVideoInfo | App.tsx:13-29 | computes: no links when no id is found, otherwise the watch and thumbnail URLs built around the found id; LinksShareId, WatchUrlYieldsId and InfoIdempotent state its properties |
| VideoInfo.LinksShareId | App.tsx:21-25 | the watch URL is the watch prefix plus a valid id, and the thumbnail URL embeds the same id |
| VideoInfo.ShortLinkYieldsId | App.tsx:17 | `youtu.be/` plus a valid id yields that id |
| VideoInfo.EmbedLinkYieldsId | App.tsx:17 | the `youtube.com/embed/` form yields its id |
| VideoInfo.WatchUrlYieldsId | App.tsx:17-23 | the produced watch URL yields its id again |
| VideoInfo.InfoIdempotent | App.tsx:13-29 | applying the function to its own watch URL returns the same links |

## Left out

- Browser storage and JSON are abstract. `localStorage` and
  `JSON.parse`/`JSON.stringify` become the `StoreEntry` value:
  - a successful save followed by a load returns the saved record by
    construction, not by a theorem about JSON;
  - a stored empty string counts as `Empty`, as `if (savedProgress)` treats
    it;
  - parseable JSON that is not a progress record is not distinguished from
    a record.
- Floating point is not modelled. Every `Math.round` score and percentage is
  the integer half-up rounding. Quotients that floating point would
  misround just below one half are not modelled. The progress-bar widths,
  which are raw floating-point percentages, are left out.
- Timing and concurrency are not modelled. Each tick is one atomic step:
  - `setInterval`/`clearInterval` and effect re-subscription are left out;
  - so are React's batching of state updates and the stale closures of the
    interval callbacks;
  - wall-clock time is not modelled.
- The SweetAlert pop-up and the `setTimeout` navigation delays of
  `handleCompleteLesson` are left out. The method returns only the chosen
  target.
- Navigation itself is left out: `goToHome`, `goToLessons`, `navigate` and
  the `Navigate` redirect. The routing functions return the outcome instead.
- The Supabase video fetch and live subscription, the database error banner,
  `components/AdminLoginPage.tsx`, `components/BackToTopButton.tsx`,
  `components/IconComponents.tsx` and all rendering (JSX markup, icons,
  animations, progress bars) are left out. They are network I/O or
  presentation.
- The constants file (`LESSONS`, `NAV_ITEMS`, `QUIZ_QUESTIONS`) is not part
  of this model. The lessons and the questions are parameters.
- ParseInt.Parse: models `parseInt` with radix 10 and exact integers:
  - it does not model the `0x` prefix that `parseInt` without a radix
    accepts, because the navigation entries' section names are `lesson`
    followed by decimal digits;
  - it does not model the loss of precision above 2^53;
  - it reads `-0` as 0.
- VideoInfo.MatchAt: covers the pattern of `getYoutubeVideoInfo` only. It is
  not a general regular-expression engine. It treats strings as sequences of
  code points rather than UTF-16 code units, which matters only for
  characters outside the Basic Multilingual Plane.
- Progress.OverallProgressBounds: proves "100% means everything is done"
  only for fewer than 199 lessons. With 199 or more lessons, one missing
  task still rounds to 100, so the converse is false there.
- The animation and icon fields of the inhaler steps, and the instruction
  strings of the breathing phases, are carried only where a property needs
  them. The breathing instructions are in the phase tables; the step texts
  are the breath-hold test's input.
