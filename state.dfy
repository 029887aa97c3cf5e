/**
 * The session state of the word game as a plain value, and every state update
 * the game performs as a function on it.
 *
 * Each key of the session record is a field of `State`.  One run of the page
 * script first rolls the daily counters over when the date changed, then shows
 * the header (which may record that the daily goal was celebrated), then
 * handles at most one button the user pressed, or, when no button was pressed,
 * does what rendering the current mode does by itself (draw a quiz question,
 * leave a correctly answered quiz).  `Step` is one such run; `Run` is a
 * sequence of them.
 */
module SessionState {
  import opened Common
  import opened Catalog

  datatype Mode = Learn | Quiz | Review | GoalCompleted

  datatype QuizResult = Correct | Wrong

  datatype Achievement = StreakMaster | WordCollector

  datatype State = State(
    index: nat,                       // next catalog position to teach
    learnedWords: seq<string>,        // words learned in the current round
    mode: Mode,
    round: nat,                       // 1-based quiz round
    totalLearned: nat,
    score: nat,
    highScore: nat,
    streak: nat,
    achievements: seq<Achievement>,
    quizCorrectWord: Option<string>,
    quizOptions: seq<string>,
    quizResult: Option<QuizResult>,
    quizSubmitted: bool,
    selectedOption: Option<string>,
    dailyDate: string,
    dailyLearned: nat,
    showTranslation: bool,
    reviewList: seq<string>,
    dailyGoalCelebrated: bool,
    dailyGoalCompleted: bool)

  /** What the random calls of one quiz question returned: the correct word, the sampled distractors and the shuffled options. */
  datatype Draw = Draw(correct: string, distractors: seq<string>, options: seq<string>)

  /** What happened in one run of the page: no button (a plain render), or the one button pressed. */
  datatype Action =
    | Render(draw: Draw)
    | ToggleTranslation(on: bool)
    | Next
    | GoToReview
    | Choose(option: string)
    | ContinueToNext
    | BackToLearn
    | ContinueLearning
    | Restart

  datatype Event = Event(today: string, action: Action)

  /** The default value of every session key. */
  function Init(today: string): (r: State)
    ensures r.dailyDate == today && Rollover(r, today) == r
    ensures r.mode == Learn && r.round == 1 && QuizCleared(r) && !r.showTranslation
    ensures r.index == 0 && r.learnedWords == [] && r.reviewList == [] && r.totalLearned == 0 && r.dailyLearned == 0
    ensures r.score == 0 && r.highScore == 0 && r.streak == 0 && r.achievements == []
    ensures !r.dailyGoalCelebrated && !r.dailyGoalCompleted
  {
    State(0, [], Learn, 1, 0, 0, 0, 0, [], None, [], None, false, None, today, 0, false, [], false, false)
  }

  // ---------------------------------------------------------------- guards

  /** Learn mode with a word left to show. */
  predicate Learning(c: seq<WordItem>, s: State) { s.mode == Learn && s.index < |c| }

  /** Learn mode after the last word: only Restart is offered. */
  predicate LearnFinished(c: seq<WordItem>, s: State) { s.mode == Learn && s.index >= |c| }

  /** Quiz mode within the round limit. */
  predicate Quizzing(c: seq<WordItem>, s: State) { s.mode == Quiz && s.round <= TotalRounds(c) }

  /** Quiz mode past the last round: only Restart is offered. */
  predicate QuizFinished(c: seq<WordItem>, s: State) { s.mode == Quiz && s.round > TotalRounds(c) }

  predicate ShowsHeader(s: State) { s.mode == Learn || s.mode == Quiz }

  /** The option buttons are shown and `o` is one of them. */
  predicate CanChoose(c: seq<WordItem>, s: State, o: string)
  {
    Quizzing(c, s) && s.quizCorrectWord.Some? && !s.quizSubmitted && o in s.quizOptions
  }

  predicate AnsweredCorrectly(c: seq<WordItem>, s: State)
  {
    Quizzing(c, s) && s.quizCorrectWord.Some? && s.quizSubmitted && s.quizResult == Some(Correct)
  }

  predicate AnsweredWrongly(c: seq<WordItem>, s: State)
  {
    Quizzing(c, s) && s.quizCorrectWord.Some? && s.quizSubmitted && s.quizResult == Some(Wrong)
  }

  /** The three "review" buttons: in learn mode once something can be reviewed, after a wrong answer, and on the goal page. */
  predicate CanGoToReview(c: seq<WordItem>, s: State)
  {
    || (Learning(c, s) && s.reviewList != [])
    || AnsweredWrongly(c, s)
    || s.mode == GoalCompleted
  }

  predicate CanRestart(c: seq<WordItem>, s: State) { LearnFinished(c, s) || QuizFinished(c, s) }

  predicate QuizCleared(s: State)
  {
    s.quizCorrectWord == None && s.quizOptions == [] && s.quizResult == None
    && !s.quizSubmitted && s.selectedOption == None
  }

  /** Everything but the mode, the round, the quiz fields and the words of the current round. */
  predicate SameProgress(s: State, t: State)
  {
    && t.index == s.index && t.totalLearned == s.totalLearned
    && t.score == s.score && t.highScore == s.highScore && t.streak == s.streak
    && t.achievements == s.achievements && t.reviewList == s.reviewList
    && t.dailyDate == s.dailyDate && t.dailyLearned == s.dailyLearned
    && t.dailyGoalCelebrated == s.dailyGoalCelebrated && t.dailyGoalCompleted == s.dailyGoalCompleted
    && t.showTranslation == s.showTranslation
  }

  function ClearQuiz(s: State): State
  {
    s.(quizCorrectWord := None, quizOptions := [], quizResult := None, quizSubmitted := false, selectedOption := None)
  }

  // ------------------------------------------------------------ transitions

  /** On a new calendar day the daily counters start again. */
  function Rollover(s: State, today: string): (t: State)
    ensures t.dailyDate == today
    ensures s.dailyDate != today ==> t.dailyLearned == 0 && !t.dailyGoalCelebrated && !t.dailyGoalCompleted
    ensures s.dailyDate == today ==> t == s
    ensures t == s.(dailyDate := today, dailyLearned := t.dailyLearned,
                    dailyGoalCelebrated := t.dailyGoalCelebrated, dailyGoalCompleted := t.dailyGoalCompleted)
  {
    if s.dailyDate != today then
      s.(dailyDate := today, dailyLearned := 0, dailyGoalCelebrated := false, dailyGoalCompleted := false)
    else
      s
  }

  /** The header of learn and quiz mode celebrates a reached daily goal once. */
  function Celebrate(s: State): (t: State)
    ensures t.dailyGoalCelebrated <==> s.dailyGoalCelebrated || (ShowsHeader(s) && s.dailyLearned >= DAILY_GOAL)
    ensures t == s.(dailyGoalCelebrated := t.dailyGoalCelebrated)
  {
    if ShowsHeader(s) && s.dailyLearned >= DAILY_GOAL && !s.dailyGoalCelebrated then
      s.(dailyGoalCelebrated := true)
    else
      s
  }

  /** The daily goal is met by this Next and was not met before today. */
  predicate GoalJustReached(s: State, t: State)
  {
    t.dailyLearned >= DAILY_GOAL && !s.dailyGoalCompleted
  }

  /**
   * The bookkeeping of the Next button: the shown word is recorded as learned
   * (once) and the position moves on.
   */
  function LearnWord(c: seq<WordItem>, s: State): (t: State)
    requires Learning(c, s)
    ensures t.index == s.index + 1
    ensures c[s.index].word in t.learnedWords
    ensures c[s.index].word !in s.learnedWords ==>
              t.learnedWords == s.learnedWords + [c[s.index].word] && c[s.index].word in t.reviewList
              && t.totalLearned == s.totalLearned + 1 && t.dailyLearned == s.dailyLearned + 1
    ensures c[s.index].word in s.learnedWords ==>
              t.learnedWords == s.learnedWords && t.reviewList == s.reviewList
              && t.totalLearned == s.totalLearned && t.dailyLearned == s.dailyLearned
    ensures |s.reviewList| <= |t.reviewList| <= |s.reviewList| + 1 && t.reviewList[..|s.reviewList|] == s.reviewList
    ensures t == s.(index := t.index, learnedWords := t.learnedWords, totalLearned := t.totalLearned,
                    dailyLearned := t.dailyLearned, reviewList := t.reviewList)
  {
    var w := c[s.index].word;
    var s1 := if w !in s.learnedWords then
                s.(learnedWords := s.learnedWords + [w], totalLearned := s.totalLearned + 1,
                   dailyLearned := s.dailyLearned + 1, reviewList := AppendAbsent(s.reviewList, w))
              else
                s;
    s1.(index := s1.index + 1)
  }

  /**
   * The checks after the bookkeeping of Next.  Reaching the daily goal ends
   * the run at once, so it wins over the switch to the quiz.
   */
  function GoalOrQuiz(s: State): (t: State)
    ensures s.dailyLearned >= DAILY_GOAL && !s.dailyGoalCompleted ==>
              t == s.(dailyGoalCompleted := true, mode := GoalCompleted)
    ensures !(s.dailyLearned >= DAILY_GOAL && !s.dailyGoalCompleted) && |s.learnedWords| >= WORDS_PER_ROUND ==>
              t == ClearQuiz(s).(mode := Quiz)
    ensures !(s.dailyLearned >= DAILY_GOAL && !s.dailyGoalCompleted) && |s.learnedWords| < WORDS_PER_ROUND ==>
              t == s
  {
    if s.dailyLearned >= DAILY_GOAL && !s.dailyGoalCompleted then
      s.(dailyGoalCompleted := true, mode := GoalCompleted)
    else if |s.learnedWords| >= WORDS_PER_ROUND then
      ClearQuiz(s.(mode := Quiz))
    else
      s
  }

  /** The Next button of learn mode. */
  function NextWord(c: seq<WordItem>, s: State): (t: State)
    requires Learning(c, s)
    ensures t.index == s.index + 1
    ensures t.score == s.score && t.highScore == s.highScore && t.streak == s.streak && t.round == s.round
    ensures t.achievements == s.achievements
    ensures GoalJustReached(s, t) ==>
              t.mode == GoalCompleted && t.dailyGoalCompleted
              && t.quizCorrectWord == s.quizCorrectWord && t.quizOptions == s.quizOptions
              && t.quizSubmitted == s.quizSubmitted && t.quizResult == s.quizResult
    ensures !GoalJustReached(s, t) && |t.learnedWords| >= WORDS_PER_ROUND ==> t.mode == Quiz && QuizCleared(t)
    ensures !GoalJustReached(s, t) && |t.learnedWords| < WORDS_PER_ROUND ==> t.mode == Learn
    ensures t.dailyGoalCompleted == (s.dailyGoalCompleted || GoalJustReached(s, t))
  {
    GoalOrQuiz(LearnWord(c, s))
  }

  /**
   * The draws `random.choice`, `random.sample` and `random.shuffle` can return:
   * a word of the current round, min(3, pool size) distinct words of the
   * distractor pool, and a reordering of the correct word and the distractors.
   */
  predicate ValidDraw(c: seq<WordItem>, learned: seq<string>, d: Draw)
  {
    && d.correct in learned
    && |d.distractors| == Min(3, |OtherWords(c, d.correct)|)
    && NoDup(d.distractors)
    && (forall x :: x in d.distractors ==> x in OtherWords(c, d.correct))
    && multiset(d.options) == multiset([d.correct] + d.distractors)
  }

  /** Options contain the correct word exactly once, no word twice, only catalog words, min(4, catalog size) in all. */
  ghost predicate WellFormedOptions(c: seq<WordItem>, correct: string, options: seq<string>)
  {
    && multiset(options)[correct] == 1
    && (forall o :: multiset(options)[o] <= 1)
    && (forall o :: o in options ==> o in Words(c))
    && |options| == Min(4, |c|)
  }

  lemma DrawGivesWellFormedOptions(c: seq<WordItem>, s: State, d: Draw)
    requires WellFormed(c) && ValidDraw(c, s.learnedWords, d) && d.correct in Words(c)
    ensures WellFormedOptions(c, d.correct, d.options)
  {
    OtherWordsExact(c, d.correct);
    NoDupCounts(d.distractors);
    var m := multiset(d.options);
    assert m == multiset{d.correct} + multiset(d.distractors);
    assert d.correct !in d.distractors;
    forall o ensures m[o] <= 1 {
      if o != d.correct {
        assert m[o] == multiset(d.distractors)[o];
      }
    }
    forall o | o in d.options ensures o in Words(c) {
      assert o in m;
      if o != d.correct {
        assert o in multiset(d.distractors);
      }
    }
    assert |d.options| == |m| == 1 + |d.distractors|;
  }

  /** Quiz mode draws a question when it has none. */
  function GenerateQuestion(c: seq<WordItem>, s: State, d: Draw): (t: State)
    requires Quizzing(c, s) && s.quizCorrectWord.None? && ValidDraw(c, s.learnedWords, d)
    ensures t.quizCorrectWord == Some(d.correct) && d.correct in s.learnedWords
    ensures WellFormed(c) && d.correct in Words(c) ==> WellFormedOptions(c, d.correct, t.quizOptions)
    ensures t == s.(quizCorrectWord := t.quizCorrectWord, quizOptions := t.quizOptions)
  {
    var t := s.(quizCorrectWord := Some(d.correct), quizOptions := d.options);
    if WellFormed(c) && d.correct in Words(c) then DrawGivesWellFormedOptions(c, s, d); t else t
  }

  /** Unlocks "Streak Master" and "Word Collector", each once; nothing is ever removed. */
  function CheckAchievements(c: seq<WordItem>, s: State): (t: State)
    ensures |s.achievements| <= |t.achievements| <= |s.achievements| + 2
    ensures t.achievements[..|s.achievements|] == s.achievements
    ensures StreakMaster in t.achievements <==> StreakMaster in s.achievements || s.streak >= 3
    ensures WordCollector in t.achievements <==> WordCollector in s.achievements || s.totalLearned >= |c|
    ensures NoDup(s.achievements) ==> NoDup(t.achievements)
    ensures t == s.(achievements := t.achievements)
  {
    var a1 := if s.streak >= 3 then AppendAbsent(s.achievements, StreakMaster) else s.achievements;
    var a2 := if s.totalLearned >= |c| then AppendAbsent(a1, WordCollector) else a1;
    assert a2[..|s.achievements|] == s.achievements by {
      assert a1[..|s.achievements|] == s.achievements;
      assert a2[..|a1|] == a1;
    }
    s.(achievements := a2)
  }

  /** Pressing one of the option buttons. */
  function ChooseOption(c: seq<WordItem>, s: State, o: string): (t: State)
    requires CanChoose(c, s, o)
    ensures t.quizSubmitted && t.selectedOption == Some(o)
    ensures t.quizResult == Some(if o == s.quizCorrectWord.value then Correct else Wrong)
    ensures o == s.quizCorrectWord.value ==>
              t.score == s.score + 10 && t.streak == s.streak + 1 && t.highScore == Max(s.highScore, t.score)
              && t.reviewList == s.reviewList
              && t.achievements == CheckAchievements(c, s.(streak := t.streak)).achievements
    ensures o != s.quizCorrectWord.value ==>
              t.score == s.score && t.streak == 0 && t.highScore == s.highScore
              && t.achievements == s.achievements
              && t.reviewList == AppendAbsent(s.reviewList, s.quizCorrectWord.value)
    ensures t.highScore >= s.highScore && (s.highScore >= s.score ==> t.highScore >= t.score)
    ensures |s.achievements| <= |t.achievements| && t.achievements[..|s.achievements|] == s.achievements
    ensures t.index == s.index && t.totalLearned == s.totalLearned && t.round == s.round && t.mode == s.mode
    ensures t.learnedWords == s.learnedWords && t.quizCorrectWord == s.quizCorrectWord && t.quizOptions == s.quizOptions
    ensures t.dailyLearned == s.dailyLearned && t.dailyDate == s.dailyDate
    ensures t.dailyGoalCompleted == s.dailyGoalCompleted && t.dailyGoalCelebrated == s.dailyGoalCelebrated
    ensures t == s.(selectedOption := t.selectedOption, quizResult := t.quizResult, score := t.score, streak := t.streak,
                    highScore := t.highScore, achievements := t.achievements, reviewList := t.reviewList,
                    quizSubmitted := t.quizSubmitted)
  {
    var correct := s.quizCorrectWord.value;
    var s1 := s.(selectedOption := Some(o));
    var s2 := if o == correct then
                var r := s1.(quizResult := Some(Correct), score := s1.score + 10, streak := s1.streak + 1);
                CheckAchievements(c, r.(highScore := Max(r.highScore, r.score)))
              else
                s1.(quizResult := Some(Wrong), streak := 0, reviewList := AppendAbsent(s1.reviewList, correct));
    s2.(quizSubmitted := true)
  }

  /** Leaving an answered quiz: a new round starts in learn mode. */
  function EndRound(s: State): (t: State)
    ensures t.mode == Learn && t.learnedWords == [] && t.round == s.round + 1 && QuizCleared(t)
    ensures SameProgress(s, t)
  {
    ClearQuiz(s).(learnedWords := [], round := s.round + 1, mode := Learn)
  }

  /** The page shows the control behind `a` in state `s`; a plain render is always possible. */
  predicate Offered(c: seq<WordItem>, s: State, a: Action)
  {
    match a
    case Render(_) => true
    case ToggleTranslation(_) => Learning(c, s)
    case Next => Learning(c, s)
    case GoToReview => CanGoToReview(c, s)
    case Choose(o) => CanChoose(c, s, o)
    case ContinueToNext => AnsweredWrongly(c, s)
    case BackToLearn => s.mode == Review
    case ContinueLearning => s.mode == GoalCompleted
    case Restart => CanRestart(c, s)
  }

  /**
   * One run of the page after rollover and header: the effect of `a`, or
   * nothing when `a` is not offered.  Only Restart touches the date, and only
   * the header marks the daily goal as celebrated.
   */
  function Apply(c: seq<WordItem>, s: State, today: string, a: Action): (r: State)
    ensures !Offered(c, s, a) ==> r == s
    ensures a.Restart? && Offered(c, s, a) ==> r == Init(today)
    ensures !a.Restart? ==> r.dailyDate == s.dailyDate && r.dailyGoalCelebrated == s.dailyGoalCelebrated
  {
    match a
    case Render(d) =>
      var s1 := if Quizzing(c, s) && s.quizCorrectWord.None? && ValidDraw(c, s.learnedWords, d) then GenerateQuestion(c, s, d) else s;
      if AnsweredCorrectly(c, s1) then EndRound(s1) else s1
    case ToggleTranslation(on) => if Learning(c, s) then s.(showTranslation := on) else s
    case Next => if Learning(c, s) then NextWord(c, s) else s
    case GoToReview => if CanGoToReview(c, s) then s.(mode := Review) else s
    case Choose(o) => if CanChoose(c, s, o) then ChooseOption(c, s, o) else s
    case ContinueToNext => if AnsweredWrongly(c, s) then EndRound(s) else s
    case BackToLearn => if s.mode == Review then s.(mode := Learn) else s
    case ContinueLearning => if s.mode == GoalCompleted then s.(mode := Learn) else s
    case Restart => if CanRestart(c, s) then Init(today) else s
  }

  /** One run of the page script on date `today`. */
  function Step(c: seq<WordItem>, s: State, today: string, a: Action): (r: State)
    ensures r.dailyDate == today
    ensures !Offered(c, Celebrate(Rollover(s, today)), a) ==> r == Celebrate(Rollover(s, today))
  {
    Apply(c, Celebrate(Rollover(s, today)), today, a)
  }

  /** The runs `es` one after the other; the date of the last run is the one stored. */
  function Run(c: seq<WordItem>, s: State, es: seq<Event>): (r: State)
    ensures es == [] ==> r == s
    ensures es != [] ==> r.dailyDate == es[|es| - 1].today
    decreases |es|
  {
    if es == [] then s else Run(c, Step(c, s, es[0].today, es[0].action), es[1..])
  }

  // ------------------------------------------------------------- invariant

  /**
   * What holds of every reachable session: the review list is exactly the
   * words taught so far, the current round's words are the last ones taught,
   * a question's options are well formed and the quiz fields agree.
   */
  ghost predicate Inv(c: seq<WordItem>, s: State)
  {
    && s.index <= |c|
    && s.totalLearned == s.index
    && s.dailyLearned <= s.index
    && s.reviewList == Words(c)[..s.index]
    && |s.learnedWords| <= s.index
    && s.learnedWords == Words(c)[s.index - |s.learnedWords| .. s.index]
    && 1 <= s.round <= TotalRounds(c) + 1
    && s.highScore >= s.score
    && NoDup(s.achievements)
    && (s.streak >= 3 ==> StreakMaster in s.achievements)
    && (WordCollector in s.achievements ==> s.index == |c|)
    && (s.mode == Quiz ==> |s.learnedWords| >= WORDS_PER_ROUND)
    && (s.quizCorrectWord.None? ==> QuizCleared(s))
    && (s.quizCorrectWord.Some? ==>
          s.quizCorrectWord.value in s.learnedWords
          && WellFormedOptions(c, s.quizCorrectWord.value, s.quizOptions))
    && (s.quizSubmitted <==> s.quizResult.Some?)
    && (s.quizSubmitted <==> s.selectedOption.Some?)
    && (s.quizSubmitted ==>
          s.selectedOption.value in s.quizOptions
          && (s.quizResult == Some(Correct) <==> s.selectedOption == s.quizCorrectWord))
    && (s.dailyGoalCompleted ==> s.dailyLearned >= DAILY_GOAL)
    && (s.dailyGoalCelebrated ==> s.dailyLearned >= DAILY_GOAL)
  }
}
