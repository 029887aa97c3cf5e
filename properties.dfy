/**
 * Properties of the session state machine: every run of the page keeps the
 * invariant `Inv`, the counters only grow (except the streak and the daily
 * counters, and except on Restart), a question can always be drawn, a second
 * answer to the same question is ignored, and the finished screens are final.
 */
module SessionProperties {
  import opened Common
  import opened Catalog
  import opened SessionState

  /** `a` is an initial part of `b`: `b` was obtained by appending only. */
  predicate IsPrefix<T(==)>(a: seq<T>, b: seq<T>)
  {
    |a| <= |b| && b[..|a|] == a
  }

  /** What no run of the page other than Restart ever takes back. */
  predicate Progressed(s: State, t: State)
  {
    && s.index <= t.index
    && s.totalLearned <= t.totalLearned
    && s.score <= t.score
    && s.highScore <= t.highScore
    && s.round <= t.round
    && IsPrefix(s.achievements, t.achievements)
    && IsPrefix(s.reviewList, t.reviewList)
  }

  // ------------------------------------------------------------- helpers

  /** The word at catalog position `i` does not occur before it. */
  lemma FreshWord(c: seq<WordItem>, i: nat, lo: nat)
    requires WellFormed(c) && lo <= i < |c|
    ensures Words(c)[i] !in Words(c)[lo..i]
  {
    forall j | lo <= j < i ensures Words(c)[j] != Words(c)[i] {
      assert j < i;
    }
  }

  /** A word of a slice is a word of the prefix that ends where the slice ends. */
  lemma SliceIn(ws: seq<string>, lo: nat, hi: nat, x: string)
    requires lo <= hi <= |ws| && x in ws[lo..hi]
    ensures x in ws[..hi]
  {
    var j :| 0 <= j < hi - lo && ws[lo..hi][j] == x;
    assert ws[..hi][lo + j] == x;
  }

  /** Extending a slice by one position appends the element at that position. */
  lemma SliceGrows(ws: seq<string>, lo: nat, n: nat)
    requires lo <= n < |ws|
    ensures ws[..n + 1] == ws[..n] + [ws[n]]
    ensures ws[lo..n + 1] == ws[lo..n] + [ws[n]]
  {
    assert ws[..n + 1] == ws[..n] + [ws[n]];
    assert ws[lo..n + 1] == ws[lo..n] + [ws[n]];
  }

  // ---------------------------------------------------- one transition each

  lemma InitEstablishesInv(c: seq<WordItem>, today: string)
    ensures Inv(c, Init(today))
    ensures QuizCleared(Init(today)) && Init(today).mode == Learn && Init(today).dailyDate == today
  {
  }

  /**
   * In a reachable session the word Next shows has never been learned, so the
   * guard before the bookkeeping always holds: the word is appended to the
   * round's words and to the review list, and both counters grow by one.
   */
  lemma NextLearnsNewWord(c: seq<WordItem>, s: State)
    requires WellFormed(c) && Inv(c, s) && Learning(c, s)
    ensures var w := c[s.index].word;
            var t := LearnWord(c, s);
            && w !in s.learnedWords && w !in s.reviewList
            && t.learnedWords == s.learnedWords + [w]
            && t.reviewList == s.reviewList + [w]
            && t.totalLearned == s.totalLearned + 1
            && t.dailyLearned == s.dailyLearned + 1
  {
    var w := c[s.index].word;
    FreshWord(c, s.index, s.index - |s.learnedWords|);
    FreshWord(c, s.index, 0);
    assert Words(c)[s.index] == w;
    assert w !in s.learnedWords;
    assert w !in s.reviewList;
  }

  /** Next, showing a fresh word, extends the taught prefix and the round's words by that word. */
  lemma LearnWordExtends(c: seq<WordItem>, s: State)
    requires Learning(c, s) && c[s.index].word !in s.learnedWords && c[s.index].word !in s.reviewList
    requires s.reviewList == Words(c)[..s.index]
    requires |s.learnedWords| <= s.index && s.learnedWords == Words(c)[s.index - |s.learnedWords|..s.index]
    ensures var t := LearnWord(c, s);
            && t.reviewList == Words(c)[..t.index]
            && t.learnedWords == Words(c)[t.index - |t.learnedWords|..t.index]
  {
    var w := c[s.index].word;
    var n := s.index;
    var k := |s.learnedWords|;
    assert Words(c)[n] == w;
    var t := LearnWord(c, s);
    assert t.index == n + 1 && t.learnedWords == s.learnedWords + [w] && t.reviewList == s.reviewList + [w];
    SliceGrows(Words(c), n - k, n);
  }

  lemma LearnWordPreservesInv(c: seq<WordItem>, s: State)
    requires WellFormed(c) && Inv(c, s) && Learning(c, s)
    ensures Inv(c, LearnWord(c, s))
  {
    NextLearnsNewWord(c, s);
    LearnWordExtends(c, s);
    var t := LearnWord(c, s);
    assert s.quizCorrectWord.Some? ==> s.quizCorrectWord.value in t.learnedWords;
    assert WordCollector in t.achievements ==> t.index == |c|;
  }

  lemma GoalOrQuizPreservesInv(c: seq<WordItem>, s: State)
    requires Inv(c, s) && s.mode == Learn
    ensures Inv(c, GoalOrQuiz(s))
  {
  }

  lemma NextPreservesInv(c: seq<WordItem>, s: State)
    requires WellFormed(c) && Inv(c, s) && Learning(c, s)
    ensures Inv(c, NextWord(c, s))
  {
    LearnWordPreservesInv(c, s);
    GoalOrQuizPreservesInv(c, LearnWord(c, s));
  }

  /**
   * Quiz generation never fails in a reachable session: the round's word list
   * is not empty and the pool holds enough distractors, so some draw is valid.
   */
  lemma DrawExists(c: seq<WordItem>, s: State)
    requires WellFormed(c) && Inv(c, s) && Quizzing(c, s) && s.quizCorrectWord.None?
    ensures exists d :: ValidDraw(c, s.learnedWords, d)
  {
    var correct := s.learnedWords[0];
    SliceIn(Words(c), s.index - |s.learnedWords|, s.index, correct);
    assert correct in Words(c);
    var pool := OtherWords(c, correct);
    OtherWordsExact(c, correct);
    var k := Min(3, |pool|);
    var distractors := pool[..k];
    assert NoDup(distractors);
    assert forall x :: x in distractors ==> x in pool;
    var d := Draw(correct, distractors, [correct] + distractors);
    assert ValidDraw(c, s.learnedWords, d);
  }

  lemma GeneratePreservesInv(c: seq<WordItem>, s: State, d: Draw)
    requires WellFormed(c) && Inv(c, s) && Quizzing(c, s) && s.quizCorrectWord.None? && ValidDraw(c, s.learnedWords, d)
    ensures Inv(c, GenerateQuestion(c, s, d))
  {
    SliceIn(Words(c), s.index - |s.learnedWords|, s.index, d.correct);
  }

  /**
   * In a reachable session a wrong answer never changes the review list: the
   * correct word was learned in this round and so is already on it.
   */
  lemma WrongAnswerKeepsReviewList(c: seq<WordItem>, s: State, o: string)
    requires Inv(c, s) && CanChoose(c, s, o) && o != s.quizCorrectWord.value
    ensures s.quizCorrectWord.value in s.reviewList
    ensures ChooseOption(c, s, o).reviewList == s.reviewList
  {
    SliceIn(Words(c), s.index - |s.learnedWords|, s.index, s.quizCorrectWord.value);
  }

  lemma CorrectAnswerPreservesInv(c: seq<WordItem>, s: State, o: string)
    requires Inv(c, s) && CanChoose(c, s, o) && o == s.quizCorrectWord.value
    ensures Inv(c, ChooseOption(c, s, o))
  {
  }

  lemma WrongAnswerPreservesInv(c: seq<WordItem>, s: State, o: string)
    requires Inv(c, s) && CanChoose(c, s, o) && o != s.quizCorrectWord.value
    ensures Inv(c, ChooseOption(c, s, o))
  {
    WrongAnswerKeepsReviewList(c, s, o);
  }

  lemma ChoosePreservesInv(c: seq<WordItem>, s: State, o: string)
    requires Inv(c, s) && CanChoose(c, s, o)
    ensures Inv(c, ChooseOption(c, s, o))
  {
    if o == s.quizCorrectWord.value {
      CorrectAnswerPreservesInv(c, s, o);
    } else {
      WrongAnswerPreservesInv(c, s, o);
    }
  }

  lemma EndRoundPreservesInv(c: seq<WordItem>, s: State)
    requires Inv(c, s) && (AnsweredCorrectly(c, s) || AnsweredWrongly(c, s))
    ensures Inv(c, EndRound(s))
  {
  }

  // ----------------------------------------------------- whole page runs

  /** The daily rollover and the header's celebration keep the invariant. */
  lemma HeaderPreservesInv(c: seq<WordItem>, s: State, today: string)
    requires Inv(c, s)
    ensures Inv(c, Celebrate(Rollover(s, today)))
  {
    var r := Rollover(s, today);
    assert Inv(c, r);
  }

  lemma RenderPreservesInv(c: seq<WordItem>, s: State, today: string, d: Draw)
    requires WellFormed(c) && Inv(c, s)
    ensures Inv(c, Apply(c, s, today, Render(d)))
  {
    if Quizzing(c, s) && s.quizCorrectWord.None? && ValidDraw(c, s.learnedWords, d) {
      GeneratePreservesInv(c, s, d);
      var g := GenerateQuestion(c, s, d);
      assert !AnsweredCorrectly(c, g);
      assert Apply(c, s, today, Render(d)) == g;
    } else if AnsweredCorrectly(c, s) {
      EndRoundPreservesInv(c, s);
      assert Apply(c, s, today, Render(d)) == EndRound(s);
    } else {
      assert Apply(c, s, today, Render(d)) == s;
    }
  }

  lemma PressNextPreservesInv(c: seq<WordItem>, s: State, today: string)
    requires WellFormed(c) && Inv(c, s)
    ensures Inv(c, Apply(c, s, today, Next))
  {
    if Learning(c, s) {
      NextPreservesInv(c, s);
    }
  }

  lemma PressChoosePreservesInv(c: seq<WordItem>, s: State, today: string, o: string)
    requires WellFormed(c) && Inv(c, s)
    ensures Inv(c, Apply(c, s, today, Choose(o)))
  {
    if CanChoose(c, s, o) {
      ChoosePreservesInv(c, s, o);
    }
  }

  lemma PressContinuePreservesInv(c: seq<WordItem>, s: State, today: string)
    requires WellFormed(c) && Inv(c, s)
    ensures Inv(c, Apply(c, s, today, ContinueToNext))
  {
    if AnsweredWrongly(c, s) {
      EndRoundPreservesInv(c, s);
    }
  }

  lemma PressRestartPreservesInv(c: seq<WordItem>, s: State, today: string)
    requires Inv(c, s)
    ensures Inv(c, Apply(c, s, today, Restart))
  {
    InitEstablishesInv(c, today);
  }

  lemma ToggleTranslationPreservesInv(c: seq<WordItem>, s: State, today: string, on: bool)
    requires Inv(c, s)
    ensures Inv(c, Apply(c, s, today, ToggleTranslation(on)))
  {
    assert Inv(c, s.(showTranslation := on));
  }

  lemma GoToReviewPreservesInv(c: seq<WordItem>, s: State, today: string)
    requires Inv(c, s)
    ensures Inv(c, Apply(c, s, today, GoToReview))
  {
    assert Inv(c, s.(mode := Review));
  }

  lemma BackToLearnPreservesInv(c: seq<WordItem>, s: State, today: string)
    requires Inv(c, s)
    ensures Inv(c, Apply(c, s, today, BackToLearn))
  {
    assert Inv(c, s.(mode := Learn));
  }

  lemma ContinueLearningPreservesInv(c: seq<WordItem>, s: State, today: string)
    requires Inv(c, s)
    ensures Inv(c, Apply(c, s, today, ContinueLearning))
  {
    assert Inv(c, s.(mode := Learn));
  }

  lemma ApplyPreservesInv(c: seq<WordItem>, s: State, today: string, a: Action)
    requires WellFormed(c) && Inv(c, s)
    ensures Inv(c, Apply(c, s, today, a))
  {
    match a
    case Render(d) => RenderPreservesInv(c, s, today, d);
    case Next => PressNextPreservesInv(c, s, today);
    case Choose(o) => PressChoosePreservesInv(c, s, today, o);
    case ContinueToNext => PressContinuePreservesInv(c, s, today);
    case Restart => PressRestartPreservesInv(c, s, today);
    case ToggleTranslation(on) => ToggleTranslationPreservesInv(c, s, today, on);
    case GoToReview => GoToReviewPreservesInv(c, s, today);
    case BackToLearn => BackToLearnPreservesInv(c, s, today);
    case ContinueLearning => ContinueLearningPreservesInv(c, s, today);
  }

  lemma StepPreservesInv(c: seq<WordItem>, s: State, today: string, a: Action)
    requires WellFormed(c) && Inv(c, s)
    ensures Inv(c, Step(c, s, today, a))
  {
    HeaderPreservesInv(c, s, today);
    ApplyPreservesInv(c, Celebrate(Rollover(s, today)), today, a);
  }

  /** Every session reachable from a consistent one by any sequence of page runs is consistent. */
  lemma {:induction false} RunPreservesInv(c: seq<WordItem>, s: State, es: seq<Event>)
    requires WellFormed(c) && Inv(c, s)
    ensures Inv(c, Run(c, s, es))
    decreases |es|
  {
    if es != [] {
      StepPreservesInv(c, s, es[0].today, es[0].action);
      RunPreservesInv(c, Step(c, s, es[0].today, es[0].action), es[1..]);
    }
  }

  /** What every reachable session satisfies, read off the invariant. */
  lemma InvConsequences(c: seq<WordItem>, s: State)
    requires WellFormed(c) && Inv(c, s)
    ensures s.index <= |c|
    ensures NoDup(s.reviewList)
    ensures NoDup(s.learnedWords)
    ensures forall w :: w in s.reviewList ==> w in Words(c)
    ensures s.highScore >= s.score
    ensures s.round <= TotalRounds(c) + 1
    ensures s.mode == Quiz ==> |s.learnedWords| >= WORDS_PER_ROUND
    ensures s.quizCorrectWord.Some? ==> s.quizCorrectWord.value in Words(c)
  {
    var ws := Words(c);
    assert NoDup(s.reviewList) by {
      forall i, j | 0 <= i < j < |s.reviewList| ensures s.reviewList[i] != s.reviewList[j] {
        assert s.reviewList[i] == ws[i] && s.reviewList[j] == ws[j];
      }
    }
    assert NoDup(s.learnedWords) by {
      var lo := s.index - |s.learnedWords|;
      forall i, j | 0 <= i < j < |s.learnedWords| ensures s.learnedWords[i] != s.learnedWords[j] {
        assert s.learnedWords[i] == ws[lo + i] && s.learnedWords[j] == ws[lo + j];
      }
    }
  }

  /** When both achievements unlock in one check, "Streak Master" comes first. */
  lemma AchievementOrder(c: seq<WordItem>, s: State)
    requires StreakMaster !in s.achievements && WordCollector !in s.achievements
    requires s.streak >= 3 && s.totalLearned >= |c|
    ensures CheckAchievements(c, s).achievements == s.achievements + [StreakMaster, WordCollector]
  {
  }

  lemma NextProgresses(c: seq<WordItem>, s: State)
    requires Learning(c, s)
    ensures Progressed(s, NextWord(c, s))
  {
    var w := c[s.index].word;
    assert IsPrefix(s.reviewList, AppendAbsent(s.reviewList, w));
  }

  lemma ChooseProgresses(c: seq<WordItem>, s: State, o: string)
    requires CanChoose(c, s, o)
    ensures Progressed(s, ChooseOption(c, s, o))
  {
  }

  lemma RenderProgresses(c: seq<WordItem>, s: State, today: string, d: Draw)
    ensures Progressed(s, Apply(c, s, today, Render(d)))
  {
    var s1 := if Quizzing(c, s) && s.quizCorrectWord.None? && ValidDraw(c, s.learnedWords, d) then GenerateQuestion(c, s, d) else s;
    assert Progressed(s, s1);
  }

  lemma ApplyProgresses(c: seq<WordItem>, s: State, today: string, a: Action)
    requires !a.Restart?
    ensures Progressed(s, Apply(c, s, today, a))
  {
    match a
    case Render(d) => RenderProgresses(c, s, today, d);
    case Next => if Learning(c, s) { NextProgresses(c, s); }
    case Choose(o) => if CanChoose(c, s, o) { ChooseProgresses(c, s, o); }
    case ToggleTranslation(_) =>
    case GoToReview =>
    case ContinueToNext =>
    case BackToLearn =>
    case ContinueLearning =>
  }

  /** No run other than Restart takes back progress: index, totals, score, high score, round, achievements and review list. */
  lemma StepProgresses(c: seq<WordItem>, s: State, today: string, a: Action)
    requires !a.Restart?
    ensures Progressed(s, Step(c, s, today, a))
  {
    var h := Celebrate(Rollover(s, today));
    assert Progressed(s, h);
    ApplyProgresses(c, h, today, a);
  }

  lemma {:induction false} RunProgresses(c: seq<WordItem>, s: State, es: seq<Event>)
    requires forall i :: 0 <= i < |es| ==> !es[i].action.Restart?
    ensures Progressed(s, Run(c, s, es))
    decreases |es|
  {
    if es != [] {
      var s1 := Step(c, s, es[0].today, es[0].action);
      StepProgresses(c, s, es[0].today, es[0].action);
      RunProgresses(c, s1, es[1..]);
      var t := Run(c, s1, es[1..]);
      assert t.achievements[..|s.achievements|] == s1.achievements[..|s.achievements|];
      assert t.reviewList[..|s.reviewList|] == s1.reviewList[..|s.reviewList|];
    }
  }

  /** Once the question is answered, pressing an option again (any option) changes nothing. */
  lemma SecondChoiceIgnored(c: seq<WordItem>, s: State, o1: string, o2: string, today: string)
    requires CanChoose(c, s, o1)
    ensures var t := ChooseOption(c, s, o1);
            Apply(c, t, today, Choose(o2)) == t
  {
  }

  /** On the two "finished" screens only Restart does anything beyond the daily bookkeeping. */
  lemma FinishedIsFinal(c: seq<WordItem>, s: State, today: string, a: Action)
    requires CanRestart(c, s) && !a.Restart?
    ensures Step(c, s, today, a) == Celebrate(Rollover(s, today))
  {
  }

  /** Restart brings back every default, whatever the session held. */
  lemma RestartResets(c: seq<WordItem>, s: State, today: string)
    requires CanRestart(c, s)
    ensures Step(c, s, today, Restart) == Init(today)
  {
  }

  /**
   * When the last word of a round also meets the daily goal, the goal page
   * comes first and the quiz waits: the round's words and quiz fields stay.
   */
  lemma GoalBeforeQuiz(c: seq<WordItem>, s: State)
    requires WellFormed(c) && Inv(c, s) && Learning(c, s)
    requires s.dailyLearned + 1 >= DAILY_GOAL && !s.dailyGoalCompleted
    ensures NextWord(c, s).mode == GoalCompleted
    ensures NextWord(c, s).learnedWords == s.learnedWords + [c[s.index].word]
  {
    NextLearnsNewWord(c, s);
  }
}
