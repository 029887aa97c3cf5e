/**
 * The game's session object.  It holds the session record, which every button
 * of the page updates key by key in place; every method is proved to have
 * exactly the effect of the matching function of `SessionState` and to keep
 * the session invariant.
 */
module Game {
  import opened Common
  import opened Catalog
  import S = SessionState
  import P = SessionProperties

  class Session {
    /** The word list, read once and never changed. */
    const catalog: seq<WordItem>

    /** The session record: one field per session key. */
    var state: S.State

    ghost predicate Valid()
      reads this
    {
      WellFormed(catalog) && S.Inv(catalog, state)
    }

    /** A new session: every key holds its default. */
    constructor (words: seq<WordItem>, today: string)
      requires WellFormed(words)
      ensures Valid() && catalog == words && state == S.Init(today)
    {
      catalog := words;
      state := S.Init(today);
      new;
      P.InitEstablishesInv(words, today);
    }

    /** The date check at the top of every run. */
    method RolloverDay(today: string)
      requires Valid()
      modifies this
      ensures Valid() && state == S.Rollover(old(state), today)
    {
      if state.dailyDate != today {
        state := state.(dailyDate := today);
        state := state.(dailyLearned := 0);
        state := state.(dailyGoalCelebrated := false);
        state := state.(dailyGoalCompleted := false);
      }
    }

    /** The header of learn and quiz mode, which celebrates the daily goal once. */
    method ShowHeader()
      requires Valid()
      modifies this
      ensures Valid() && state == S.Celebrate(old(state))
    {
      if (state.mode == S.Learn || state.mode == S.Quiz) && state.dailyLearned >= DAILY_GOAL
         && !state.dailyGoalCelebrated {
        state := state.(dailyGoalCelebrated := true);
      }
    }

    /** The "Show translation" checkbox of learn mode. */
    method ToggleTranslation(on: bool)
      requires Valid() && S.Learning(catalog, state)
      modifies this
      ensures Valid() && state == old(state).(showTranslation := on)
    {
      state := state.(showTranslation := on);
    }

    /** Every quiz key back to its default. */
    method ClearQuiz()
      modifies this
      ensures state == S.ClearQuiz(old(state))
    {
      state := state.(quizCorrectWord := None);
      state := state.(quizOptions := []);
      state := state.(quizResult := None);
      state := state.(quizSubmitted := false);
      state := state.(selectedOption := None);
    }

    /** The bookkeeping of the Next button. */
    method LearnWord()
      requires S.Learning(catalog, state)
      modifies this
      ensures state == S.LearnWord(catalog, old(state))
    {
      var word := catalog[state.index].word;
      if word !in state.learnedWords {
        state := state.(learnedWords := state.learnedWords + [word], totalLearned := state.totalLearned + 1,
                        dailyLearned := state.dailyLearned + 1, reviewList := AppendAbsent(state.reviewList, word));
      }
      state := state.(index := state.index + 1);
    }

    /** The daily-goal check and the round check after the bookkeeping of Next. */
    method GoalOrQuiz()
      modifies this
      ensures state == S.GoalOrQuiz(old(state))
    {
      if state.dailyLearned >= DAILY_GOAL && !state.dailyGoalCompleted {
        state := state.(dailyGoalCompleted := true);
        state := state.(mode := S.GoalCompleted);
        return;
      }
      if |state.learnedWords| >= WORDS_PER_ROUND {
        state := state.(mode := S.Quiz);
        ClearQuiz();
      }
    }

    /** The Next button of learn mode. */
    method Next()
      requires Valid() && S.Learning(catalog, state)
      modifies this
      ensures Valid() && state == S.NextWord(catalog, old(state))
    {
      P.NextPreservesInv(catalog, state);
      LearnWord();
      GoalOrQuiz();
    }

    /** Quiz mode without a question draws one; the draws are the parameters. */
    method GenerateQuestion(correct: string, distractors: seq<string>, options: seq<string>)
      requires Valid() && S.Quizzing(catalog, state) && state.quizCorrectWord.None?
      requires S.ValidDraw(catalog, state.learnedWords, S.Draw(correct, distractors, options))
      modifies this
      ensures Valid() && state == S.GenerateQuestion(catalog, old(state), S.Draw(correct, distractors, options))
    {
      P.GeneratePreservesInv(catalog, state, S.Draw(correct, distractors, options));
      state := state.(quizCorrectWord := Some(correct));
      state := state.(quizOptions := options);
    }

    /** Unlocks the achievements whose condition holds; `achieved` lists the new ones. */
    method CheckAchievements() returns (achieved: seq<S.Achievement>)
      modifies this
      ensures state.achievements == old(state.achievements) + achieved
      ensures state == S.CheckAchievements(catalog, old(state))
    {
      achieved := [];
      if state.streak >= 3 && S.StreakMaster !in state.achievements {
        state := state.(achievements := state.achievements + [S.StreakMaster]);
        achieved := achieved + [S.StreakMaster];
      }
      if state.totalLearned >= |catalog| && S.WordCollector !in state.achievements {
        state := state.(achievements := state.achievements + [S.WordCollector]);
        achieved := achieved + [S.WordCollector];
      }
    }

    /** The bookkeeping of an option button: the choice, the result, the score and the streak. */
    method RecordAnswer(option: string)
      requires S.CanChoose(catalog, state, option)
      modifies this
      ensures state == S.ChooseOption(catalog, old(state), option)
    {
      var correct := state.quizCorrectWord.value;
      state := state.(selectedOption := Some(option));
      if option == correct {
        state := state.(quizResult := Some(S.Correct), score := state.score + 10, streak := state.streak + 1);
        state := state.(highScore := Max(state.highScore, state.score));
        var unlocked := CheckAchievements();
      } else {
        state := state.(quizResult := Some(S.Wrong), streak := 0, reviewList := AppendAbsent(state.reviewList, correct));
      }
      state := state.(quizSubmitted := true);
    }

    /** One of the option buttons of an unanswered question. */
    method Choose(option: string)
      requires Valid() && S.CanChoose(catalog, state, option)
      modifies this
      ensures Valid() && state == S.ChooseOption(catalog, old(state), option)
    {
      P.ChoosePreservesInv(catalog, state, option);
      RecordAnswer(option);
    }

    /** Leaving an answered quiz, automatically after a right answer or by "Continue to next" after a wrong one. */
    method StartNextRound()
      requires Valid() && (S.AnsweredCorrectly(catalog, state) || S.AnsweredWrongly(catalog, state))
      modifies this
      ensures Valid() && state == S.EndRound(old(state))
    {
      P.EndRoundPreservesInv(catalog, state);
      state := state.(learnedWords := []);
      state := state.(round := state.round + 1);
      state := state.(mode := S.Learn);
      ClearQuiz();
    }

    /** The review buttons of learn mode, of a wrong answer and of the goal page. */
    method GoToReview()
      requires Valid() && S.CanGoToReview(catalog, state)
      modifies this
      ensures Valid() && state == old(state).(mode := S.Review)
    {
      state := state.(mode := S.Review);
    }

    /** "Back to Learn" in review mode. */
    method BackToLearn()
      requires Valid() && state.mode == S.Review
      modifies this
      ensures Valid() && state == old(state).(mode := S.Learn)
    {
      state := state.(mode := S.Learn);
    }

    /** "Continue Learning" on the goal page. */
    method ContinueLearning()
      requires Valid() && state.mode == S.GoalCompleted
      modifies this
      ensures Valid() && state == old(state).(mode := S.Learn)
    {
      state := state.(mode := S.Learn);
    }

    /** "Restart Game" on the two finished screens: every key is deleted and its default comes back. */
    method Restart(today: string)
      requires Valid() && S.CanRestart(catalog, state)
      modifies this
      ensures Valid() && state == S.Init(today)
    {
      state := S.Init(today);
      P.InitEstablishesInv(catalog, today);
    }

    /** The mode-specific part of one run: the pressed button, or what rendering does without one. */
    method Dispatch(today: string, a: S.Action)
      requires Valid()
      modifies this
      ensures Valid() && state == S.Apply(catalog, old(state), today, a)
    {
      match a
      case Render(d) =>
        if S.Quizzing(catalog, state) && state.quizCorrectWord.None? && S.ValidDraw(catalog, state.learnedWords, d) {
          GenerateQuestion(d.correct, d.distractors, d.options);
        }
        if S.AnsweredCorrectly(catalog, state) {
          StartNextRound();
        }
      case ToggleTranslation(on) =>
        if S.Learning(catalog, state) {
          ToggleTranslation(on);
        }
      case Next =>
        if S.Learning(catalog, state) {
          Next();
        }
      case GoToReview =>
        if S.CanGoToReview(catalog, state) {
          GoToReview();
        }
      case Choose(o) =>
        if S.CanChoose(catalog, state, o) {
          Choose(o);
        }
      case ContinueToNext =>
        if S.AnsweredWrongly(catalog, state) {
          StartNextRound();
        }
      case BackToLearn =>
        if state.mode == S.Review {
          BackToLearn();
        }
      case ContinueLearning =>
        if state.mode == S.GoalCompleted {
          ContinueLearning();
        }
      case Restart =>
        if S.CanRestart(catalog, state) {
          Restart(today);
        }
    }

    /** One run of the page script on date `today`: rollover, header, then the mode's part. */
    method Handle(today: string, a: S.Action)
      requires Valid()
      modifies this
      ensures Valid() && state == S.Step(catalog, old(state), today, a)
    {
      RolloverDay(today);
      ShowHeader();
      Dispatch(today, a);
    }
  }
}
