# Vocabulary game session model

This project models the session state of the Streamlit word-learning game in
`app.py`. The game keeps one session dictionary per browser session. It holds
20 keys: the catalog position, the words of the current round, the mode
(`learn`, `quiz`, `review`, `goal_completed`), the round, score, high score,
streak, achievements, the current quiz question and its answer, the daily
counters and the review list. Every run of the page script does three things
in order:

1. `init_state` adds the keys that are missing.
2. The daily counters roll over when the date has changed.
3. The header of learn and quiz mode may celebrate the daily goal.

After that, the current mode handles at most one pressed button. When no
button was pressed, the mode does what it does on its own: quiz mode draws a
question when it has none, and it leaves a correctly answered question by
starting the next round.

The project is in five layers:

- `common.dfy` and `catalog.dfy`: the word catalog, the constants
  `WORDS_PER_ROUND`, `DAILY_GOAL` and `TOTAL_ROUNDS`, and the distractor pool
  of a question.
- `state.dfy` (`SessionState`): the session as a value (`State`, one field per
  key). Every update is a function on it. `Step` is one run of the script and
  `Run` a sequence of runs. `Inv` is what every reachable session satisfies.
  - The review list is exactly the words taught so far.
  - The round's words are the last ones taught.
  - A question's options hold the correct word once and no word twice.
  - The quiz keys agree with each other.
- `properties.dfy` (`SessionProperties`): lemmas about the functions. They
  prove that the initial state satisfies the invariant and that every step
  keeps it. They also cover:
  - monotonicity: the position, total learned, score, high score and the
    achievement list never decrease;
  - the precedence of the daily-goal page over the quiz;
  - that a question can always be drawn;
  - that a second answer is ignored;
  - the behaviour of the finished screens.
- `session.dfy` (`Game.Session`): the imperative session object. Each button
  handler updates the record key by key. Each handler is proved to have
  exactly the effect of its function in `SessionState` and to keep the
  invariant.
- `store.dfy` (`SessionStore`): the session as a dictionary from key to value.
  - `init_state`'s loop fills in the defaults.
  - Restart's loop deletes every key.
  - The defaults dictionary is the encoding of the initial state.

The random calls of a question (`random.choice`, `random.sample`,
`random.shuffle`) are a `Draw` parameter. `ValidDraw` is what those calls can
return. The date is the `today` parameter.

## Model

| member | source | states |
|---|---|---|
| Catalog.TotalRounds | app.py:19-21 | the round count is at least 1, and for a catalog of at least 3 words it is the largest n with 3n words in the catalog |
| Catalog.OtherWords | app.py:258 | the distractor pool holds exactly the catalog words other than the correct one |
| Catalog.OtherWordsExact | app.py:258-259 | in a catalog of distinct words that holds the correct word, the pool has one word fewer than the catalog and no duplicates, so `random.sample` gets min(3, n-1) distinct distractors |
| Common.AppendAbsent | app.py:217-218 | "append if not in": the result holds exactly the old elements plus the new one, keeps the old ones as a prefix, adds at most one, changes nothing when the element is present, and keeps a list free of duplicates |
| SessionState.Init | app.py:26-47 | the default of every key: nothing taught, scored or achieved, round 1 in learn mode with no question, today's date, and a rollover on the same day leaves it alone |
| SessionState.Rollover | app.py:54-58 | on a new date the daily counter and both daily-goal flags are reset and the date is stored; on the same date nothing changes; no other key changes |
| SessionState.Celebrate | app.py:77-92 | after the header the goal is marked celebrated exactly when it already was, or the mode is learn or quiz and today's count has reached the goal; nothing else changes |
| SessionState.CheckAchievements | app.py:95-102 | "Streak Master" is held afterwards iff it was held before or the streak is at least 3, and "Word Collector" iff it was held before or every word was learned; old achievements stay as a prefix, at most two are added, no duplicate appears, and no other key changes |
| SessionState.LearnWord | app.py:212-220 | Next moves the position on by one; a word not yet learned this round is appended to the round's words, the review list gets it, and both counters grow by one; an already learned word changes none of these |
| SessionState.GoalOrQuiz | app.py:222-233 | a freshly met daily goal switches to the goal page and sets the completed flag, and the round check is skipped; otherwise 3 or more round words switch to a cleared quiz; otherwise nothing changes |
| SessionState.NextWord | app.py:212-235 | the whole Next button: position +1; score, high score, streak, round and achievements unchanged; a freshly met goal wins over the quiz and leaves the quiz keys alone; otherwise the mode is quiz with cleared quiz keys iff the round has 3 words, else learn |
| SessionState.DrawGivesWellFormedOptions | app.py:255-262 | every draw the random calls can return gives options that hold the correct word exactly once, no word twice, only catalog words, and min(4, catalog size) words |
| SessionState.GenerateQuestion | app.py:255-262 | the question's word is one of the round's words, its options are well formed, and only the two question keys change |
| SessionState.ChooseOption | app.py:268-285 | an option marks the question submitted and stores the choice; a right one gives +10 score, +1 streak, a high score of at least the score, and an achievement check; a wrong one resets the streak and puts the word on the review list; the position, round, mode and daily keys stay |
| SessionState.EndRound | app.py:292-299 | leaving an answered question starts the next round in learn mode with no round words and cleared quiz keys; all progress keys stay |
| SessionState.Apply | app.py:134-320 | the mode-specific part of a run: a control the page does not show (`Offered` is false) changes nothing, Restart on a finished screen gives the defaults, and nothing but Restart touches the date or the celebrated flag |
| SessionState.Step | app.py:52-320 | one run of the script stores today's date, and when the pressed control is not on the page the run does only the rollover and the header |
| SessionState.Run | app.py:52-320 | an empty sequence of runs leaves the session as it was, and after a non-empty one the stored date is the last run's date |
| SessionProperties.InitEstablishesInv | app.py:25-50 | the default session satisfies the invariant, has no question and is in learn mode on today's date |
| SessionProperties.NextLearnsNewWord | app.py:213-218 | in a reachable session the word Next shows was never learned, so both `not in` guards always hold: it is appended to the round's words and the review list, and both counters grow by one |
| SessionProperties.LearnWordExtends | app.py:213-220 | when the shown word is fresh, Next extends the review list to the taught prefix one word longer and the round's words to the last taught words one longer |
| SessionProperties.NextPreservesInv | app.py:212-235 | Next keeps the invariant |
| SessionProperties.GoalBeforeQuiz | app.py:222-227 | when the word that completes the round also meets the daily goal, Next leads to the goal page with the round's words kept, not to the quiz |
| SessionProperties.DrawExists | app.py:255-261 | in a reachable quiz without a question, the round's words are not empty and a valid draw exists, so `random.choice` and `random.sample` cannot fail |
| SessionProperties.GeneratePreservesInv | app.py:255-262 | drawing a question keeps the invariant |
| SessionProperties.WrongAnswerKeepsReviewList | app.py:283-284 | in a reachable session the correct word of a question is already on the review list, so a wrong answer leaves the list as it was |
| SessionProperties.ChoosePreservesInv | app.py:268-285 | answering keeps the invariant |
| SessionProperties.EndRoundPreservesInv | app.py:288-316 | leaving an answered question keeps the invariant |
| SessionProperties.HeaderPreservesInv | app.py:54-92 | the rollover followed by the header keeps the invariant |
| SessionProperties.ApplyPreservesInv | app.py:134-320 | whatever button is pressed, or none, the mode-specific part of a run keeps the invariant |
| SessionProperties.StepPreservesInv | app.py:52-320 | one whole run of the script keeps the invariant |
| SessionProperties.RunPreservesInv | app.py:52-320 | every sequence of runs from a reachable session stays reachable |
| SessionProperties.InvConsequences | app.py:180-246 | a reachable session has the position within the catalog, no duplicates in the review list or the round's words, only catalog words on the review list, high score at least the score, round at most TOTAL_ROUNDS + 1, at least 3 round words in quiz mode, and a question's word is a catalog word |
| SessionProperties.AchievementOrder | app.py:97-102 | when both achievements unlock in one check, "Streak Master" is appended before "Word Collector" |
| SessionProperties.NextProgresses | app.py:212-235 | Next never lowers the position, total learned, score, high score or achievements |
| SessionProperties.ChooseProgresses | app.py:268-285 | answering never lowers them either |
| SessionProperties.ApplyProgresses | app.py:134-320 | no button but Restart lowers them |
| SessionProperties.StepProgresses | app.py:52-320 | no run without Restart lowers them |
| SessionProperties.RunProgresses | app.py:52-320 | no sequence of runs without Restart lowers them |
| SessionProperties.SecondChoiceIgnored | app.py:268-286 | once a question is answered the option buttons are gone, and pressing one changes nothing |
| SessionProperties.FinishedIsFinal | app.py:180-187 | on a finished screen (all words taught, or all rounds played) every input except Restart leaves the session as the rollover and header left it |
| SessionProperties.RestartResets | app.py:183-186 | Restart on a finished screen brings back the default session |
| SessionStore.Defaults | app.py:26-47 | the defaults dictionary holds every session key, and the date key holds today's date |
| SessionStore.Encode | app.py:26-47 | the dictionary of any session holds every session key |
| SessionStore.InitState | app.py:48-50 | `init_state` adds exactly the missing default keys with their default values, keeps every stored key's value, and changes nothing when every key is present |
| SessionStore.ClearSession | app.py:184-185 | deleting every stored key leaves the empty session |
| SessionStore.DefaultsAreInit | app.py:26-47 | every encoded session has exactly the default keys, and the defaults dictionary is the encoding of the initial state |
| SessionStore.StartSession | app.py:25-52 | the first run stores the initial state |
| SessionStore.ContinueSession | app.py:48-52 | a later run's `init_state` leaves a stored session exactly as it was |
| SessionStore.RestartSession | app.py:183-186 | Restart followed by `init_state` stores the initial state, whatever was stored before |
| Game.Session.constructor | app.py:25-50 | a new session holds the defaults and satisfies the invariant |
| Game.Session.RolloverDay | app.py:54-58 | the date check at the top of a run, with the effect of `SessionState.Rollover` |
| Game.Session.ShowHeader | app.py:77-92 | the header, with the effect of `SessionState.Celebrate` |
| Game.Session.ToggleTranslation | app.py:197 | the translation checkbox stores its value and nothing else |
| Game.Session.LearnWord | app.py:212-220 | the bookkeeping of Next, with the effect of `SessionState.LearnWord` |
| Game.Session.GoalOrQuiz | app.py:222-233 | the goal and round checks of Next, with the effect of `SessionState.GoalOrQuiz` |
| Game.Session.Next | app.py:212-235 | the Next button, with the effect of `SessionState.NextWord`, keeping the invariant |
| Game.Session.GenerateQuestion | app.py:255-262 | drawing a question, with the effect of `SessionState.GenerateQuestion`, keeping the invariant |
| Game.Session.CheckAchievements | app.py:95-102 | the achievement check: the returned list is exactly what was appended, with the effect of `SessionState.CheckAchievements` |
| Game.Session.RecordAnswer | app.py:273-285 | the bookkeeping of an option button, with the effect of `SessionState.ChooseOption` |
| Game.Session.Choose | app.py:268-286 | an option button, with the effect of `SessionState.ChooseOption`, keeping the invariant |
| Game.Session.StartNextRound | app.py:292-299 | leaving an answered question, with the effect of `SessionState.EndRound`, keeping the invariant |
| Game.Session.GoToReview | app.py:237-240 | a review button (in learn mode here, and likewise on the goal page at app.py:170-172 and after a wrong answer at app.py:304-306) switches to review mode and changes nothing else |
| Game.Session.BackToLearn | app.py:157-159 | "Back to Learn" switches to learn mode and changes nothing else |
| Game.Session.ContinueLearning | app.py:166-168 | "Continue Learning" switches to learn mode and changes nothing else |
| Game.Session.Restart | app.py:183-186 | Restart stores the default session |
| Game.Session.Dispatch | app.py:162-320 | the mode-specific part of a run, with the effect of `SessionState.Apply`, keeping the invariant |
| Game.Session.Handle | app.py:52-320 | one whole run, with the effect of `SessionState.Step`, keeping the invariant |

## Left out

- Everything the page only displays: titles, images, columns, the score line, the progress bar at app.py:87, balloons and messages. `st.rerun()` and `st.stop()` are modelled only as the end of the run's effects.
- Text to speech (app.py:61-74) and the "Read word" and "Read example" buttons. These call a remote service and change no session key.
- SessionState.Apply: assumes the text-to-speech call returns. At app.py:290 it runs before the round-ending writes at app.py:292-299, and at app.py:303 before the review and continue buttons are drawn; nothing catches its errors, so a failing call ends the run with no change, while the model's plain render always ends a correctly answered round. Such a run is a run that changes nothing, so every invariant and progress lemma still holds of it.
- Pronunciation practice (app.py:109-131). It uses the microphone and a speech-recognition service and changes no session key.
- The pause after a correct answer (app.py:291). It only delays the run.
- Loading `words.json` (app.py:12-17). The catalog is a parameter. A missing translation is the empty string in `WordItem`. The catalog's words are assumed distinct (`Catalog.WellFormed`), since the game looks records up by word.
- The record lookups `next(...)` at app.py:144 and app.py:264. They only read. In a reachable session every review-list word and the question's word are catalog words (`SessionProperties.InvConsequences`), so they cannot fail.
- "End Session" on the goal page (app.py:174-176). It writes no key.
- The translation checkboxes of review mode (app.py:152). They have their own widget keys and are not session keys of the game.
- Randomness: `SessionState.GenerateQuestion` and `Game.Session.GenerateQuestion` take the outcome of the random calls as a parameter. A plain render whose draw is not one the random calls can return changes nothing. `SessionProperties.DrawExists` shows that a valid draw always exists.
- The clock: `date.today()` is the `today` parameter of every run.
- `generate_json.py`. It is an offline tool that writes the word file and is not part of the game.
- Game.Session: the session record is one `state` field. Each method reassigns it key by key, rather than keeping one Dafny field per key. With one field per key, the frame reasoning of the larger handlers exceeds the verifier's resource limit. Aliasing between keys cannot arise either way, because the keys hold values.
- Game.Session.Restart: assigns the default record directly. The delete loop and the refill by `init_state` on the next run are modelled on the dictionary in `SessionStore.RestartSession`.
- The mapping between `SessionStore`'s dictionary and `SessionState`'s record is proved for the defaults (`SessionStore.DefaultsAreInit`) but not in general. A decoder and its round trip are not part of this model.
- Python integers are unbounded, and so are the model's; no key can overflow.
