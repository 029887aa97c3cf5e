/**
 * The session record as the page script stores it: a dictionary from key
 * names to values.  At the start of every run `init_state` walks the default
 * entries and adds each key that is missing; Restart walks the stored keys
 * and deletes each one, so that the next run's `init_state` brings every
 * default back.
 */
module SessionStore {
  import opened Common
  import S = SessionState

  datatype Key =
    | Index | LearnedWords | Mode | Round | TotalLearned | Score | HighScore | Streak
    | Achievements | QuizCorrectWord | QuizOptions | QuizResult | QuizSubmitted
    | SelectedOption | DailyDate | DailyLearned | ShowTranslation | ReviewList
    | DailyGoalCelebrated | DailyGoalCompleted

  /** The kinds of value the session dictionary holds; `Null` is Python's `None`. */
  datatype Value = Int(n: int) | Text(t: string) | TextList(ts: seq<string>) | Flag(b: bool) | Null

  /** A key is one of the twenty session keys. */
  lemma KeyCases(k: Key)
    ensures k in {Index, LearnedWords, Mode, Round, TotalLearned, Score, HighScore, Streak, Achievements,
                  QuizCorrectWord, QuizOptions, QuizResult, QuizSubmitted, SelectedOption, DailyDate,
                  DailyLearned, ShowTranslation, ReviewList, DailyGoalCelebrated, DailyGoalCompleted}
  {
  }

  /** The `defaults` dictionary of `init_state`. */
  function Defaults(today: string): (r: map<Key, Value>)
    ensures forall k: Key :: k in r
    ensures r[DailyDate] == Text(today)
  {
    var r := map[
      Index := Int(0), LearnedWords := TextList([]), Mode := Text("learn"), Round := Int(1),
      TotalLearned := Int(0), Score := Int(0), HighScore := Int(0), Streak := Int(0),
      Achievements := TextList([]), QuizCorrectWord := Null, QuizOptions := TextList([]),
      QuizResult := Null, QuizSubmitted := Flag(false), SelectedOption := Null,
      DailyDate := Text(today), DailyLearned := Int(0), ShowTranslation := Flag(false),
      ReviewList := TextList([]), DailyGoalCelebrated := Flag(false), DailyGoalCompleted := Flag(false)
    ];
    assert forall k: Key :: k in r by {
      forall k: Key ensures k in r {
        KeyCases(k);
      }
    }
    r
  }

  function ModeName(m: S.Mode): string
  {
    match m
    case Learn => "learn"
    case Quiz => "quiz"
    case Review => "review"
    case GoalCompleted => "goal_completed"
  }

  function AchievementName(a: S.Achievement): string
  {
    match a
    case StreakMaster => "Streak Master"
    case WordCollector => "Word Collector"
  }

  function AchievementNames(achs: seq<S.Achievement>): seq<string>
  {
    seq(|achs|, i requires 0 <= i < |achs| => AchievementName(achs[i]))
  }

  function OptionalText(o: Option<string>): Value
  {
    match o
    case None => Null
    case Some(w) => Text(w)
  }

  function ResultValue(r: Option<S.QuizResult>): Value
  {
    match r
    case None => Null
    case Some(Correct) => Text("correct")
    case Some(Wrong) => Text("wrong")
  }

  /** The dictionary that holds session `s`. */
  function Encode(s: S.State): (r: map<Key, Value>)
    ensures forall k: Key :: k in r
  {
    var r := map[
      Index := Int(s.index), LearnedWords := TextList(s.learnedWords), Mode := Text(ModeName(s.mode)),
      Round := Int(s.round), TotalLearned := Int(s.totalLearned), Score := Int(s.score),
      HighScore := Int(s.highScore), Streak := Int(s.streak),
      Achievements := TextList(AchievementNames(s.achievements)),
      QuizCorrectWord := OptionalText(s.quizCorrectWord), QuizOptions := TextList(s.quizOptions),
      QuizResult := ResultValue(s.quizResult), QuizSubmitted := Flag(s.quizSubmitted),
      SelectedOption := OptionalText(s.selectedOption), DailyDate := Text(s.dailyDate),
      DailyLearned := Int(s.dailyLearned), ShowTranslation := Flag(s.showTranslation),
      ReviewList := TextList(s.reviewList), DailyGoalCelebrated := Flag(s.dailyGoalCelebrated),
      DailyGoalCompleted := Flag(s.dailyGoalCompleted)
    ];
    assert forall k: Key :: k in r by {
      forall k: Key ensures k in r {
        KeyCases(k);
      }
    }
    r
  }

  /**
   * `init_state`: every default key missing from the session is added with its
   * default value; keys already present keep their values.
   */
  method InitState(session: map<Key, Value>, defaults: map<Key, Value>) returns (s: map<Key, Value>)
    ensures s.Keys == session.Keys + defaults.Keys
    ensures forall k :: k in session ==> s[k] == session[k]
    ensures forall k :: k in defaults && k !in session ==> s[k] == defaults[k]
    ensures defaults.Keys <= session.Keys ==> s == session
  {
    s := session;
    var pending := defaults.Keys;
    while pending != {}
      invariant pending <= defaults.Keys
      invariant s.Keys == session.Keys + (defaults.Keys - pending)
      invariant forall k :: k in session ==> s[k] == session[k]
      invariant forall k :: k in defaults && k !in pending && k !in session ==> s[k] == defaults[k]
      decreases pending
    {
      var key :| key in pending;
      if key !in s {
        s := s[key := defaults[key]];
      }
      pending := pending - {key};
    }
  }

  /** Restart's loop: every stored key is deleted. */
  method ClearSession(session: map<Key, Value>) returns (s: map<Key, Value>)
    ensures s == map[]
  {
    s := session;
    var keys := session.Keys;
    while keys != {}
      invariant s.Keys == keys
      decreases keys
    {
      var key :| key in keys;
      s := s - {key};
      keys := keys - {key};
    }
  }

  /** Every state holds every key of the default dictionary, and the defaults are the initial state. */
  lemma DefaultsAreInit(today: string, s: S.State)
    ensures Encode(s).Keys == Defaults(today).Keys
    ensures Defaults(today) == Encode(S.Init(today))
  {
    assert AchievementNames([]) == [];
  }

  /** The first run of a session: `init_state` on the empty dictionary stores the initial state. */
  method StartSession(today: string) returns (s: map<Key, Value>)
    ensures s == Encode(S.Init(today))
  {
    s := InitState(map[], Defaults(today));
    DefaultsAreInit(today, S.Init(today));
  }

  /** Any later run: `init_state` leaves a stored session exactly as it was. */
  method ContinueSession(st: S.State, today: string) returns (s: map<Key, Value>)
    ensures s == Encode(st)
  {
    DefaultsAreInit(today, st);
    s := InitState(Encode(st), Defaults(today));
  }

  /** Restart: deleting every key and rerunning `init_state` stores the initial state, whatever was stored before. */
  method RestartSession(session: map<Key, Value>, today: string) returns (s: map<Key, Value>)
    ensures s == Encode(S.Init(today))
  {
    var cleared := ClearSession(session);
    s := InitState(cleared, Defaults(today));
    DefaultsAreInit(today, S.Init(today));
  }
}
