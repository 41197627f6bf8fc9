/** The records and enumerations every screen shares (types.ts). */
module Types {

  datatype Option<T> = None | Some(value: T)

  datatype DifficultyLevel = Beginner | Intermediate | Advanced

  datatype SubscriptionTier = Free | Premium | Pro

  /** The screens of the application; `Dashboard`, `Profile` and `Plans` are
      screen names, not the components of the same names. */
  datatype AppScreen =
    | Landing | Login | Register | ForgotPassword
    | Dashboard | Profile | Learning | Plans

  datatype QuizQuestion = QuizQuestion(question: string, options: seq<string>, correctAnswer: string)

  datatype NextTopic = NextTopic(topic: string, difficulty: string)

  datatype LessonContent = LessonContent(
    topic: string,
    lesson: string,
    summary: seq<string>,
    quiz: seq<QuizQuestion>,
    nextTopics: seq<NextTopic>)

  /** One finished quiz or mastery mark; `date` is a millisecond timestamp. */
  datatype QuizScoreRecord = QuizScoreRecord(topic: string, score: nat, date: int, difficulty: DifficultyLevel)

  /** A learner's profile; `lastActiveDate` is absent until the first activity. */
  datatype UserProfile = UserProfile(
    email: string,
    learningProgress: nat,
    completedTopics: seq<string>,
    quizScores: seq<QuizScoreRecord>,
    tier: SubscriptionTier,
    streak: nat,
    lastActiveDate: Option<int>)

  /** The order of the tiers: each one includes what the ones below offer. */
  function Rank(t: SubscriptionTier): nat
  {
    match t
    case Free => 0
    case Premium => 1
    case Pro => 2
  }

  /** The scores of a list of records, in order. */
  function Scores(records: seq<QuizScoreRecord>): (r: seq<nat>)
    ensures |r| == |records|
    ensures forall i :: 0 <= i < |r| ==> r[i] == records[i].score
  {
    if records == [] then [] else Scores(records[..|records| - 1]) + [records[|records| - 1].score]
  }
}
