/** The profile page (components/Profile.tsx): the average and best quiz
    result, the three most recent results, the colour band of a score and
    the streak badges. The score list is a value here, so sorting it for the
    best result cannot disturb the profile's own list. */
module ProfileView {
  import opened Types
  import opened Numbers
  import opened Seqs

  /** "Avg Score": the rounded mean of all scores, 0 without any. */
  function AvgScore(scores: seq<QuizScoreRecord>): (r: nat)
    ensures scores == [] ==> r == 0
    ensures (forall i :: 0 <= i < |scores| ==> scores[i].score <= 100) ==> r <= 100
  {
    MeanRoundedAtMost(Scores(scores), 100);
    MeanRounded(Scores(scores))
  }

  /** The average lies between the lowest and the highest score. */
  lemma AvgScoreBetween(scores: seq<QuizScoreRecord>, lo: nat, hi: nat)
    requires |scores| > 0
    requires forall i :: 0 <= i < |scores| ==> lo <= scores[i].score <= hi
    ensures lo <= AvgScore(scores) <= hi
  {
    MeanRoundedBounds(Scores(scores), lo, hi);
  }

  /** Where the head of the stable sort by descending score comes from: the
      first of the records with the highest score. */
  function BestIndex(scores: seq<QuizScoreRecord>): (k: nat)
    requires |scores| > 0
    ensures k < |scores|
    ensures forall i :: 0 <= i < |scores| ==> scores[i].score <= scores[k].score
    ensures forall i :: 0 <= i < k ==> scores[i].score < scores[k].score
  {
    if |scores| == 1 then 0
    else
      var k := BestIndex(scores[..|scores| - 1]);
      if scores[|scores| - 1].score > scores[k].score then |scores| - 1 else k
  }

  /** "Star Pupil Domain": absent exactly when there are no scores, otherwise
      a record of the list with the highest score and no earlier record
      scoring as much. */
  function BestTopic(scores: seq<QuizScoreRecord>): (r: Option<QuizScoreRecord>)
    ensures r.None? <==> scores == []
    ensures r.Some? ==>
      exists k :: 0 <= k < |scores| && scores[k] == r.value &&
        (forall i :: 0 <= i < |scores| ==> scores[i].score <= r.value.score) &&
        (forall i :: 0 <= i < k ==> scores[i].score < r.value.score)
  {
    if scores == [] then None else Some(scores[BestIndex(scores)])
  }

  /** "Recent Milestones": the last three records at most, newest first. */
  function RecentMilestones(scores: seq<QuizScoreRecord>): (r: seq<QuizScoreRecord>)
    ensures |r| == Min(3, |scores|)
    ensures forall k :: 0 <= k < |r| ==> r[k] == scores[|scores| - 1 - k]
  {
    Reverse(TakeLast(scores, 3))
  }

  datatype ScoreBand = Top | Middle | Low

  /** The colour of a milestone's score: every score is in exactly one band. */
  function Band(score: nat): (b: ScoreBand)
    ensures b == Top <==> score >= 80
    ensures b == Middle <==> 50 <= score < 80
    ensures b == Low <==> score < 50
  {
    if score >= 80 then Top else if score >= 50 then Middle else Low
  }

  function BandRank(b: ScoreBand): nat
  {
    match b
    case Low => 0
    case Middle => 1
    case Top => 2
  }

  /** A higher score never gets a lower band. */
  lemma BandMonotone(s1: nat, s2: nat)
    requires s1 <= s2
    ensures BandRank(Band(s1)) <= BandRank(Band(s2))
  {
  }

  /** The flame icon on the avatar and the "Day Streak" label. */
  datatype StreakBadges = StreakBadges(icon: bool, dayLabel: bool)

  function Badges(streak: nat): (b: StreakBadges)
    ensures b.icon <==> streak > 0
    ensures b.dayLabel <==> streak > 1
    ensures b.dayLabel ==> b.icon
  {
    StreakBadges(streak > 0, streak > 1)
  }
}
