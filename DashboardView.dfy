/** The dashboard (components/Dashboard.tsx): the level gate in front of a new
    lesson, and the analytics over the learner's scores and topics. */
module DashboardView {
  import opened Types
  import opened Numbers
  import opened Seqs
  import opened Text

  datatype Domain = Tech | Science | Arts | Other

  /** The order the domains are listed and sorted in. */
  const Domains: seq<Domain> := [Tech, Science, Arts, Other]

  function Position(d: Domain): (p: nat)
    ensures p < |Domains| && Domains[p] == d
  {
    match d
    case Tech => 0
    case Science => 1
    case Arts => 2
    case Other => 3
  }

  const TechWords: seq<string> := ["ai", "code", "data", "web", "software", "crypto", "tech"]
  const ScienceWords: seq<string> := ["bio", "chem", "phys", "math", "science", "space"]
  const ArtsWords: seq<string> := ["art", "music", "paint", "jazz", "history", "philosophy"]

  /** The keyword classifier: the lower-cased topic is tested against the Tech,
      Science and Arts keywords in that order, and the first match wins. */
  function Classify(topic: string): (d: Domain)
    ensures d == Tech <==> MatchesAny(ToLower(topic), TechWords)
    ensures d == Science <==>
      !MatchesAny(ToLower(topic), TechWords) && MatchesAny(ToLower(topic), ScienceWords)
    ensures d == Arts <==>
      !MatchesAny(ToLower(topic), TechWords) && !MatchesAny(ToLower(topic), ScienceWords) &&
      MatchesAny(ToLower(topic), ArtsWords)
  {
    var lower := ToLower(topic);
    if MatchesAny(lower, TechWords) then Tech
    else if MatchesAny(lower, ScienceWords) then Science
    else if MatchesAny(lower, ArtsWords) then Arts
    else Other
  }

  /** Substring matching, not word matching: "paint" holds "ai" and counts as Tech. */
  lemma PaintIsTech()
    ensures Classify("paint") == Tech
  {
    var paint := "paint";
    var lower := ToLower(paint);
    assert lower[1..3] == "ai" by {
      assert lower[1] == LowerChar(paint[1]) == 'a';
      assert lower[2] == LowerChar(paint[2]) == 'i';
    }
    assert Contains(lower[1..], TechWords[0]) by {
      assert lower[1..][..2] == lower[1..3];
    }
    assert Contains(lower, TechWords[0]);
  }

  /** A topic whose lower-cased form starts with a Tech keyword is Tech. */
  lemma StartsWithTechWord(topic: string, k: nat)
    requires k < |TechWords| && |TechWords[k]| <= |topic|
    requires forall i :: 0 <= i < |TechWords[k]| ==> LowerChar(topic[i]) == TechWords[k][i]
    ensures Classify(topic) == Tech
  {
    var lower := ToLower(topic);
    assert lower[..|TechWords[k]|] == TechWords[k];
    assert Contains(lower, TechWords[k]);
  }

  /** The first matching list wins: "Data Science" is Tech, not Science. */
  lemma DataScienceIsTech()
    ensures Classify("Data Science") == Tech
  {
    var topic := "Data Science";
    assert TechWords[2] == "data";
    assert LowerChar(topic[0]) == 'd' && LowerChar(topic[1]) == 'a';
    assert LowerChar(topic[2]) == 't' && LowerChar(topic[3]) == 'a';
    StartsWithTechWord(topic, 2);
  }

  /** How many of `topics` the classifier puts in `d`. */
  function CountIn(topics: seq<string>, d: Domain): nat
  {
    if topics == [] then 0
    else CountIn(topics[..|topics| - 1], d) + (if Classify(topics[|topics| - 1]) == d then 1 else 0)
  }

  /** Every topic lands in exactly one domain. */
  lemma {:induction false} CountsCoverTopics(topics: seq<string>)
    ensures CountIn(topics, Tech) + CountIn(topics, Science) + CountIn(topics, Arts) + CountIn(topics, Other)
            == |topics|
  {
    if topics != [] {
      CountsCoverTopics(topics[..|topics| - 1]);
    }
  }

  /** The `forEach` over the completed topics that increments one entry of
      `domainCounts` per topic. */
  method DomainCounts(topics: seq<string>) returns (counts: map<Domain, nat>)
    ensures counts.Keys == {Tech, Science, Arts, Other}
    ensures forall d :: d in counts ==> counts[d] == CountIn(topics, d)
    ensures counts[Tech] + counts[Science] + counts[Arts] + counts[Other] == |topics|
  {
    counts := map[Tech := 0, Science := 0, Arts := 0, Other := 0];
    var i := 0;
    while i < |topics|
      invariant 0 <= i <= |topics|
      invariant counts.Keys == {Tech, Science, Arts, Other}
      invariant forall d :: d in counts ==> counts[d] == CountIn(topics[..i], d)
    {
      var d := Classify(topics[i]);
      counts := counts[d := counts[d] + 1];
      assert topics[..i + 1][..i] == topics[..i];
      i := i + 1;
    }
    assert topics[..i] == topics;
    CountsCoverTopics(topics);
  }

  /** `scores.slice(-7)`: the last seven records, or all of them, in order. */
  function RecentScores(scores: seq<QuizScoreRecord>): (r: seq<QuizScoreRecord>)
    ensures |r| == Min(7, |scores|)
    ensures forall k :: 0 <= k < |r| ==> r[k] == scores[|scores| - |r| + k]
  {
    TakeLast(scores, 7)
  }

  /** The "Mastery Trend": the rounded mean of the recent scores, 0 without any. */
  function MasteryTrend(scores: seq<QuizScoreRecord>): (r: nat)
    ensures scores == [] ==> r == 0
    ensures (forall i :: 0 <= i < |scores| ==> scores[i].score <= 100) ==> r <= 100
  {
    var recent := Scores(RecentScores(scores));
    MeanRoundedAtMost(recent, 100);
    MeanRounded(recent)
  }

  /** "Most Explored": the entries, listed Tech, Science, Arts, Other, sorted
      by count, highest first, with a stable sort, and the first taken. The
      result has the largest count, and every domain listed before it has a
      smaller one. */
  function MostExplored(counts: map<Domain, nat>): (d: Domain)
    requires counts.Keys == {Tech, Science, Arts, Other}
    ensures forall k :: 0 <= k < |Domains| ==> counts[Domains[k]] <= counts[d]
    ensures forall k :: 0 <= k < Position(d) ==> counts[Domains[k]] < counts[d]
  {
    var first := if counts[Science] > counts[Tech] then Science else Tech;
    var second := if counts[Arts] > counts[first] then Arts else first;
    if counts[Other] > counts[second] then Other else second
  }

  /** The `|| 'None'` fallback is never reached: with no topics at all every
      count is 0 and "Tech" is shown. */
  lemma MostExploredWithoutTopics(counts: map<Domain, nat>)
    requires counts == map[Tech := 0, Science := 0, Arts := 0, Other := 0]
    ensures MostExplored(counts) == Tech
  {
  }

  /** Whether a difficulty needs a higher tier. */
  function IsLevelLocked(tier: SubscriptionTier, level: DifficultyLevel): (locked: bool)
    ensures level == Beginner ==> !locked
    ensures level == Intermediate ==> (locked <==> tier == Free)
    ensures level == Advanced ==> (locked <==> tier != Pro)
  {
    if level == Intermediate && tier == Free then true
    else if level == Advanced && tier != Pro then true
    else false
  }

  /** A higher tier unlocks everything a lower one does. */
  lemma LevelLockMonotone(lower: SubscriptionTier, higher: SubscriptionTier, level: DifficultyLevel)
    requires Rank(lower) <= Rank(higher)
    ensures IsLevelLocked(higher, level) ==> IsLevelLocked(lower, level)
  {
  }

  datatype SubmitAction =
    | Ignored
    | RequestUpgrade(tier: SubscriptionTier)
    | StartLearning(topic: string, level: DifficultyLevel)

  /** The lesson form: a blank topic or a lesson already loading is ignored; a
      locked level asks for the tier that unlocks it; otherwise the lesson
      starts with the topic as typed. */
  function HandleSubmit(topic: string, level: DifficultyLevel, tier: SubscriptionTier, loading: bool): (a: SubmitAction)
    ensures a == Ignored <==> IsBlank(topic) || loading
    ensures a.StartLearning? <==> !IsBlank(topic) && !loading && !IsLevelLocked(tier, level)
    ensures a.StartLearning? ==> a.topic == topic && a.level == level
    ensures a.RequestUpgrade? ==>
      IsLevelLocked(tier, level) && !IsLevelLocked(a.tier, level) && Rank(a.tier) > Rank(tier) &&
      a.tier == (if level == Intermediate then Premium else Pro)
  {
    if Trim(topic) == [] || loading then Ignored
    else if level == Intermediate && tier == Free then RequestUpgrade(Premium)
    else if level == Advanced && tier != Pro then RequestUpgrade(Pro)
    else StartLearning(topic, level)
  }
}
