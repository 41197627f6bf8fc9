/** The quiz (components/QuizView.tsx): one question at a time; select an
    option, check it, move on, and report a percentage at the end. */
module QuizView {
  import opened Types
  import opened Numbers

  /** The reported percentage, `Math.round(correct / total * 100)`. */
  function FinalScore(correct: nat, total: nat): (r: nat)
    requires total > 0
    ensures total * (2 * r - 1) <= 200 * correct < total * (2 * r + 1)
    ensures correct <= total ==> r <= 100
    ensures correct == total ==> r == 100
    ensures correct == 0 ==> r == 0
  {
    PercentOf(correct, total);
    RoundDiv(100 * correct, total)
  }

  /** The progress label, `Math.round((idx + 1) / total * 100)`; the last
      question reads 100. */
  function ProgressPercent(idx: nat, total: nat): (r: nat)
    requires total > 0
    ensures total * (2 * r - 1) <= 200 * (idx + 1) < total * (2 * r + 1)
    ensures idx < total ==> r <= 100
    ensures idx + 1 == total ==> r == 100
  {
    PercentOf(idx + 1, total);
    RoundDiv(100 * (idx + 1), total)
  }

  /** The progress label never goes down as the quiz advances. */
  lemma ProgressMonotone(i: nat, j: nat, total: nat)
    requires total > 0 && i <= j
    ensures ProgressPercent(i, total) <= ProgressPercent(j, total)
  {
    RoundDivMonotone(100 * (i + 1), 100 * (j + 1), total);
  }

  /** `if (!selectedOption) return;` lets through a selection that is
      neither missing nor the empty string. */
  predicate HasSelection(selected: Option<string>): (b: bool)
    ensures b <==> selected.Some? && |selected.value| > 0
  {
    selected.Some? && selected.value != ""
  }

  class Quiz {
    const questions: seq<QuizQuestion>
    var currentIdx: nat
    var selectedOption: Option<string>
    var isAnswered: bool
    var correctCount: nat

    /** The quiz renders `questions[currentIdx]`, so there is one. */
    ghost predicate Valid()
      reads this
    {
      0 < |questions| && currentIdx < |questions|
    }

    /** What the buttons on offer keep true: a question counts at most once
        and only after it was checked with a selection. */
    ghost predicate Consistent()
      reads this
    {
      correctCount <= currentIdx + (if isAnswered then 1 else 0) &&
      (isAnswered ==> HasSelection(selectedOption))
    }

    /** "Check Answer" is shown while the question is unanswered and enabled
        with a selection; "Next" / "Finish" is shown once it is answered. */
    predicate CheckEnabled(): (b: bool)
      reads this
      ensures b ==> !isAnswered && selectedOption.Some? && |selectedOption.value| > 0
      ensures isAnswered || selectedOption == None || selectedOption == Some("") ==> !b
    {
      !isAnswered && HasSelection(selectedOption)
    }

    constructor (questions: seq<QuizQuestion>)
      requires |questions| > 0
      ensures this.questions == questions && Valid() && Consistent()
      ensures currentIdx == 0 && selectedOption == None && !isAnswered && correctCount == 0
    {
      this.questions := questions;
      currentIdx := 0;
      selectedOption := None;
      isAnswered := false;
      correctCount := 0;
    }

    function Progress(): (r: nat)
      requires Valid()
      reads this
      ensures r <= 100
    {
      ProgressPercent(currentIdx, |questions|)
    }

    /** Choosing an option; ignored once the question is answered. */
    method HandleSelect(option: string)
      requires Valid()
      modifies this
      ensures Valid()
      ensures old(isAnswered) ==> selectedOption == old(selectedOption)
      ensures !old(isAnswered) ==> selectedOption == Some(option)
      ensures currentIdx == old(currentIdx) && isAnswered == old(isAnswered) && correctCount == old(correctCount)
      ensures old(Consistent()) ==> Consistent()
    {
      if isAnswered {
        return;
      }
      selectedOption := Some(option);
    }

    /** Marks the question answered and counts it when the selection is the
        correct answer; does nothing without a selection. */
    method CheckAnswer()
      requires Valid()
      modifies this
      ensures Valid()
      ensures !HasSelection(old(selectedOption)) ==>
        isAnswered == old(isAnswered) && correctCount == old(correctCount)
      ensures HasSelection(old(selectedOption)) ==>
        isAnswered &&
        correctCount == old(correctCount) +
          (if old(selectedOption).value == questions[currentIdx].correctAnswer then 1 else 0)
      ensures currentIdx == old(currentIdx) && selectedOption == old(selectedOption)
      ensures old(Consistent()) && old(CheckEnabled()) ==> Consistent()
      ensures old(CheckEnabled()) ==> isAnswered && !CheckEnabled()
    {
      if !HasSelection(selectedOption) {
        return;
      }
      if selectedOption.value == questions[currentIdx].correctAnswer {
        correctCount := correctCount + 1;
      }
      isAnswered := true;
    }

    /** Moves to the next question, or on the last one reports the final
        score and stays where it is. */
    method HandleNext() returns (completed: Option<nat>)
      requires Valid()
      modifies this
      ensures Valid()
      ensures old(currentIdx) < |questions| - 1 ==>
        currentIdx == old(currentIdx) + 1 && selectedOption == None && !isAnswered &&
        correctCount == old(correctCount) && completed == None
      ensures old(currentIdx) == |questions| - 1 ==>
        currentIdx == old(currentIdx) && selectedOption == old(selectedOption) &&
        isAnswered == old(isAnswered) && correctCount == old(correctCount) &&
        completed == Some(FinalScore(correctCount, |questions|))
      ensures old(Consistent()) ==> Consistent()
      ensures old(Consistent()) && completed.Some? ==> completed.value <= 100
    {
      if currentIdx < |questions| - 1 {
        currentIdx := currentIdx + 1;
        selectedOption := None;
        isAnswered := false;
        completed := None;
      } else {
        completed := Some(FinalScore(correctCount, |questions|));
      }
    }
  }

  /** Answering every question of a two-question quiz correctly reports 100. */
  method PerfectRun() returns (score: Option<nat>)
    ensures score == Some(100)
  {
    var q := new Quiz([QuizQuestion("2+2?", ["3", "4"], "4"), QuizQuestion("Sky?", ["blue"], "blue")]);
    q.HandleSelect("4");
    q.CheckAnswer();
    var step := q.HandleNext();
    q.HandleSelect("blue");
    q.CheckAnswer();
    score := q.HandleNext();
  }
}
