/** The cultural challenge (src/components/game/challenges/CulturalChallenge.tsx): three
    etiquette scenarios, one recorded choice per scenario, passed with half of them right. */
module CulturalChallenge {

  /** The right option of each scenario, in order (dinner invitation, toast, church visit). */
  const correctOptions: seq<int> := [3, 2, 2]

  /** `Math.ceil(n / 2)`: the least count that is at least half of `n`. */
  function PassMark(n: nat): (r: nat)
    ensures 2 * r >= n
    ensures r == 0 || 2 * (r - 1) < n
  {
    (n + 1) / 2
  }

  /** The number of recorded choices that match their scenario's right option. */
  function CountCorrect(choices: seq<int>): (c: nat)
    requires |choices| <= |correctOptions|
    ensures c <= |choices|
  {
    if choices == [] then 0
    else
      var n := |choices| - 1;
      CountCorrect(choices[..n]) + if choices[n] == correctOptions[n] then 1 else 0
  }

  /** Choosing every right option scores every scenario. */
  lemma {:induction false} AllRightScoresAll(k: nat)
    requires k <= |correctOptions|
    ensures CountCorrect(correctOptions[..k]) == k
  {
    if k > 0 {
      assert correctOptions[..k][..k - 1] == correctOptions[..k - 1];
      AllRightScoresAll(k - 1);
    }
  }

  /** Two of three right is the pass mark for the three scenarios. */
  lemma PassMarkForScenarios()
    ensures PassMark(|correctOptions|) == 2
  {
  }

  /** `calculateScore`: a counter raised for each recorded choice equal to its scenario's right
      option. */
  method CalculateScore(choices: seq<int>) returns (correctCount: nat)
    requires |choices| <= |correctOptions|
    ensures correctCount == CountCorrect(choices)
    ensures correctCount <= |choices|
  {
    correctCount := 0;
    var index := 0;
    while index < |choices|
      invariant 0 <= index <= |choices|
      invariant correctCount == CountCorrect(choices[..index])
    {
      assert choices[..index + 1][..index] == choices[..index];
      if choices[index] == correctOptions[index] {
        correctCount := correctCount + 1;
      }
      index := index + 1;
    }
    assert choices[..index] == choices;
  }

  /** The challenge's state cells. Choices are kept as option indices. */
  class Challenge {
    var currentStep: int
    var userChoices: seq<int>
    var completed: bool

    /** The invariant: one choice is on record for every scenario passed, plus the last one once
        the challenge is complete. */
    predicate Valid()
      reads this
    {
      && 0 <= currentStep < |correctOptions|
      && |userChoices| == currentStep + (if completed then 1 else 0)
      && (completed ==> currentStep == |correctOptions| - 1)
    }

    constructor ()
      ensures Valid()
      ensures currentStep == 0 && userChoices == [] && !completed
    {
      currentStep := 0;
      userChoices := [];
      completed := false;
    }

    /** A click on option `optionIndex`. The options are on screen only until completion, and a
        scenario that already has a recorded choice ignores clicks. Otherwise the choice is
        written at the current step, leaving the other entries alone, and (the delay taken as
        immediate) the next scenario comes up, or after the last one the challenge completes. */
    method SelectOption(optionIndex: int)
      requires Valid()
      modifies this
      ensures Valid()
      ensures old(completed || currentStep < |userChoices|) ==>
        currentStep == old(currentStep) && userChoices == old(userChoices) && completed == old(completed)
      ensures old(!completed && currentStep >= |userChoices|) ==>
        && |userChoices| == old(currentStep) + 1
        && userChoices[old(currentStep)] == optionIndex
        && (forall j :: 0 <= j < |userChoices| && j != old(currentStep) ==> userChoices[j] == old(userChoices)[j])
        && (old(currentStep) < |correctOptions| - 1 ==> currentStep == old(currentStep) + 1 && !completed)
        && (old(currentStep) == |correctOptions| - 1 ==> currentStep == old(currentStep) && completed)
    {
      if completed || currentStep < |userChoices| {
        return;
      }
      // the current step equals the array's length here, so writing at it appends
      userChoices := userChoices + [optionIndex];
      if currentStep < |correctOptions| - 1 {
        currentStep := currentStep + 1;
      } else {
        completed := true;
      }
    }

    /** The result page's verdict. */
    method Passed() returns (passed: bool)
      requires Valid()
      ensures passed <==> completed && CountCorrect(userChoices) >= PassMark(|correctOptions|)
    {
      if !completed {
        return false;
      }
      var score := CalculateScore(userChoices);
      passed := score >= PassMark(|correctOptions|);
    }

    /** Try Again: the first scenario, no choices, not completed. */
    method Retry()
      requires Valid()
      modifies this
      ensures Valid()
      ensures currentStep == 0 && userChoices == [] && !completed
    {
      currentStep := 0;
      userChoices := [];
      completed := false;
    }
  }
}
