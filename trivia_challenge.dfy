/** The trivia challenge (src/components/game/challenges/TriviaChallenge.tsx): a quiz over the
    destination's question bank, one answer per question, scored and passed at 60%. */
module TriviaChallenge {
  import opened Resources
  import opened HistoricalTrivia

  /** `Math.ceil(n * 0.6)`: the least score that is at least three fifths of `n`. */
  function PassScore(n: nat): (r: nat)
    ensures 5 * r >= 3 * n
    ensures r == 0 || 5 * (r - 1) < 3 * n
  {
    (3 * n + 4) / 5
  }

  /** A perfect score always passes, and the pass mark is never zero for a non-empty quiz. */
  lemma PassScoreWithinQuiz(n: nat)
    ensures PassScore(n) <= n
    ensures n > 0 ==> PassScore(n) > 0
  {
  }

  /** Every destination's quiz has three questions, so two right answers pass it. */
  lemma BankPassScore(destinationId: string)
    requires destinationId in historicalTrivia
    ensures PassScore(|GetHistoricalTrivia(destinationId)|) == 2
  {
    BankShape(destinationId);
  }

  /** The quiz component's state cells. */
  class Quiz {
    var questions: seq<TriviaQuestion>
    var currentQuestionIndex: int
    var selectedAnswer: Option<int>
    var isCorrect: Option<bool>
    var score: int
    var showResult: bool

    /** Questions answered so far: those before the current one, plus the current one once the
        result is showing. */
    function Answered(): int
      reads this
    {
      currentQuestionIndex + if showResult then 1 else 0
    }

    /** The quiz invariant: the index stays on a question, the score never exceeds the answers
        given, nor the answers the questions; a selection is on record only on the result page. */
    predicate Valid()
      reads this
    {
      && 0 <= currentQuestionIndex
      && (|questions| == 0 ==> currentQuestionIndex == 0 && !showResult)
      && (|questions| > 0 ==> currentQuestionIndex < |questions|)
      && (showResult ==> currentQuestionIndex == |questions| - 1)
      && 0 <= score <= Answered() <= |questions|
      && (selectedAnswer.Some? <==> showResult)
      && (isCorrect.Some? <==> showResult)
    }

    /** The quiz as mounted: the load effect fills the bank for the excursion's destination. */
    constructor (destinationId: string)
      ensures Valid()
      ensures questions == GetHistoricalTrivia(destinationId)
      ensures currentQuestionIndex == 0 && score == 0 && !showResult
      ensures selectedAnswer == None && isCorrect == None
    {
      questions := GetHistoricalTrivia(destinationId);
      currentQuestionIndex := 0;
      selectedAnswer := None;
      isCorrect := None;
      score := 0;
      showResult := false;
    }

    /** A click on answer `answerIndex`. The answer buttons are on screen only while a question
        is shown, and a click is ignored once an answer is selected. Otherwise the score gains one
        exactly for the right answer, and (the delay taken as immediate) the quiz moves to the next
        question, or after the last one shows the result with the selection still on record. */
    method SelectAnswer(answerIndex: int)
      requires Valid()
      modifies this
      ensures Valid()
      ensures questions == old(questions)
      ensures old(|questions| == 0 || showResult || selectedAnswer.Some?) ==>
        currentQuestionIndex == old(currentQuestionIndex) && score == old(score) &&
        showResult == old(showResult) && selectedAnswer == old(selectedAnswer) && isCorrect == old(isCorrect)
      ensures old(|questions| > 0 && !showResult && selectedAnswer.None?) ==>
        var correct := answerIndex == old(questions[currentQuestionIndex].correctAnswerIndex);
        && score == old(score) + (if correct then 1 else 0)
        && Answered() == old(Answered()) + 1
        && (old(currentQuestionIndex) < |questions| - 1 ==>
              currentQuestionIndex == old(currentQuestionIndex) + 1 && !showResult &&
              selectedAnswer == None && isCorrect == None)
        && (old(currentQuestionIndex) == |questions| - 1 ==>
              currentQuestionIndex == old(currentQuestionIndex) && showResult &&
              selectedAnswer == Some(answerIndex) && isCorrect == Some(correct))
    {
      if |questions| == 0 || showResult || selectedAnswer.Some? {
        return;
      }
      selectedAnswer := Some(answerIndex);
      var correct := answerIndex == questions[currentQuestionIndex].correctAnswerIndex;
      isCorrect := Some(correct);
      if correct {
        score := score + 1;
      }
      if currentQuestionIndex < |questions| - 1 {
        currentQuestionIndex := currentQuestionIndex + 1;
        selectedAnswer := None;
        isCorrect := None;
      } else {
        showResult := true;
      }
    }

    /** The result page's verdict: passed once the score reaches the pass mark. */
    predicate Passed()
      reads this
    {
      showResult && score >= PassScore(|questions|)
    }

    /** Try Again: back to the first question with no score, no selection and no result. */
    method Retry()
      requires Valid()
      modifies this
      ensures Valid()
      ensures questions == old(questions)
      ensures currentQuestionIndex == 0 && score == 0 && !showResult
      ensures selectedAnswer == None && isCorrect == None
    {
      currentQuestionIndex := 0;
      selectedAnswer := None;
      isCorrect := None;
      score := 0;
      showResult := false;
    }
  }
}
