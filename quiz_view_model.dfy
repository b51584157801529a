/**
 * The quiz state machine: an answer is selected, `nextQuestion` scores it
 * and advances (or finishes on the last question), `restartQuiz` starts
 * over on the same questions. A ghost log of the submitted selections ties
 * the score to the number of correct answers.
 */
module Quiz {

  datatype QuizQuestion = QuizQuestion(question: string, options: seq<string>, correctAnswerIndex: int)

  /** How many of the submitted `answers` pick the correct option of the question at the same position. */
  function CountCorrect(questions: seq<QuizQuestion>, answers: seq<int>): (n: nat)
    requires |answers| <= |questions|
    ensures n <= |answers|
    decreases |answers|
  {
    if answers == [] then 0
    else
      var k := |answers| - 1;
      CountCorrect(questions, answers[..k]) + (if answers[k] == questions[k].correctAnswerIndex then 1 else 0)
  }

  lemma CountCorrectSnoc(questions: seq<QuizQuestion>, answers: seq<int>, a: int)
    requires |answers| < |questions|
    ensures CountCorrect(questions, answers + [a]) ==
      CountCorrect(questions, answers) + (if a == questions[|answers|].correctAnswerIndex then 1 else 0)
  {
    assert (answers + [a])[..|answers|] == answers;
  }

  /** Answering every question correctly scores one point per question. */
  lemma {:induction false} AllCorrectScoresEverything(questions: seq<QuizQuestion>, answers: seq<int>)
    requires |answers| <= |questions|
    requires forall i :: 0 <= i < |answers| ==> answers[i] == questions[i].correctAnswerIndex
    ensures CountCorrect(questions, answers) == |answers|
    decreases |answers|
  {
    if answers != [] {
      AllCorrectScoresEverything(questions, answers[..|answers| - 1]);
    }
  }

  /** Answering every question wrongly scores nothing. */
  lemma {:induction false} AllWrongScoresNothing(questions: seq<QuizQuestion>, answers: seq<int>)
    requires |answers| <= |questions|
    requires forall i :: 0 <= i < |answers| ==> answers[i] != questions[i].correctAnswerIndex
    ensures CountCorrect(questions, answers) == 0
    decreases |answers|
  {
    if answers != [] {
      AllWrongScoresNothing(questions, answers[..|answers| - 1]);
    }
  }

  class QuizViewModel {
    var questions: seq<QuizQuestion>
    var currentIndex: int
    var selectedAnswerIndex: int
    var score: int
    var isQuizFinished: bool
    /** The selections `nextQuestion` has scored since the last (re)start. */
    ghost var answers: seq<int>

    ghost predicate Valid()
      reads this
    {
      && |answers| <= |questions|
      && score == CountCorrect(questions, answers)
      && (|questions| == 0 ==> currentIndex == 0 && !isQuizFinished)
      && (|questions| > 0 ==> 0 <= currentIndex < |questions|)
      && (!isQuizFinished ==> |answers| == currentIndex)
      && (isQuizFinished ==> |answers| == |questions| && currentIndex == |questions| - 1)
    }

    /** The default `QuizUiState`: no questions, first index, nothing selected, score 0. */
    constructor ()
      ensures Valid()
      ensures questions == [] && currentIndex == 0 && selectedAnswerIndex == -1
      ensures score == 0 && !isQuizFinished && answers == []
    {
      questions := [];
      currentIndex := 0;
      selectedAnswerIndex := -1;
      score := 0;
      isQuizFinished := false;
      answers := [];
    }

    /** The state update of `loadQuizzes`: a non-empty fetched list replaces the questions. */
    method LoadQuizzes(quizzes: seq<QuizQuestion>)
      requires Valid() && answers == [] && !isQuizFinished
      modifies this
      ensures Valid()
      ensures questions == (if |quizzes| > 0 then quizzes else old(questions))
      ensures currentIndex == old(currentIndex) && selectedAnswerIndex == old(selectedAnswerIndex)
      ensures score == old(score) && isQuizFinished == old(isQuizFinished) && answers == old(answers)
    {
      if |quizzes| > 0 {
        questions := quizzes;
      }
    }

    /** `selectAnswer`: only the selection changes. */
    method SelectAnswer(index: int)
      modifies this
      ensures selectedAnswerIndex == index
      ensures questions == old(questions) && currentIndex == old(currentIndex) && score == old(score)
      ensures isQuizFinished == old(isQuizFinished) && answers == old(answers)
      ensures old(Valid()) ==> Valid()
    {
      selectedAnswerIndex := index;
    }

    /**
     * `nextQuestion`: one point iff the selection is the current question's
     * correct option; then the next question with the selection cleared, or,
     * on the last question, the finished state with the index left in place.
     */
    method NextQuestion()
      requires Valid() && |questions| > 0 && !isQuizFinished
      modifies this
      ensures Valid()
      ensures questions == old(questions) && answers == old(answers) + [old(selectedAnswerIndex)]
      ensures score == old(score) + (if old(selectedAnswerIndex) == questions[old(currentIndex)].correctAnswerIndex then 1 else 0)
      ensures old(currentIndex) < |questions| - 1 ==>
        currentIndex == old(currentIndex) + 1 && selectedAnswerIndex == -1 && !isQuizFinished
      ensures old(currentIndex) == |questions| - 1 ==>
        currentIndex == old(currentIndex) && selectedAnswerIndex == old(selectedAnswerIndex) && isQuizFinished
    {
      var isCorrect := selectedAnswerIndex == questions[currentIndex].correctAnswerIndex;
      var newScore := if isCorrect then score + 1 else score;
      CountCorrectSnoc(questions, answers, selectedAnswerIndex);
      answers := answers + [selectedAnswerIndex];
      if currentIndex < |questions| - 1 {
        currentIndex, selectedAnswerIndex, score := currentIndex + 1, -1, newScore;
      } else {
        score, isQuizFinished := newScore, true;
      }
    }

    /** `restartQuiz`: back to the first question with score 0, on the same questions. */
    method RestartQuiz()
      requires Valid()
      modifies this
      ensures Valid()
      ensures questions == old(questions) && answers == []
      ensures currentIndex == 0 && selectedAnswerIndex == -1 && score == 0 && !isQuizFinished
    {
      currentIndex, selectedAnswerIndex, score, isQuizFinished := 0, -1, 0, false;
      answers := [];
    }
  }

  /** The score never exceeds the questions answered so far, nor the number of questions. */
  lemma ScoreBounds(vm: QuizViewModel)
    requires vm.Valid()
    ensures 0 <= vm.score
    ensures !vm.isQuizFinished ==> vm.score <= vm.currentIndex
    ensures vm.isQuizFinished ==> vm.score <= |vm.questions|
  {
  }

  /** A finished quiz has scored exactly the correct answers among all the questions. */
  lemma FinishedScoreCountsAllAnswers(vm: QuizViewModel)
    requires vm.Valid() && vm.isQuizFinished
    ensures |vm.answers| == |vm.questions|
    ensures vm.score == CountCorrect(vm.questions, vm.answers)
    ensures (forall i :: 0 <= i < |vm.questions| ==> vm.answers[i] == vm.questions[i].correctAnswerIndex)
      ==> vm.score == |vm.questions|
    ensures (forall i :: 0 <= i < |vm.questions| ==> vm.answers[i] != vm.questions[i].correctAnswerIndex)
      ==> vm.score == 0
  {
    if forall i :: 0 <= i < |vm.questions| ==> vm.answers[i] == vm.questions[i].correctAnswerIndex {
      AllCorrectScoresEverything(vm.questions, vm.answers);
    }
    if forall i :: 0 <= i < |vm.questions| ==> vm.answers[i] != vm.questions[i].correctAnswerIndex {
      AllWrongScoresNothing(vm.questions, vm.answers);
    }
  }

  /** Two questions whose correct option is 2, answered 2 then 1: the quiz finishes with score 1. */
  method TwoQuestionRun() returns (score: int, finished: bool, index: int)
    ensures score == 1 && finished && index == 1
  {
    var vm := new QuizViewModel();
    var q := QuizQuestion("?", ["a", "b", "c"], 2);
    vm.LoadQuizzes([q, q]);
    vm.SelectAnswer(2);
    vm.NextQuestion();
    vm.SelectAnswer(1);
    vm.NextQuestion();
    score, finished, index := vm.score, vm.isQuizFinished, vm.currentIndex;
  }
}
