/**
 * The state of the quiz-taking page and the two browser stores it writes: the
 * loaded quiz, the answer array and the current question, the pending selection,
 * and the `quiz-progress` map and `quiz-results` list.
 */
module QuizSession {
  import opened Common
  import opened QuizScoring

  /** An answer array in which no question has been answered yet (`-1` everywhere). */
  function Unanswered(n: nat): (a: seq<int>)
    ensures |a| == n && forall j :: 0 <= j < n ==> a[j] == -1
  {
    seq(n, _ => -1)
  }

  /** The result a submission of `answers` to `quiz` records. */
  function ResultOf(quiz: Quiz, answers: seq<int>): (r: QuizResult)
    ensures r.quizId == quiz.id && r.answers == answers && r.totalQuestions == |quiz.questions|
    ensures r.score == |CorrectIndices(quiz.questions, answers)| && r.score <= r.totalQuestions
    ensures (forall i :: 0 <= i < |quiz.questions| ==> IsCorrect(quiz.questions, answers, i)) ==>
            r.earnedReward == quiz.rewardAmount
    ensures !(forall i :: 0 <= i < |quiz.questions| ==> IsCorrect(quiz.questions, answers, i)) ==>
            r.earnedReward == 0.0
  {
    ScoreCountsCorrectAnswers(quiz.questions, answers);
    RewardOnlyForPerfectScore(quiz, answers);
    var score := Score(quiz.questions, answers);
    QuizResult(quiz.id, score, |quiz.questions|, EarnedReward(score, |quiz.questions|, quiz.rewardAmount), answers)
  }

  class QuizTakingPage {
    var quiz: Option<Quiz>
    var currentQuestionIndex: nat
    var selectedAnswers: seq<int>
    /** The option picked on the current question and not yet committed by "Next". */
    var selectedAnswer: Option<int>
    var showExplanation: bool
    var quizCompleted: bool
    var score: nat
    var timeLeft: nat
    var quizStarted: bool
    /** The `quiz-progress` store, by quiz id. */
    var progress: map<string, UserQuizProgress>
    /** The `quiz-results` store, oldest first. */
    var results: seq<QuizResult>

    /**
     * Once a quiz is loaded there is one answer slot per question, the current index
     * names a question, every question before it has been answered, and a pending
     * selection is an option index.
     */
    ghost predicate Valid()
      reads this
    {
      && (quiz.None? ==> currentQuestionIndex == 0 && selectedAnswers == [])
      && (quiz.Some? ==>
            && |selectedAnswers| == |quiz.value.questions|
            && (currentQuestionIndex < |quiz.value.questions| || currentQuestionIndex == 0)
            && forall j :: 0 <= j < currentQuestionIndex ==> selectedAnswers[j] >= 0)
      && (selectedAnswer.Some? ==> selectedAnswer.value >= 0)
    }

    /** The page's initial state, over whatever the two stores already hold. */
    constructor (progress: map<string, UserQuizProgress>, results: seq<QuizResult>)
      ensures Valid()
      ensures quiz.None? && currentQuestionIndex == 0 && selectedAnswers == [] && selectedAnswer.None?
      ensures !showExplanation && !quizCompleted && score == 0 && timeLeft == 0 && !quizStarted
      ensures this.progress == progress && this.results == results
    {
      quiz := None;
      currentQuestionIndex := 0;
      selectedAnswers := [];
      selectedAnswer := None;
      showExplanation := false;
      quizCompleted := false;
      score := 0;
      timeLeft := 0;
      quizStarted := false;
      this.progress := progress;
      this.results := results;
    }

    /**
     * The load effect, given what the quiz lookup found: a found quiz starts with every
     * answer at -1 and the full time allowance in seconds; a missing one changes nothing.
     */
    method Load(found: Option<Quiz>)
      requires Valid() && quiz.None?
      modifies this`quiz, this`selectedAnswers, this`timeLeft
      ensures Valid()
      ensures found.Some? ==> && quiz == found
                              && |selectedAnswers| == |found.value.questions|
                              && (forall j :: 0 <= j < |selectedAnswers| ==> selectedAnswers[j] == -1)
                              && timeLeft == found.value.estimatedTime * 60
      ensures found.None? ==> unchanged(this)
    {
      if found.Some? {
        quiz := found;
        selectedAnswers := Unanswered(|found.value.questions|);
        timeLeft := found.value.estimatedTime * 60;
      }
    }

    /** Picking an option on the current question. */
    method SelectAnswer(answerIndex: nat)
      requires Valid()
      modifies this`selectedAnswer
      ensures Valid() && selectedAnswer == Some(answerIndex)
    {
      selectedAnswer := Some(answerIndex);
    }

    /**
     * Submission: score `finalAnswers` if given, else the stored answers; record the
     * score, fold the attempt into the quiz's progress record and append the result.
     * Without a loaded quiz nothing happens.
     */
    method SubmitQuiz(finalAnswers: Option<seq<int>>)
      requires Valid()
      modifies this`score, this`quizCompleted, this`progress, this`results
      ensures Valid()
      ensures quiz.None? ==> unchanged(this)
      ensures quiz.Some? ==>
                var answers := finalAnswers.GetOr(selectedAnswers);
                var q := quiz.value;
                && score == Score(q.questions, answers)
                && quizCompleted
                && progress == old(progress)[q.id := RecordAttempt(StoredOrFresh(old(progress), q.id), score, |q.questions|)]
                && results == old(results) + [ResultOf(q, answers)]
    {
      if quiz.None? {
        return;
      }
      var q := quiz.value;
      var answers := finalAnswers.GetOr(selectedAnswers);
      var correctCount := CountCorrect(q.questions, answers);
      score := correctCount;
      quizCompleted := true;
      var result := QuizResult(q.id, correctCount, |q.questions|,
                               EarnedReward(correctCount, |q.questions|, q.rewardAmount), answers);
      var userProgress := StoredOrFresh(progress, q.id);
      userProgress := RecordAttempt(userProgress, correctCount, |q.questions|);
      progress := progress[q.id := userProgress];
      results := results + [result];
    }

    /**
     * "Next": without a pending selection nothing happens. Otherwise the selection is
     * written into the current slot only and cleared; then the page moves to the next
     * question, or on the last question submits the updated answers.
     */
    method NextQuestion()
      requires Valid() && quiz.Some? && |quiz.value.questions| > 0
      modifies this
      ensures Valid() && quiz == old(quiz)
      ensures old(selectedAnswer).None? ==> unchanged(this)
      ensures old(selectedAnswer).Some? ==>
                && selectedAnswers == old(selectedAnswers)[old(currentQuestionIndex) := old(selectedAnswer).value]
                && selectedAnswer.None? && !showExplanation
                && timeLeft == old(timeLeft) && quizStarted == old(quizStarted)
      ensures old(selectedAnswer).Some? && old(currentQuestionIndex) < |quiz.value.questions| - 1 ==>
                && currentQuestionIndex == old(currentQuestionIndex) + 1
                && score == old(score) && quizCompleted == old(quizCompleted)
                && progress == old(progress) && results == old(results)
      ensures old(selectedAnswer).Some? && old(currentQuestionIndex) == |quiz.value.questions| - 1 ==>
                var q := quiz.value;
                && currentQuestionIndex == old(currentQuestionIndex)
                && score == Score(q.questions, selectedAnswers)
                && quizCompleted
                && progress == old(progress)[q.id := RecordAttempt(StoredOrFresh(old(progress), q.id), score, |q.questions|)]
                && results == old(results) + [ResultOf(q, selectedAnswers)]
    {
      if selectedAnswer.None? {
        return;
      }
      var newAnswers := selectedAnswers[currentQuestionIndex := selectedAnswer.value];
      selectedAnswers := newAnswers;
      selectedAnswer := None;
      showExplanation := false;
      if currentQuestionIndex < |quiz.value.questions| - 1 {
        currentQuestionIndex := currentQuestionIndex + 1;
      } else {
        SubmitQuiz(Some(newAnswers));
      }
    }

    /**
     * "Previous": away from the first question, step back one and restore the answer
     * already given there as the pending selection; on the first question nothing happens.
     */
    method PreviousQuestion()
      requires Valid()
      modifies this`currentQuestionIndex, this`selectedAnswer, this`showExplanation
      ensures Valid()
      ensures old(currentQuestionIndex) > 0 ==>
                && currentQuestionIndex == old(currentQuestionIndex) - 1
                && selectedAnswer == Some(selectedAnswers[currentQuestionIndex])
                && !showExplanation
      ensures old(currentQuestionIndex) == 0 ==> unchanged(this)
    {
      if currentQuestionIndex > 0 {
        currentQuestionIndex := currentQuestionIndex - 1;
        selectedAnswer := Some(selectedAnswers[currentQuestionIndex]);
        showExplanation := false;
      }
    }

    /** "Restart": back to the first question with every answer cleared and the full time allowance; the stores are kept. */
    method RestartQuiz()
      requires Valid() && quiz.Some?
      modifies this
      ensures Valid() && quiz == old(quiz)
      ensures currentQuestionIndex == 0
      ensures |selectedAnswers| == |quiz.value.questions|
      ensures forall j :: 0 <= j < |selectedAnswers| ==> selectedAnswers[j] == -1
      ensures selectedAnswer.None? && !showExplanation && !quizCompleted && score == 0 && !quizStarted
      ensures timeLeft == quiz.value.estimatedTime * 60
      ensures progress == old(progress) && results == old(results)
    {
      currentQuestionIndex := 0;
      selectedAnswers := Unanswered(|quiz.value.questions|);
      selectedAnswer := None;
      showExplanation := false;
      quizCompleted := false;
      score := 0;
      timeLeft := quiz.value.estimatedTime * 60;
      quizStarted := false;
    }
  }
}
