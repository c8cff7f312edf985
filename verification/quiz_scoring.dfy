/**
 * What a quiz submission computes from a quiz and an answer array: the score, the
 * reward earned, and the per-quiz progress record that is kept across attempts.
 */
module QuizScoring {
  import opened Common

  /** A question; only the index of its correct option matters to scoring. */
  datatype Question = Question(correctAnswer: int)

  /**
   * A quiz as the page reads it. `estimatedTime` is in whole minutes; `rewardAmount`
   * is in TON and may be fractional, like any JavaScript number.
   */
  datatype Quiz = Quiz(id: string, questions: seq<Question>, estimatedTime: nat, rewardAmount: real)

  /** One saved attempt (the `quiz-results` store holds these; the completion date is not modelled). */
  datatype QuizResult = QuizResult(quizId: string, score: nat, totalQuestions: nat, earnedReward: real, answers: seq<int>)

  /** The per-quiz record in the `quiz-progress` store (the last-attempt date is not modelled). */
  datatype UserQuizProgress = UserQuizProgress(quizId: string, completed: bool, bestScore: nat, attempts: nat, rewardClaimed: bool)

  /**
   * Question `i` was answered correctly. An answer array shorter than the quiz reads
   * `undefined` past its end, which equals no correct answer.
   */
  predicate IsCorrect(questions: seq<Question>, answers: seq<int>, i: nat)
    requires i < |questions|
  {
    i < |answers| && answers[i] == questions[i].correctAnswer
  }

  /** The number of correctly answered questions, counted in question order. */
  function Score(questions: seq<Question>, answers: seq<int>): (r: nat)
    ensures r <= |questions|
  {
    if questions == [] then 0
    else
      var n := |questions| - 1;
      Score(questions[..n], answers) + (if IsCorrect(questions, answers, n) then 1 else 0)
  }

  /** The indices of the correctly answered questions. */
  function CorrectIndices(questions: seq<Question>, answers: seq<int>): set<nat>
  {
    set i: nat | i < |questions| && IsCorrect(questions, answers, i)
  }

  /** The score is the number of correctly answered questions. */
  lemma {:induction false} ScoreCountsCorrectAnswers(questions: seq<Question>, answers: seq<int>)
    ensures Score(questions, answers) == |CorrectIndices(questions, answers)|
  {
    if questions != [] {
      var n := |questions| - 1;
      var prefix := questions[..n];
      ScoreCountsCorrectAnswers(prefix, answers);
      var before := CorrectIndices(prefix, answers);
      var now := CorrectIndices(questions, answers);
      assert forall i: nat | i < n :: IsCorrect(prefix, answers, i) == IsCorrect(questions, answers, i);
      if IsCorrect(questions, answers, n) {
        assert now == before + {n};
      } else {
        assert now == before;
      }
    }
  }

  /** A perfect score means every question was answered correctly, and conversely. */
  lemma {:induction false} PerfectScoreIffAllCorrect(questions: seq<Question>, answers: seq<int>)
    ensures Score(questions, answers) == |questions| <==>
            forall i :: 0 <= i < |questions| ==> IsCorrect(questions, answers, i)
  {
    if questions != [] {
      var n := |questions| - 1;
      var prefix := questions[..n];
      PerfectScoreIffAllCorrect(prefix, answers);
      assert forall i :: 0 <= i < n ==> IsCorrect(prefix, answers, i) == IsCorrect(questions, answers, i);
    }
  }

  /** The `forEach` over the questions that counts correct answers. */
  method CountCorrect(questions: seq<Question>, answers: seq<int>) returns (correctCount: nat)
    ensures correctCount == Score(questions, answers)
  {
    correctCount := 0;
    for index := 0 to |questions|
      invariant correctCount == Score(questions[..index], answers)
    {
      assert questions[..index + 1][..index] == questions[..index];
      if index < |answers| && answers[index] == questions[index].correctAnswer {
        correctCount := correctCount + 1;
      }
    }
    assert questions[..|questions|] == questions;
  }

  /** The reward a result records: the quiz's reward for a perfect score, otherwise 0. */
  function EarnedReward(score: nat, totalQuestions: nat, rewardAmount: real): (r: real)
    ensures score == totalQuestions ==> r == rewardAmount
    ensures score != totalQuestions ==> r == 0.0
  {
    if score == totalQuestions then rewardAmount else 0.0
  }

  /** A submission earns the quiz's full reward exactly when every answer is correct; otherwise nothing. */
  lemma RewardOnlyForPerfectScore(quiz: Quiz, answers: seq<int>)
    ensures (forall i :: 0 <= i < |quiz.questions| ==> IsCorrect(quiz.questions, answers, i)) ==>
            EarnedReward(Score(quiz.questions, answers), |quiz.questions|, quiz.rewardAmount) == quiz.rewardAmount
    ensures !(forall i :: 0 <= i < |quiz.questions| ==> IsCorrect(quiz.questions, answers, i)) ==>
            EarnedReward(Score(quiz.questions, answers), |quiz.questions|, quiz.rewardAmount) == 0.0
  {
    PerfectScoreIffAllCorrect(quiz.questions, answers);
  }

  /** The record a quiz starts from when the store has none for it. */
  function FreshProgress(quizId: string): (r: UserQuizProgress)
    ensures r.quizId == quizId && r.attempts == 0 && r.bestScore == 0
    ensures !r.completed && !r.rewardClaimed
  {
    UserQuizProgress(quizId, false, 0, 0, false)
  }

  /** The stored record for `quizId`, or a fresh one. */
  function StoredOrFresh(progress: map<string, UserQuizProgress>, quizId: string): (r: UserQuizProgress)
    ensures quizId in progress ==> r == progress[quizId]
    ensures quizId !in progress ==> r.quizId == quizId && r.attempts == 0 && r.bestScore == 0 && !r.completed && !r.rewardClaimed
  {
    if quizId in progress then progress[quizId] else FreshProgress(quizId)
  }

  /**
   * Folding one attempt into a record: one more attempt, the best score is the larger
   * of the old best and this score, `completed` reflects this attempt alone, and the
   * quiz id and reward flag are kept.
   */
  function RecordAttempt(p: UserQuizProgress, score: nat, totalQuestions: nat): (r: UserQuizProgress)
    ensures r.attempts == p.attempts + 1
    ensures r.bestScore >= p.bestScore && r.bestScore >= score
    ensures r.bestScore == p.bestScore || r.bestScore == score
    ensures r.completed <==> score == totalQuestions
    ensures r.quizId == p.quizId && r.rewardClaimed == p.rewardClaimed
  {
    p.(attempts := p.attempts + 1, bestScore := Max(p.bestScore, score), completed := score == totalQuestions)
  }

  /** The record after a run of attempts with the given scores, oldest first. */
  function Replay(p: UserQuizProgress, scores: seq<nat>, totalQuestions: nat): UserQuizProgress
  {
    if scores == [] then p
    else RecordAttempt(Replay(p, scores[..|scores| - 1], totalQuestions), scores[|scores| - 1], totalQuestions)
  }

  /**
   * Over any run of attempts starting from a fresh record: `attempts` counts them,
   * `bestScore` is the highest score reached, `completed` says whether the last one
   * was perfect, and the reward flag is never set.
   */
  lemma {:induction false} ReplayFromFresh(quizId: string, scores: seq<nat>, totalQuestions: nat)
    ensures Replay(FreshProgress(quizId), scores, totalQuestions).attempts == |scores|
    ensures forall i :: 0 <= i < |scores| ==> Replay(FreshProgress(quizId), scores, totalQuestions).bestScore >= scores[i]
    ensures scores != [] ==> exists i :: 0 <= i < |scores| && Replay(FreshProgress(quizId), scores, totalQuestions).bestScore == scores[i]
    ensures scores != [] ==> (Replay(FreshProgress(quizId), scores, totalQuestions).completed <==> scores[|scores| - 1] == totalQuestions)
    ensures Replay(FreshProgress(quizId), scores, totalQuestions).quizId == quizId
    ensures !Replay(FreshProgress(quizId), scores, totalQuestions).rewardClaimed
  {
    if scores != [] {
      var n := |scores| - 1;
      var prefix := scores[..n];
      ReplayFromFresh(quizId, prefix, totalQuestions);
      var before := Replay(FreshProgress(quizId), prefix, totalQuestions);
      var after := Replay(FreshProgress(quizId), scores, totalQuestions);
      assert forall i :: 0 <= i < n ==> prefix[i] == scores[i];
      if after.bestScore != scores[n] {
        assert after.bestScore == before.bestScore;
        assert prefix != [];
        var i :| 0 <= i < n && before.bestScore == prefix[i];
        assert after.bestScore == scores[i];
      }
    }
  }

  /** Best scores only go up from attempt to attempt. */
  lemma {:induction false} BestScoreMonotone(p: UserQuizProgress, scores: seq<nat>, more: seq<nat>, totalQuestions: nat)
    ensures Replay(p, scores + more, totalQuestions).bestScore >= Replay(p, scores, totalQuestions).bestScore
  {
    if more != [] {
      var all := scores + more;
      assert all[..|all| - 1] == scores + more[..|more| - 1];
      BestScoreMonotone(p, scores, more[..|more| - 1], totalQuestions);
    } else {
      assert scores + more == scores;
    }
  }
}
