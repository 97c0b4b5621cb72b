/**
 * The quiz page: a name prompt, then up to ten multiple-choice questions.
 * Answering shows feedback and scores the answer; a delayed continuation
 * then moves to the next question or, after the last one, builds the result
 * row that is saved. The continuation is the explicit step `Advance`, and
 * the values its closure captured are kept in a `Continuation` record.
 */
module Quiz {
  import opened Wrappers
  import opened Text

  /** At most this many questions are asked per quiz. */
  const MaxQuestions: nat := 10

  datatype Question = Question(
    id: string, question: string,
    optionA: string, optionB: string, optionC: string, optionD: string,
    correctAnswer: string)

  /** The row written to the results table (the random share id is not modelled). */
  datatype QuizResult = QuizResult(userName: string, score: nat, totalQuestions: nat, category: string)

  /**
   * What the scheduled continuation captured from the render in which the
   * answer was given: the question index, the score before the answer, the
   * selected answer of that render, and the answer itself.
   */
  datatype Continuation = Continuation(index: nat, staleScore: nat, staleSelected: Option<string>, answer: string)

  /** `shuffled.slice(0, 10)`: the first ten questions of the shuffled list, or all of them. */
  function TakeQuestions(shuffled: seq<Question>): (r: seq<Question>)
    ensures |r| <= MaxQuestions && |r| <= |shuffled|
    ensures r == shuffled[..|r|]
    ensures |r| < MaxQuestions ==> r == shuffled
  {
    if |shuffled| <= MaxQuestions then shuffled else shuffled[..MaxQuestions]
  }

  function Point(answer: string, q: Question): nat {
    if answer == q.correctAnswer then 1 else 0
  }

  /** The number of the given answers that match their questions' correct answers. */
  function CountCorrect(questions: seq<Question>, answers: seq<string>): (n: nat)
    requires |answers| <= |questions|
    ensures n <= |answers|
  {
    if answers == [] then 0
    else CountCorrect(questions, answers[..|answers| - 1]) + Point(answers[|answers| - 1], questions[|answers| - 1])
  }

  /** The saved score as line 92 computes it, from the values its closure sees. */
  function SavedScoreAsWritten(staleScore: nat, staleSelected: Option<string>, current: Question): (r: nat)
    ensures staleSelected == None ==> r == staleScore
    ensures r == staleScore + 1 <==> staleSelected == Some(current.correctAnswer)
    ensures r == staleScore || r == staleScore + 1
  {
    staleScore + (if staleSelected == Some(current.correctAnswer) then 1 else 0)
  }

  /** The saved score as intended: the score before the last answer plus that answer's point. */
  function SavedScore(staleScore: nat, answer: string, current: Question): (r: nat)
    ensures r == staleScore + 1 <==> answer == current.correctAnswer
    ensures r == staleScore || r == staleScore + 1
  {
    staleScore + Point(answer, current)
  }

  /**
   * In the render that handles an answer no answer is selected yet, so the
   * as-written formula never adds the last answer's point.
   */
  lemma SavedScoreAsWrittenDropsLastPoint(staleScore: nat, answer: string, current: Question)
    requires answer == current.correctAnswer
    ensures SavedScoreAsWritten(staleScore, None, current) == staleScore
    ensures SavedScore(staleScore, answer, current) == staleScore + 1
  {
  }

  class QuizSession {
    const questions: seq<Question>
    const category: string
    var currentIndex: nat
    var score: nat
    var selectedAnswer: Option<string>
    var showFeedback: bool
    var userName: string
    var showNameInput: bool
    /** The scheduled continuation, until it fires. */
    var timer: Option<Continuation>
    /** The result row built when the last continuation fires. */
    var saved: Option<QuizResult>
    /** All answers given so far, one per question reached. */
    ghost var answers: seq<string>

    ghost predicate Valid()
      reads this
    {
      |questions| <= MaxQuestions &&
      (|questions| == 0 ==> currentIndex == 0 && answers == [] && !showFeedback) &&
      (|questions| > 0 ==> currentIndex < |questions|) &&
      |answers| == currentIndex + (if showFeedback then 1 else 0) &&
      score == CountCorrect(questions, answers) &&
      (showNameInput ==> answers == [] && !showFeedback) &&
      (!showNameInput ==> !IsBlank(userName)) &&
      (showFeedback <==> selectedAnswer.Some?) &&
      (showFeedback ==> selectedAnswer == Some(answers[|answers| - 1])) &&
      (timer.Some? ==>
         var c := timer.value;
         && showFeedback && saved.None?
         && c.index == currentIndex && c.staleSelected == None
         && c.answer == answers[|answers| - 1]
         && c.staleScore == CountCorrect(questions, answers[..|answers| - 1])) &&
      (saved.Some? <==> showFeedback && timer.None?) &&
      (saved.Some? ==>
         && |answers| == |questions|
         && saved.value.score == score
         && saved.value.totalQuestions == |questions|
         && saved.value.category == category
         && saved.value.userName == userName)
    }

    /** The page after the fetch: the shuffled questions, capped, for the category in the route. */
    constructor (shuffled: seq<Question>, routeCategory: Option<string>)
      ensures Valid()
      ensures questions == TakeQuestions(shuffled)
      ensures category == (if routeCategory.Some? then routeCategory.value else "")
      ensures currentIndex == 0 && score == 0 && selectedAnswer == None && !showFeedback
      ensures userName == [] && showNameInput && timer == None && saved == None && answers == []
    {
      questions := TakeQuestions(shuffled);
      category := if routeCategory.Some? then routeCategory.value else "";
      currentIndex, score, selectedAnswer, showFeedback := 0, 0, None, false;
      userName, showNameInput, timer, saved := [], true, None, None;
      answers := [];
    }

    /** Typing into the name field (rendered only while the prompt is shown). */
    method SetUserName(name: string)
      requires Valid()
      modifies this`userName
      ensures Valid()
      ensures userName == if showNameInput then name else old(userName)
    {
      if showNameInput {
        userName := name;
      }
    }

    /** `startQuiz`: a blank name is refused and the prompt stays; otherwise the prompt is closed. */
    method StartQuiz() returns (started: bool)
      requires Valid()
      modifies this`showNameInput
      ensures Valid()
      ensures started <==> !IsBlank(userName)
      ensures showNameInput == (old(showNameInput) && !started)
    {
      TrimEmptyIffBlank(userName);
      if Trim(userName) == [] {
        return false;
      }
      showNameInput := false;
      return true;
    }

    /**
     * `handleAnswer`: ignored while feedback is shown; otherwise records and
     * scores the answer. The answer buttons exist only once the name prompt
     * is closed and there are questions.
     */
    method HandleAnswer(answer: string)
      requires Valid() && |questions| > 0 && !showNameInput
      modifies this
      ensures Valid()
      ensures currentIndex == old(currentIndex) && saved == old(saved)
      ensures userName == old(userName) && showNameInput == old(showNameInput)
      ensures old(showFeedback) ==>
        score == old(score) && selectedAnswer == old(selectedAnswer) && showFeedback
        && timer == old(timer) && answers == old(answers)
      ensures !old(showFeedback) ==>
        && selectedAnswer == Some(answer) && showFeedback
        && score == old(score) + Point(answer, questions[currentIndex])
        && timer == Some(Continuation(currentIndex, old(score), None, answer))
        && answers == old(answers) + [answer]
    {
      if showFeedback {
        return;
      }
      var staleSelected := selectedAnswer;
      selectedAnswer := Some(answer);
      showFeedback := true;
      timer := Some(Continuation(currentIndex, score, staleSelected, answer));
      if answer == questions[currentIndex].correctAnswer {
        score := score + 1;
      }
      answers := answers + [answer];
      assert answers[..|answers| - 1] == old(answers);
    }

    /** The delayed continuation of an answer fires: next question, or build the saved result. */
    method Advance()
      requires Valid()
      modifies this
      ensures Valid()
      ensures score == old(score) && answers == old(answers) && userName == old(userName)
      ensures showNameInput == old(showNameInput) && timer == None
      ensures old(timer) == None ==>
        currentIndex == old(currentIndex) && selectedAnswer == old(selectedAnswer)
        && showFeedback == old(showFeedback) && saved == old(saved)
      ensures old(timer).Some? && old(currentIndex) < |questions| - 1 ==>
        currentIndex == old(currentIndex) + 1 && selectedAnswer == None && !showFeedback && saved == None
      ensures old(timer).Some? && old(currentIndex) == |questions| - 1 ==>
        && currentIndex == old(currentIndex) && showFeedback
        && saved == Some(QuizResult(userName,
                                    SavedScore(old(timer).value.staleScore, old(timer).value.answer,
                                               questions[currentIndex]),
                                    |questions|, category))
      ensures saved.Some? ==>
        |answers| == |questions| && saved.value.score == CountCorrect(questions, answers)
        && saved.value.score <= saved.value.totalQuestions
      ensures saved.Some? ==> !IsBlank(saved.value.userName)
    {
      if timer == None {
        return;
      }
      var c := timer.value;
      timer := None;
      if c.index < |questions| - 1 {
        currentIndex := c.index + 1;
        selectedAnswer := None;
        showFeedback := false;
      } else {
        saved := Some(QuizResult(userName, SavedScore(c.staleScore, c.answer, questions[c.index]),
                                 |questions|, category));
      }
    }
  }

  /**
   * A one-question quiz answered correctly: the intended saved score is 1,
   * while the formula as written yields 0.
   */
  method LastCorrectAnswerLost(q: Question) returns (asWritten: nat, intended: nat)
    ensures asWritten == 0 && intended == 1
  {
    var s := new QuizSession([q], Some("hiragana"));
    s.SetUserName("Aiko");
    assert s.userName[0] == 'A' && !IsSpace('A');
    var started := s.StartQuiz();
    s.HandleAnswer(q.correctAnswer);
    var c := s.timer.value;
    asWritten := SavedScoreAsWritten(c.staleScore, c.staleSelected, q);
    s.Advance();
    intended := s.saved.value.score;
  }
}
