/**
 * The daily quiz component: a timed walk over the fetched questions with
 * one answer slot per question (-1 while unanswered), an explanation
 * step after each answer, and a final score that counts the slots whose
 * answer equals the question's correct answer.
 */
module DailyQuiz {
  import opened Common
  import opened Questions

  /** The countdown starts at ten minutes. */
  const QuizSeconds: nat := 600

  /** The answer slot value of a question not yet answered. */
  const Unanswered: int := -1

  /** The `quiz_type` column value this component writes. */
  const DailyType: string := "daily"

  /** The row the component asks the database to insert on completion. */
  datatype QuizResult = QuizResult(
    userId: string,
    questions: seq<Question>,
    userAnswers: seq<int>,
    score: nat,
    totalQuestions: nat,
    quizType: string)

  // ---------------------------------------------------------------------
  // Scoring
  // ---------------------------------------------------------------------

  /** Slot i holds the correct answer of question i (`questions[i]?` is
      undefined past the end, and undefined never equals a number). */
  predicate SlotCorrect(answers: seq<int>, questions: seq<Question>, i: nat)
    requires i < |answers|
    ensures SlotCorrect(answers, questions, i) ==> i < |questions|
    ensures SlotCorrect(answers, questions, i) && questions[i].correctAnswer >= 0 ==> answers[i] != Unanswered
  {
    i < |questions| && answers[i] == questions[i].correctAnswer
  }

  /** The left-to-right `reduce` that adds one per correct slot. */
  function Score(answers: seq<int>, questions: seq<Question>): (r: nat)
    ensures r <= |answers| && r <= |questions|
  {
    if answers == [] then 0
    else
      var n := |answers| - 1;
      Score(answers[..n], questions) + (if SlotCorrect(answers, questions, n) then 1 else 0)
  }

  /** The indices whose answer is correct, as a set. */
  ghost function CorrectSlots(answers: seq<int>, questions: seq<Question>): set<nat>
  {
    set i: nat | i < |answers| && SlotCorrect(answers, questions, i)
  }

  /** The score is the number of slots i whose answer equals
      questions[i].correctAnswer. */
  lemma {:induction false} ScoreCountsCorrectSlots(answers: seq<int>, questions: seq<Question>)
    ensures Score(answers, questions) == |CorrectSlots(answers, questions)|
  {
    if answers != [] {
      var n := |answers| - 1;
      var prefix := answers[..n];
      ScoreCountsCorrectSlots(prefix, questions);
      var before := CorrectSlots(prefix, questions);
      var after := CorrectSlots(answers, questions);
      assert forall i: nat | i < n :: SlotCorrect(prefix, questions, i) == SlotCorrect(answers, questions, i);
      if SlotCorrect(answers, questions, n) {
        assert after == before + {n};
      } else {
        assert after == before;
      }
    }
  }

  /** A full score means every slot is correct, and conversely. */
  lemma {:induction false} FullScoreIff(answers: seq<int>, questions: seq<Question>)
    ensures Score(answers, questions) == |answers|
        <==> forall i :: 0 <= i < |answers| ==> SlotCorrect(answers, questions, i)
  {
    if answers != [] {
      var n := |answers| - 1;
      var prefix := answers[..n];
      FullScoreIff(prefix, questions);
      assert forall i :: 0 <= i < n ==> SlotCorrect(prefix, questions, i) == SlotCorrect(answers, questions, i);
    }
  }

  /** A zero score means no slot is correct, and conversely. */
  lemma {:induction false} ZeroScoreIff(answers: seq<int>, questions: seq<Question>)
    ensures Score(answers, questions) == 0
        <==> forall i :: 0 <= i < |answers| ==> !SlotCorrect(answers, questions, i)
  {
    if answers != [] {
      var n := |answers| - 1;
      var prefix := answers[..n];
      ZeroScoreIff(prefix, questions);
      assert forall i :: 0 <= i < n ==> SlotCorrect(prefix, questions, i) == SlotCorrect(answers, questions, i);
    }
  }

  /** Unanswered slots never score, because correct answers are option
      indices: a quiz nobody answered scores zero. */
  lemma UnansweredScoresZero(questions: seq<Question>)
    requires forall q :: q in questions ==> q.correctAnswer >= 0
    ensures Score(seq(|questions|, _ => Unanswered), questions) == 0
  {
    var answers := seq(|questions|, _ => Unanswered);
    forall i | 0 <= i < |answers| ensures !SlotCorrect(answers, questions, i) {
      assert questions[i] in questions;
    }
    ZeroScoreIff(answers, questions);
  }

  // ---------------------------------------------------------------------
  // Clock display
  // ---------------------------------------------------------------------

  /** `s.padStart(2, '0')`. */
  function PadStart2(s: string): (r: string)
    ensures |s| >= 2 ==> r == s
    ensures |s| < 2 ==> |r| == 2 && r[2 - |s|..] == s
    ensures forall i :: 0 <= i < |r| - |s| ==> r[i] == '0'
  {
    if |s| >= 2 then s else seq(2 - |s|, _ => '0') + s
  }

  /** `formatTime`: the decimal minutes, ':' and two digits giving the
      tens and units of the seconds within the minute. */
  function FormatTime(seconds: nat): (t: string)
    ensures |t| >= 4
    ensures t[..|t| - 3] == Decimal(seconds / 60)
    ensures t[|t| - 3] == ':'
    ensures t[|t| - 2] == DigitChar(seconds % 60 / 10)
    ensures t[|t| - 1] == DigitChar(seconds % 60 % 10)
  {
    var m, s := seconds / 60, seconds % 60;
    PaddedTwoDigits(s);
    var t := Decimal(m) + ":" + PadStart2(Decimal(s));
    assert t[..|t| - 3] == Decimal(m);
    t
  }

  /** Below 100, padding the decimal text to two places gives the tens
      digit and then the units digit. */
  lemma PaddedTwoDigits(s: nat)
    requires s < 100
    ensures PadStart2(Decimal(s)) == [DigitChar(s / 10), DigitChar(s % 10)]
  {
    if s >= 10 {
      assert Decimal(s) == Decimal(s / 10) + [DigitChar(s % 10)];
    }
  }

  /** Reads "m:ss" back into a number of seconds. */
  function ParseTime(t: string): Option<nat>
  {
    if && |t| >= 4
       && t[|t| - 3] == ':'
       && (forall i :: 0 <= i < |t| - 3 ==> IsDigit(t[i]))
       && '0' <= t[|t| - 2] <= '5'
       && IsDigit(t[|t| - 1])
    then Some(DecimalValue(t[..|t| - 3]) * 60 + DigitValue(t[|t| - 2]) * 10 + DigitValue(t[|t| - 1]))
    else None
  }

  /** ParseTime on text of the "m:ss" layout. */
  lemma ParseTimeOfLayout(t: string, m: nat, tens: nat, units: nat)
    requires tens <= 5 && units < 10 && |t| >= 4
    requires t[..|t| - 3] == Decimal(m) && t[|t| - 3] == ':'
    requires t[|t| - 2] == DigitChar(tens) && t[|t| - 1] == DigitChar(units)
    ensures ParseTime(t) == Some(m * 60 + tens * 10 + units)
  {
    assert forall i :: 0 <= i < |t| - 3 ==> t[i] == Decimal(m)[i];
    DecimalRoundTrip(m);
  }

  /** The display loses nothing: the seconds can be read back from it. */
  lemma FormatTimeRoundTrip(seconds: nat)
    ensures ParseTime(FormatTime(seconds)) == Some(seconds)
  {
    var m, s := seconds / 60, seconds % 60;
    ParseTimeOfLayout(FormatTime(seconds), m, s / 10, s % 10);
    assert s / 10 * 10 + s % 10 == s;
  }

  /** Different times never show the same text. */
  lemma FormatTimeInjective(a: nat, b: nat)
    requires FormatTime(a) == FormatTime(b)
    ensures a == b
  {
    FormatTimeRoundTrip(a);
    FormatTimeRoundTrip(b);
  }

  lemma FormatTimeExamples()
    ensures FormatTime(600) == "10:00"
    ensures FormatTime(65) == "1:05"
    ensures FormatTime(0) == "0:00"
  {
    assert Decimal(10) == "10";
    assert Decimal(5) == "5";
    assert Decimal(1) == "1";
    assert Decimal(0) == "0";
  }

  // ---------------------------------------------------------------------
  // The component's state and handlers
  // ---------------------------------------------------------------------

  class QuizSession {
    var questions: seq<Question>
    var currentQuestion: nat
    var selectedAnswers: seq<int>
    var showExplanation: bool
    var quizCompleted: bool
    var timeLeft: nat
    var score: nat
    var isLoading: bool
    /** The quiz_results rows the component has asked the database to
        insert, oldest first. */
    var submitted: seq<QuizResult>

    ghost predicate Valid()
      reads this
    {
      && |selectedAnswers| == |questions|
      && (questions == [] ==> currentQuestion == 0)
      && (questions != [] ==> currentQuestion < |questions|)
      && (isLoading ==> questions == [])
      && timeLeft <= QuizSeconds
      && score <= |questions|
    }

    /** The component's initial state, before the fetch answers. */
    constructor ()
      ensures Valid()
      ensures questions == [] && selectedAnswers == [] && currentQuestion == 0
      ensures !showExplanation && !quizCompleted && timeLeft == QuizSeconds
      ensures score == 0 && isLoading && submitted == []
    {
      questions := [];
      currentQuestion := 0;
      selectedAnswers := [];
      showExplanation := false;
      quizCompleted := false;
      timeLeft := QuizSeconds;
      score := 0;
      isLoading := true;
      submitted := [];
    }

    /** `fetchDailyQuestions` once the database has answered: `None` is a
        failed fetch, which only ends the loading state. */
    method Load(fetched: Option<seq<Question>>)
      requires Valid() && isLoading
      modifies this
      ensures Valid() && !isLoading
      ensures fetched.Some? ==> questions == fetched.value
      ensures fetched.Some? ==> |selectedAnswers| == |questions|
      ensures fetched.Some? ==> forall i :: 0 <= i < |selectedAnswers| ==> selectedAnswers[i] == Unanswered
      ensures fetched.None? ==> questions == old(questions) && selectedAnswers == old(selectedAnswers)
      ensures currentQuestion == old(currentQuestion) && showExplanation == old(showExplanation)
      ensures quizCompleted == old(quizCompleted) && timeLeft == old(timeLeft)
      ensures score == old(score) && submitted == old(submitted)
    {
      if fetched.Some? {
        questions := fetched.value;
        selectedAnswers := seq(|fetched.value|, _ => Unanswered);
      }
      isLoading := false;
    }

    /** `handleAnswerSelect`: overwrite the current question's slot. */
    method SelectAnswer(answerIndex: int)
      requires Valid() && questions != []
      modifies this
      ensures Valid()
      ensures |selectedAnswers| == |old(selectedAnswers)|
      ensures selectedAnswers[currentQuestion] == answerIndex
      ensures forall i :: 0 <= i < |selectedAnswers| && i != currentQuestion ==>
                selectedAnswers[i] == old(selectedAnswers[i])
      ensures questions == old(questions) && currentQuestion == old(currentQuestion)
      ensures showExplanation == old(showExplanation) && quizCompleted == old(quizCompleted)
      ensures timeLeft == old(timeLeft) && score == old(score)
      ensures isLoading == old(isLoading) && submitted == old(submitted)
    {
      selectedAnswers := selectedAnswers[currentQuestion := answerIndex];
    }

    /** `handleNext`: refuse (with a toast) while the current slot is
        unanswered, otherwise reveal the explanation. */
    method Next() returns (accepted: bool)
      requires Valid() && questions != []
      modifies this
      ensures Valid()
      ensures accepted <==> old(selectedAnswers[currentQuestion]) != Unanswered
      ensures !accepted ==> unchanged(this)
      ensures accepted ==> showExplanation
      ensures questions == old(questions) && currentQuestion == old(currentQuestion)
      ensures selectedAnswers == old(selectedAnswers) && quizCompleted == old(quizCompleted)
      ensures timeLeft == old(timeLeft) && score == old(score)
      ensures isLoading == old(isLoading) && submitted == old(submitted)
    {
      if selectedAnswers[currentQuestion] == Unanswered {
        accepted := false;
        return;
      }
      accepted := true;
      showExplanation := true;
    }

    /** `handleQuizComplete`, taken as one atomic step: without a signed-in
        user nothing happens; otherwise the score is computed, the result
        row is sent, and the quiz is marked completed whether or not the
        insert succeeds. */
    method Complete(user: Option<string>)
      requires Valid()
      modifies this
      ensures Valid()
      ensures user.None? ==> unchanged(this)
      ensures user.Some? ==> score == Score(old(selectedAnswers), old(questions)) && quizCompleted
      ensures user.Some? ==> submitted == old(submitted) + [QuizResult(user.value, old(questions),
                old(selectedAnswers), score, |old(questions)|, DailyType)]
      ensures questions == old(questions) && currentQuestion == old(currentQuestion)
      ensures selectedAnswers == old(selectedAnswers) && showExplanation == old(showExplanation)
      ensures timeLeft == old(timeLeft) && isLoading == old(isLoading)
    {
      if user.None? {
        return;
      }
      var finalScore := Score(selectedAnswers, questions);
      score := finalScore;
      submitted := submitted + [QuizResult(user.value, questions, selectedAnswers, finalScore, |questions|, DailyType)];
      quizCompleted := true;
    }

    /** `handleContinue`: hide the explanation, then move to the next
        question, or complete the quiz after the last one. */
    method Continue(user: Option<string>)
      requires Valid()
      modifies this
      ensures Valid() && !showExplanation
      ensures old(currentQuestion) < |questions| - 1 ==>
                currentQuestion == old(currentQuestion) + 1
                && quizCompleted == old(quizCompleted) && score == old(score) && submitted == old(submitted)
      ensures old(currentQuestion) >= |questions| - 1 ==> currentQuestion == old(currentQuestion)
      ensures old(currentQuestion) >= |questions| - 1 && user.None? ==>
                quizCompleted == old(quizCompleted) && score == old(score) && submitted == old(submitted)
      ensures old(currentQuestion) >= |questions| - 1 && user.Some? ==>
                quizCompleted && score == Score(old(selectedAnswers), old(questions))
                && submitted == old(submitted) + [QuizResult(user.value, old(questions),
                     old(selectedAnswers), score, |old(questions)|, DailyType)]
      ensures questions == old(questions) && selectedAnswers == old(selectedAnswers)
      ensures timeLeft == old(timeLeft) && isLoading == old(isLoading)
    {
      showExplanation := false;
      if currentQuestion < |questions| - 1 {
        currentQuestion := currentQuestion + 1;
      } else {
        Complete(user);
      }
    }

    /** One run of the timer effect, a second after the last: count down
        while time is left, complete the quiz when it has run out, and do
        nothing once the quiz is completed. */
    method Tick(user: Option<string>)
      requires Valid()
      modifies this
      ensures Valid()
      ensures old(quizCompleted) ==> unchanged(this)
      ensures !old(quizCompleted) && old(timeLeft) > 0 ==>
                timeLeft == old(timeLeft) - 1 && quizCompleted == old(quizCompleted)
                && score == old(score) && submitted == old(submitted)
      ensures !old(quizCompleted) && old(timeLeft) == 0 && user.Some? ==>
                timeLeft == 0 && quizCompleted && score == Score(old(selectedAnswers), old(questions))
                && submitted == old(submitted) + [QuizResult(user.value, old(questions),
                     old(selectedAnswers), score, |old(questions)|, DailyType)]
      ensures !old(quizCompleted) && old(timeLeft) == 0 && user.None? ==> unchanged(this)
      ensures questions == old(questions) && currentQuestion == old(currentQuestion)
      ensures selectedAnswers == old(selectedAnswers) && showExplanation == old(showExplanation)
      ensures isLoading == old(isLoading)
    {
      if timeLeft > 0 && !quizCompleted {
        timeLeft := timeLeft - 1;
      } else if timeLeft == 0 && !quizCompleted {
        Complete(user);
      }
    }
  }

  /** Two questions, the first answered correctly and the second not: the
      session walks both, completes on Continue, and scores one. */
  method TwoQuestionScenario(q0: Question, q1: Question)
    requires q0.correctAnswer == 0 && q1.correctAnswer == 0
  {
    var quiz := new QuizSession();
    quiz.Load(Some([q0, q1]));
    var ok := quiz.Next();
    assert !ok;
    quiz.SelectAnswer(0);
    ok := quiz.Next();
    assert ok && quiz.showExplanation;
    quiz.Continue(Some("user-1"));
    assert quiz.currentQuestion == 1 && !quiz.showExplanation;
    quiz.SelectAnswer(2);
    ok := quiz.Next();
    quiz.Continue(Some("user-1"));
    assert quiz.selectedAnswers == [0, 2];
    assert SlotCorrect([0, 2], [q0, q1], 0) && !SlotCorrect([0, 2], [q0, q1], 1);
    assert quiz.quizCompleted && quiz.score == 1;
    assert |quiz.submitted| == 1 && quiz.submitted[0].totalQuestions == 2;
  }
}
