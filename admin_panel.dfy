/**
 * The question form of the admin panel: the text fields, a list of two
 * to six option strings with one of them marked correct, the handlers
 * that add, edit, remove and mark options, and the submit check that
 * reports the first missing field before anything is saved.
 */
module AdminPanel {
  import opened Common
  import opened Questions

  // ---------------------------------------------------------------------
  // Removing an option
  // ---------------------------------------------------------------------

  /** `options.filter((_, i) => i !== index)`: keep every option whose
      position differs from index, in order. */
  function RemovedAt(options: seq<string>, index: int): (r: seq<string>)
    ensures 0 <= index < |options| ==> |r| == |options| - 1
    ensures !(0 <= index < |options|) ==> r == options
    ensures forall k :: 0 <= k < |r| && k < index ==> r[k] == options[k]
    ensures forall k :: 0 <= k < |r| && 0 <= index <= k ==> r[k] == options[k + 1]
  {
    if options == [] then []
    else
      var n := |options| - 1;
      RemovedAt(options[..n], index) + (if n == index then [] else [options[n]])
  }

  /** The marked answer after removing the option at index: unchanged
      below index, otherwise one less but never below zero. */
  function AdjustedCorrect(correct: int, index: int): (c: int)
    ensures correct < index ==> c == correct
    ensures correct > index && correct > 0 ==> c == correct - 1
    ensures correct == index ==> c == if index > 0 then index - 1 else 0
    ensures 0 <= correct ==> 0 <= c <= correct
  {
    if correct >= index then (if correct - 1 > 0 then correct - 1 else 0) else correct
  }

  /** Removing an option keeps a valid mark valid. The option that was
      marked stays marked when another option is removed; when the marked
      option itself is removed, the mark moves to the option before it, or
      to the new first option when it was the first. */
  lemma RemovalKeepsMark(options: seq<string>, correct: int, index: int)
    requires 0 <= correct < |options| && 0 <= index < |options| && |options| > MinOptions
    ensures var r := RemovedAt(options, index);
      var c := AdjustedCorrect(correct, index);
      && 0 <= c < |r|
      && (correct != index ==> r[c] == options[correct])
      && (correct == index && index > 0 ==> r[c] == options[index - 1])
      && (correct == index && index == 0 ==> r[c] == options[1])
  {
  }

  // ---------------------------------------------------------------------
  // Submit validation
  // ---------------------------------------------------------------------

  datatype FormError = QuestionRequired | OptionsIncomplete | ExplanationRequired | SubjectRequired

  /** `options.some(opt => !opt.trim())`: some option is empty or made
      only of whitespace. */
  predicate SomeOptionBlank(options: seq<string>)
    ensures SomeOptionBlank(options) <==> exists i :: 0 <= i < |options| && AllSpace(options[i])
  {
    exists i :: 0 <= i < |options| && IsBlank(options[i])
  }

  /** The checks of `handleSubmit`, in order; the first that fails is the
      one reported. */
  function Validate(question: string, options: seq<string>, explanation: string, subject: string): (r: Option<FormError>)
    ensures r.None? <==>
      !IsBlank(question) && (forall i :: 0 <= i < |options| ==> !IsBlank(options[i]))
      && !IsBlank(explanation) && !IsBlank(subject)
    ensures r == Some(QuestionRequired) <==> IsBlank(question)
    ensures r == Some(OptionsIncomplete) <==> !IsBlank(question) && SomeOptionBlank(options)
    ensures r == Some(ExplanationRequired) <==>
      !IsBlank(question) && !SomeOptionBlank(options) && IsBlank(explanation)
    ensures r == Some(SubjectRequired) <==>
      !IsBlank(question) && !SomeOptionBlank(options) && !IsBlank(explanation) && IsBlank(subject)
  {
    if IsBlank(question) then Some(QuestionRequired)
    else if SomeOptionBlank(options) then Some(OptionsIncomplete)
    else if IsBlank(explanation) then Some(ExplanationRequired)
    else if IsBlank(subject) then Some(SubjectRequired)
    else None
  }

  /** A field made only of spaces, tabs or line breaks is as missing as an
      empty one. */
  lemma WhitespaceQuestionRejected(question: string, options: seq<string>, explanation: string, subject: string)
    requires forall i :: 0 <= i < |question| ==> IsSpace(question[i])
    ensures Validate(question, options, explanation, subject) == Some(QuestionRequired)
  {
  }

  // ---------------------------------------------------------------------
  // The form's state and handlers
  // ---------------------------------------------------------------------

  /** The columns sent to the database on save. */
  datatype QuestionData = QuestionData(
    question: string,
    options: seq<string>,
    correctAnswer: int,
    explanation: string,
    subject: string,
    difficulty: Difficulty)

  datatype SaveRequest = Insert(data: QuestionData) | Update(id: string, data: QuestionData)

  datatype SubmitOutcome =
    | Rejected(error: FormError)
    | Saved(request: SaveRequest)
    | SaveFailed(request: SaveRequest)

  class QuestionForm {
    var question: string
    var options: seq<string>
    var correctAnswer: int
    var explanation: string
    var subject: string
    var difficulty: Difficulty
    /** The question being edited; None while adding a new one. */
    var editing: Option<Question>

    /** Two to six options, one of them marked. */
    ghost predicate WellFormed()
      reads this
    {
      MinOptions <= |options| <= MaxOptions && 0 <= correctAnswer < |options|
    }

    /** The form as first shown and as `resetForm` leaves it. */
    ghost predicate IsEmptyForm()
      reads this
    {
      && question == [] && options == [[], [], [], []] && correctAnswer == 0
      && explanation == [] && subject == [] && difficulty == Easy && editing == None
    }

    constructor ()
      ensures IsEmptyForm() && WellFormed()
    {
      question := [];
      options := [[], [], [], []];
      correctAnswer := 0;
      explanation := [];
      subject := [];
      difficulty := Easy;
      editing := None;
    }

    /** `handleAddOption`: append an empty option unless six are there. */
    method AddOption()
      modifies this
      ensures old(|options|) < MaxOptions ==> options == old(options) + [[]]
      ensures old(|options|) >= MaxOptions ==> options == old(options)
      ensures old(|options|) <= MaxOptions ==> |options| <= MaxOptions
      ensures old(WellFormed()) ==> WellFormed()
      ensures question == old(question) && correctAnswer == old(correctAnswer)
      ensures explanation == old(explanation) && subject == old(subject)
      ensures difficulty == old(difficulty) && editing == old(editing)
    {
      if |options| < MaxOptions {
        options := options + [[]];
      }
    }

    /** `handleOptionChange`: replace the text of option index. */
    method ChangeOption(index: int, value: string)
      requires 0 <= index < |options|
      modifies this
      ensures |options| == old(|options|) && options[index] == value
      ensures forall k :: 0 <= k < |options| && k != index ==> options[k] == old(options[k])
      ensures old(WellFormed()) ==> WellFormed()
      ensures question == old(question) && correctAnswer == old(correctAnswer)
      ensures explanation == old(explanation) && subject == old(subject)
      ensures difficulty == old(difficulty) && editing == old(editing)
    {
      options := options[index := value];
    }

    /** `handleRemoveOption`: with more than two options, drop the one at
        index and shift the mark; otherwise do nothing. */
    method RemoveOption(index: int)
      modifies this
      ensures old(|options|) > MinOptions ==>
                options == RemovedAt(old(options), index)
                && correctAnswer == AdjustedCorrect(old(correctAnswer), index)
      ensures old(|options|) <= MinOptions ==> options == old(options) && correctAnswer == old(correctAnswer)
      ensures old(|options|) >= MinOptions ==> |options| >= MinOptions
      ensures old(WellFormed()) ==> WellFormed()
      ensures old(WellFormed()) && 0 <= index < old(|options|) && old(correctAnswer) != index ==>
                options[correctAnswer] == old(options[correctAnswer])
      ensures question == old(question) && explanation == old(explanation)
      ensures subject == old(subject) && difficulty == old(difficulty) && editing == old(editing)
    {
      if |options| > MinOptions {
        if 0 <= correctAnswer < |options| && 0 <= index < |options| {
          RemovalKeepsMark(options, correctAnswer, index);
        }
        options := RemovedAt(options, index);
        correctAnswer := AdjustedCorrect(correctAnswer, index);
      }
    }

    /** The radio button of option index marks it correct. */
    method MarkCorrect(index: int)
      modifies this
      ensures correctAnswer == index && options == old(options)
      ensures old(WellFormed()) && 0 <= index < |options| ==> WellFormed()
      ensures question == old(question) && explanation == old(explanation)
      ensures subject == old(subject) && difficulty == old(difficulty) && editing == old(editing)
    {
      correctAnswer := index;
    }

    /** `handleEdit`: load a question into the form and remember it as the
        target of the next save. */
    method Edit(q: Question)
      modifies this
      ensures editing == Some(q)
      ensures question == q.question && options == q.options && correctAnswer == q.correctAnswer
      ensures explanation == ExplanationText(q) && subject == q.subject && difficulty == q.difficulty
      ensures WellFormed() <==> Questions.WellFormed(q)
    {
      editing := Some(q);
      question := q.question;
      options := q.options;
      correctAnswer := q.correctAnswer;
      explanation := ExplanationText(q);
      subject := q.subject;
      difficulty := q.difficulty;
    }

    /** `resetForm`. */
    method Reset()
      modifies this
      ensures IsEmptyForm() && WellFormed()
    {
      editing := None;
      question := [];
      options := [[], [], [], []];
      correctAnswer := 0;
      explanation := [];
      subject := [];
      difficulty := Easy;
    }

    /** `handleSubmit`: a failed check is reported and nothing is sent;
        otherwise the form is sent as an update of the edited question or
        as a new one, and a save the database accepts (`saved`) resets the
        form. A failed save leaves the form as it was. */
    method Submit(saved: bool) returns (outcome: SubmitOutcome)
      modifies this
      ensures var check := Validate(old(question), old(options), old(explanation), old(subject));
        && (check.Some? ==> outcome == Rejected(check.value) && unchanged(this))
        && (check.None? ==> outcome.Saved? == saved && !outcome.Rejected?)
      ensures !outcome.Rejected? ==>
        var data := QuestionData(old(question), old(options), old(correctAnswer),
                                 old(explanation), old(subject), old(difficulty));
        outcome.request == (if old(editing).Some? then Update(old(editing).value.id, data) else Insert(data))
      ensures outcome.Saved? ==> IsEmptyForm()
      ensures outcome.SaveFailed? ==> unchanged(this)
    {
      var check := Validate(question, options, explanation, subject);
      if check.Some? {
        return Rejected(check.value);
      }
      var data := QuestionData(question, options, correctAnswer, explanation, subject, difficulty);
      var request := if editing.Some? then Update(editing.value.id, data) else Insert(data);
      if saved {
        Reset();
        outcome := Saved(request);
      } else {
        outcome := SaveFailed(request);
      }
    }
  }
}
