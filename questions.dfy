/**
 * The question record shared by the quiz and the admin panel
 * (the `questions` table row of the hosted database).
 */
module Questions {
  import opened Common

  datatype Difficulty = Easy | Medium | Hard

  /** A question row. `explanation` is the nullable database column: the
      components replace a missing one with the empty string. */
  datatype Question = Question(
    id: string,
    question: string,
    options: seq<string>,
    correctAnswer: int,
    explanation: Option<string>,
    subject: string,
    difficulty: Difficulty)

  /** `question.explanation || ''`: a missing or empty explanation reads
      as the empty string. */
  function ExplanationText(q: Question): (e: string)
    ensures q.explanation.None? ==> e == []
    ensures q.explanation.Some? ==> e == q.explanation.value
  {
    match q.explanation
    case None => []
    case Some(text) => text
  }

  /** The admin form keeps between two and six options. */
  const MinOptions: nat := 2
  const MaxOptions: nat := 6

  /** A question as the admin form produces it: two to six options and a
      marked answer that indexes one of them. */
  predicate WellFormed(q: Question)
  {
    MinOptions <= |q.options| <= MaxOptions && 0 <= q.correctAnswer < |q.options|
  }
}
