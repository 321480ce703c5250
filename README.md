# PrepMate quiz and admin logic, modelled in Dafny

PrepMate is a web app for exam preparation. Users take a timed daily quiz of
multiple-choice questions. An administrator manages the question bank
through a form behind a password gate. Almost all of the app renders UI over
a hosted database. The parts with sequential logic are modelled here:

- **Daily quiz** (`daily_quiz.dfy`, module `DailyQuiz`). The class
  `QuizSession` holds the component's state: a question cursor, one answer
  slot per question (-1 while unanswered), the explanation and completion
  flags, a ten-minute countdown, the score and the result rows sent to the
  database. Its methods are the component's handlers: load, select an
  answer, Next, Continue, complete, and one tick of the timer. The score
  (`Score`) and the clock text (`FormatTime`) are functions.
- **Question form** (`admin_panel.dfy`, module `AdminPanel`). The class
  `QuestionForm` holds the form: question text, two to six options, the
  index of the correct option, explanation, subject, difficulty, and the
  question being edited. Its methods add, change, remove and mark options,
  load a question for editing, reset the form and submit it. `Validate` is
  the submit check, where the first failure wins.
- **Password gate** (`admin_password.dfy`, module
  `AdminPasswordProtection`). The class `Gate` holds the typed password, the
  signed-in flag, the failed-attempt count and the browser session storage.
  After five failures the form locks.
- **Initials** (`profile_page.dfy`, module `ProfilePage`). `Initials` is the
  avatar text: the first letter of each space-separated word, uppercased,
  at most two.
- Shared pieces: `questions.dfy` holds the question record; `common.dfy`
  holds `Option` and the JavaScript string behaviour the components use
  (`trim`, ASCII `toUpperCase`, `slice`, decimal number text).

The quiz keeps one flat answer array, one slot per question. At
completion, including a timeout, the whole array is scored. Unanswered slots
(-1) never match a correct answer (correct answers are option indices,
never -1), so they count as wrong and stay in the
total.

## Model

| member | source | states |
|---|---|---|
| `Common.TrimStart` | src/components/admin/AdminPanel.tsx:103 | the result is a suffix of the input; every dropped character is JavaScript whitespace; the result does not start with whitespace |
| `Common.TrimEnd` | src/components/admin/AdminPanel.tsx:103 | the result is a prefix of the input; every dropped character is whitespace; the result does not end with whitespace |
| `Common.Trim` | src/components/admin/AdminPanel.tsx:103 | `trim()` keeps one contiguous slice of the input; everything dropped before and after it is whitespace; the slice neither starts nor ends with whitespace |
| `Common.IsBlank` | src/components/admin/AdminPanel.tsx:103 | `!s.trim()` holds exactly when every character of `s` is whitespace (both directions; the empty string included) |
| `Common.TrimIdempotent` | src/components/admin/AdminPanel.tsx:103 | trimming twice gives the same result as trimming once |
| `Common.UpperChar` | src/pages/ProfilePage.tsx:113 | 'a'..'z' map to 'A'..'Z' at the same alphabet position; every other character is kept; the result is never a lower-case ASCII letter |
| `Common.ToUpper` | src/pages/ProfilePage.tsx:113 | keeps the length and uppercases each character at its own position |
| `Common.Prefix` | src/pages/ProfilePage.tsx:114 | `slice(0, n)`: a prefix of the input, at most `n` long; exactly `n` long when the input is long enough; the whole input when it has at most `n` characters |
| `Common.Decimal` | src/components/quiz/DailyQuiz.tsx:87 | the text of a number is non-empty, all digits, with no leading zero |
| `Common.DecimalRoundTrip` | src/components/quiz/DailyQuiz.tsx:87 | reading the decimal text of `n` back gives `n` |
| `Questions.ExplanationText` | src/components/admin/AdminPanel.tsx:184 | a missing explanation reads as the empty string; a present one is kept |
| `DailyQuiz.SlotCorrect` | src/components/quiz/DailyQuiz.tsx:123 | a slot is correct only when a question exists at its index (`questions[i]?` is undefined past the end); with a non-negative correct answer an unanswered (-1) slot is never correct |
| `DailyQuiz.Score` | src/components/quiz/DailyQuiz.tsx:122-124 | the score is at most the number of answer slots and at most the number of questions |
| `DailyQuiz.ScoreCountsCorrectSlots` | src/components/quiz/DailyQuiz.tsx:122-124 | the score equals the number of indices `i` with `selectedAnswers[i] == questions[i].correct_answer` |
| `DailyQuiz.FullScoreIff` | src/components/quiz/DailyQuiz.tsx:122-124 | the score equals the number of slots exactly when every slot is correct |
| `DailyQuiz.ZeroScoreIff` | src/components/quiz/DailyQuiz.tsx:122-124 | the score is zero exactly when no slot is correct |
| `DailyQuiz.UnansweredScoresZero` | src/components/quiz/DailyQuiz.tsx:71 | when correct answers are non-negative, the all -1 answer array set at load scores 0, so unanswered slots never count |
| `DailyQuiz.PadStart2` | src/components/quiz/DailyQuiz.tsx:87 | `padStart(2, '0')`: a string of length 2 or more is kept; a shorter one gets leading zeros up to length 2 |
| `DailyQuiz.FormatTime` | src/components/quiz/DailyQuiz.tsx:84-88 | the text is the decimal minutes `s div 60`, then ':', then the tens and units digits of `s mod 60` |
| `DailyQuiz.PaddedTwoDigits` | src/components/quiz/DailyQuiz.tsx:87 | below 100, the zero-padded seconds text is the tens digit followed by the units digit |
| `DailyQuiz.FormatTimeRoundTrip` | src/components/quiz/DailyQuiz.tsx:84-88 | parsing `m:ss` back from the displayed text gives the seconds |
| `DailyQuiz.FormatTimeInjective` | src/components/quiz/DailyQuiz.tsx:84-88 | two different second counts never display the same text |
| `DailyQuiz.FormatTimeExamples` | src/components/quiz/DailyQuiz.tsx:84-88 | 600 shows "10:00", 65 shows "1:05", 0 shows "0:00" |
| `DailyQuiz.QuizSession.constructor` | src/components/quiz/DailyQuiz.tsx:30-37 | starts loading, with no questions or answers, cursor 0, nothing shown or completed, 600 seconds left and score 0 |
| `DailyQuiz.QuizSession.Load` | src/components/quiz/DailyQuiz.tsx:70-80 | a successful fetch stores the questions and one -1 slot per question; a failed one only ends loading; nothing else changes |
| `DailyQuiz.QuizSession.SelectAnswer` | src/components/quiz/DailyQuiz.tsx:90-94 | only the current slot is overwritten; length, the other slots and every other field are unchanged |
| `DailyQuiz.QuizSession.Next` | src/components/quiz/DailyQuiz.tsx:96-107 | with the current slot at -1 nothing changes; otherwise only the explanation flag is set |
| `DailyQuiz.QuizSession.Complete` | src/components/quiz/DailyQuiz.tsx:119-157 | without a user nothing changes; with one, the score is the count of correct slots, one `daily` result row is sent, and the quiz is completed |
| `DailyQuiz.QuizSession.Continue` | src/components/quiz/DailyQuiz.tsx:109-117 | the explanation is always cleared; before the last question the cursor moves up by exactly 1 and stays in range; on the last question the quiz completes as in `Complete` |
| `DailyQuiz.QuizSession.Tick` | src/components/quiz/DailyQuiz.tsx:43-50 | with time left and the quiz not completed, `timeLeft` drops by exactly 1; at 0 the quiz completes; once completed nothing changes; `timeLeft` is a `nat` and never passes 600 |
| `AdminPanel.RemovedAt` | src/components/admin/AdminPanel.tsx:91 | removing a valid index shortens the list by one and keeps the options before and after it in order; an index outside the list changes nothing |
| `AdminPanel.AdjustedCorrect` | src/components/admin/AdminPanel.tsx:95 | a mark below the removed index is kept; a mark above it moves down by one; a mark on the removed index moves to the index before it, or stays 0 for the first; a non-negative mark never goes negative or up |
| `AdminPanel.RemovalKeepsMark` | src/components/admin/AdminPanel.tsx:95 | the adjusted mark is a valid index of the shorter list; a mark on another option still marks the same option; a removed marked option hands the mark to the option before it, or to the new first option |
| `AdminPanel.SomeOptionBlank` | src/components/admin/AdminPanel.tsx:112 | `options.some(opt => !opt.trim())` holds exactly when some option is empty or made only of whitespace |
| `AdminPanel.Validate` | src/components/admin/AdminPanel.tsx:103-137 | the checks run in this order: question, any option, explanation, subject; each error is reported exactly when all earlier checks pass and its own field is blank; no error exactly when all fields are non-blank |
| `AdminPanel.WhitespaceQuestionRejected` | src/components/admin/AdminPanel.tsx:103-110 | a question made only of whitespace is rejected as missing |
| `AdminPanel.QuestionForm.constructor` | src/components/admin/AdminPanel.tsx:27-35 | the form starts empty: four empty options, mark 0, `easy`, nothing being edited |
| `AdminPanel.QuestionForm.AddOption` | src/components/admin/AdminPanel.tsx:71-78 | appends exactly one empty option below six options and changes nothing otherwise; the count never goes past 6; a well-formed form stays well-formed |
| `AdminPanel.QuestionForm.ChangeOption` | src/components/admin/AdminPanel.tsx:80-87 | only option `index` is replaced; length and the other options are unchanged |
| `AdminPanel.QuestionForm.RemoveOption` | src/components/admin/AdminPanel.tsx:89-98 | above two options, removes exactly option `index` and adjusts the mark; at two or fewer nothing changes; the count never drops below 2; a valid mark stays valid and keeps its option when another one is removed |
| `AdminPanel.QuestionForm.MarkCorrect` | src/components/admin/AdminPanel.tsx:279-281 | the radio button sets the mark to its index and changes nothing else |
| `AdminPanel.QuestionForm.Edit` | src/components/admin/AdminPanel.tsx:178-188 | copies every field of the question into the form, a missing explanation as ''; the question becomes the edit target; the form is well-formed exactly when the question is |
| `AdminPanel.QuestionForm.Reset` | src/components/admin/AdminPanel.tsx:213-223 | four empty options, mark 0, empty question, explanation and subject, `easy`, no edit target |
| `AdminPanel.QuestionForm.Submit` | src/components/admin/AdminPanel.tsx:100-176 | a failed check reports its error and changes nothing; otherwise it sends an update of the edited question or an insert; an accepted save resets the form and a failed save leaves it as it was |
| `AdminPasswordProtection.InputEnabled` | src/components/admin/AdminPasswordProtection.tsx:112 | `disabled={attempts >= 5}`: the input is enabled exactly below 5 failed attempts, so a failure made while it is enabled brings the count to 5 at most |
| `AdminPasswordProtection.SubmitEnabled` | src/components/admin/AdminPasswordProtection.tsx:147 | an enabled submit button implies an enabled input and a non-empty password; a password made only of whitespace never enables it |
| `AdminPasswordProtection.SubmitEnabledIff` | src/components/admin/AdminPasswordProtection.tsx:144-148 | submit is enabled exactly when attempts are below 5 (the condition that also enables the input, line 112) and the password has a non-whitespace character |
| `AdminPasswordProtection.Gate.constructor` | src/components/admin/AdminPasswordProtection.tsx:16-28 | at mount the gate is signed in exactly when session storage holds "true" under `admin-authenticated`; the password is empty, attempts are 0 and the storage is untouched |
| `AdminPasswordProtection.Gate.SetPassword` | src/components/admin/AdminPasswordProtection.tsx:110 | typing replaces the password and nothing else |
| `AdminPasswordProtection.Gate.Submit` | src/components/admin/AdminPasswordProtection.tsx:30-58 | the exact password `admin123` signs in, stores "true" under `admin-authenticated` and keeps attempts; any other adds exactly 1 attempt and clears the field; the "too many attempts" warning is raised exactly when the failure brings attempts to 5 or more |
| `AdminPasswordProtection.Gate.Logout` | src/components/admin/AdminPasswordProtection.tsx:60-69 | signs out, removes only the `admin-authenticated` key from session storage, clears the password and resets attempts to 0 |
| `ProfilePage.Split` | src/pages/ProfilePage.tsx:110 | `split(' ')` gives at least one piece and no piece contains a space |
| `ProfilePage.SplitJoinRoundTrip` | src/pages/ProfilePage.tsx:110 | joining the pieces with spaces gives back the name |
| `ProfilePage.Initials` | src/pages/ProfilePage.tsx:108-115 | at most 2 characters, and none is a lower-case ASCII letter |
| `ProfilePage.FirstChars` | src/pages/ProfilePage.tsx:111-112 | `map(n => n[0]).join('')`: at most one character per piece; when no piece is empty, exactly the first character of each piece, in order |
| `ProfilePage.FirstCharsAreWordStarts` | src/pages/ProfilePage.tsx:110-112 | the first characters of the pieces are the characters that start a word; empty pieces add nothing |
| `ProfilePage.InitialsAreWordStarts` | src/pages/ProfilePage.tsx:108-115 | the initials are the first two word-starting characters of the name, uppercased |
| `ProfilePage.NoInitialsIffOnlySpaces` | src/pages/ProfilePage.tsx:108-115 | the initials are empty exactly when the name has only spaces |
| `ProfilePage.InitialsOfJohnDoe` | src/pages/ProfilePage.tsx:108-115 | "john doe" gives "JD" |
| `ProfilePage.WordStartsOfJohnDoe` | src/pages/ProfilePage.tsx:110-112 | the words of "john doe" start with 'j' and 'd' |
| `ProfilePage.WordStartsOfThreeWords` | src/pages/ProfilePage.tsx:110-112 | the words of "a b c" start with 'a', 'b' and 'c' |
| `ProfilePage.InitialsOfOneWord` | src/pages/ProfilePage.tsx:108-115 | "ada" gives "A" |
| `ProfilePage.InitialsOfThreeWords` | src/pages/ProfilePage.tsx:108-115 | "a b c" gives "AB" |
| `ProfilePage.Fallback` | src/pages/ProfilePage.tsx:143 | the icon is shown exactly when the name is missing or empty; otherwise the avatar shows the initials, at most 2 characters |

## Left out

- Database calls are not modelled. This covers fetching questions, inserting
  quiz results, and inserting, updating or deleting questions (`handleDelete`,
  `fetchQuestions`, `fetchDailyQuestions`). Creating the client and checking
  the environment are left out too. A fetch result is a parameter of
  `QuizSession.Load`. The quiz's result insert is recorded in `submitted`.
  Whether a question save succeeded is the `saved` parameter of
  `QuestionForm.Submit`.
- The rows the database returns are not converted here (`options.map(String)`,
  the difficulty cast). That conversion depends on untyped JavaScript values.
  The model receives typed `Question` records.
- `QuizSession.Complete` is one atomic step. In the source, the quiz is marked
  completed only after the insert is awaited, and a tick can run in between.
  The signed-in user is an `Option<string>` parameter.
- `QuestionForm.Submit` is one atomic step too. In the source, `handleSubmit`
  awaits the update or insert while the form stays editable, and the
  `resetForm` that follows a successful save discards any edits typed in the
  meantime. The model has no edits between the check and the reset.
- Timer scheduling (`setTimeout`, `clearTimeout`) is not modelled. Each
  effect run is an explicit `Tick`. React runs the effect only when
  `timeLeft` or `quizCompleted` changes. So with no user, the source fires
  completion once at 0 and then stops. The model lets a caller tick again.
- Browser session storage is the `session` map of `Gate`, with no
  lifetime beyond the object. The password visibility toggle is display only.
- The `onComplete?.(finalScore, questions.length)` callback at the end of
  the daily quiz is not modelled. It is optional, and its only caller, the
  daily quiz page (DailyQuizPage.tsx), only logs the values.
- The HTML `required` attributes on the question, option and explanation
  inputs (AdminPanel.tsx lines 268, 289 and 360) and on the password input
  are browser behaviour. The browser refuses an empty field before
  `handleSubmit` runs, so in practice the `Validate` errors for those
  fields are reached only by whitespace-only input. The subject select has
  no such attribute. The model checks the handler alone, as if the browser
  let an empty field through.
- Floating-point display values are not modelled. This covers the progress
  bar, the score percentage, the star count and the dashboard figures.
- Toasts, `console.error`, navigation and all rendering are left out. The
  onChange handlers of the question, explanation, subject and difficulty
  inputs are not modelled as methods: they assign the public fields of
  `QuestionForm` directly.
- Common.UpperChar: covers ASCII letters only. JavaScript's `toUpperCase`
  also maps other Unicode letters, and some of them change length.
- ProfilePage.Split: works on Unicode characters. JavaScript strings index
  UTF-16 code units, so `n[0]` of a piece that starts with an astral
  character is half of a surrogate pair here.
- AdminPanel.QuestionForm.ChangeOption: requires an index inside the list. The inputs
  only pass the indices of rendered options. In JavaScript, writing past the
  end would grow the array.
- DailyQuiz.QuizSession.SelectAnswer: requires a non-empty quiz, as does
  DailyQuiz.QuizSession.Next. Their buttons appear only when a question is shown.
- DailyQuiz.QuizSession.Load: requires the loading state. The component fetches only
  once, at mount. The `.limit(5)` of the query is not modelled.
- Rendering files and configuration files have no logic to model. This covers
  the dashboard's sample data, the login and signup forms, the page wrappers,
  the layout and the Capacitor configuration.
