# Quiz session model

A Dafny model of the quiz session of a client-side certification-exam quiz
(the `App` component of `src/App.jsx`). The application loads a question
bank, keeps at most 65 questions of a shuffled copy, walks the user through
them one at a time, records the option letters chosen for each question and,
at the end, shows which questions were answered correctly and lets the user
review each one.

- `answers.dfy`, module `Answers`: the pure logic of one question's answer
  list: reading an option's letter, the toggle of a multi-answer question, the
  overwrite of a single-answer question, and the correctness test.
- `questions.dfy`, module `Questions`: the question record, the stages, the
  correctness of a question inside the session's answer map, the correct-count
  that the score is computed from, the cut of the shuffled bank to 65
  questions, and `Consistent`, the invariant of the session state.
- `session.dfy`, module `Session`: class `QuizSession`, whose fields are the
  component's state (`stage`, `questions`, `currentQuestionIndex`,
  `userAnswers`, `reviewingQuestion`) and whose methods are its handlers.
  Every handler except `StartAsWritten`, the unguarded start of "## Findings",
  keeps `Valid()` (that is, `Consistent`) and states its whole new state;
  `StartAsWritten` states its new state and that it is valid exactly when
  questions exist. `CorrectCount` is the score's counter, a query, not a
  handler. Handlers that the UI offers on one screen only require that screen's
  stage. A control that the UI disables or hides (Previous on the first
  question, Next on the last, Finish elsewhere) is a guarded no-op.

Points where the code may surprise a reader:
- "Back to Summary" sets only the stage. The review cursor is not cleared.
- "Return Home" sets only the stage. Answers and the cursor stay until the next
  start, which resets them.
- Starting a quiz does not re-sample the questions. They are drawn once, when
  the bank is loaded.
- Clicking the same letter twice on a multi-answer question restores the same
  set of letters, and the same list when the letter was not chosen before. When
  it was chosen, the filter-then-append moves it to the end, so the list can
  come back reordered (`Answers.ToggleTwice`). Correctness does not depend on
  the order.

## Model

| member | source | states |
|---|---|---|
| `Answers.OptionLetter` | src/App.jsx:70-72 | the letter is a prefix of the option, holds no '.', and is followed by '.' unless it is the whole option |
| `Answers.OptionLetterOfLabelled` | src/App.jsx:70-72 | for an option "<letter>.<text>" whose letter has no '.', the extracted letter is exactly that letter |
| `Answers.RemoveAll` | src/App.jsx:40 | the filter removes every occurrence of the letter, keeps every other letter with its count, and keeps a duplicate-free list duplicate-free |
| `Answers.Toggle` | src/App.jsx:38-41 | the clicked letter is present afterwards iff it was absent before; every other letter keeps its membership; no duplicates are introduced |
| `Answers.Select` | src/App.jsx:30-51 | on a single-answer question the result is exactly the clicked letter (length 1), whatever was chosen before; on a multi-answer question it toggles the clicked letter and keeps the others; it never introduces duplicates |
| `Answers.ToggleTwice` | src/App.jsx:38-41 | two clicks on the same letter restore the set of chosen letters; they restore the list itself when the letter was absent, and its multiset when the list had no duplicates |
| `Answers.MatchesIsSetEquality` | src/App.jsx:53-59 | for duplicate-free lists, "same length and every chosen letter correct" holds iff the chosen letters and the correct letters are the same set |
| `Questions.IsAnswerCorrect` | src/App.jsx:53-59 | a correct answer has as many letters as the correct list and only correct letters; a question never answered is incorrect when it has a correct letter |
| `Questions.CorrectIsExactChoice` | src/App.jsx:53-59 | for a well-chosen answer and a duplicate-free correct list, a question is correct iff exactly its correct letters were chosen (absent answer = empty set) |
| `Questions.CorrectPrefixCount` | src/App.jsx:62-66 | the counter after the first n questions is at most n |
| `Questions.CorrectPrefixCountIsCardinality` | src/App.jsx:62-66 | the counter after the first n questions equals the number of correctly answered questions among them |
| `Questions.Sample` | src/App.jsx:17 | the attempt's questions are a prefix of the shuffled bank of length min(N, 65) |
| `Questions.SampleWithoutReplacement` | src/App.jsx:16-18 | when the shuffled bank is a permutation of the loaded bank, the attempt holds min(N, 65) questions and no question more often than the bank does |
| `Session.QuizSession.constructor` | src/App.jsx:5-9 | the initial state: home screen, no questions, index 0, no answers, no review cursor; it is consistent |
| `Session.QuizSession.LoadQuestions` | src/App.jsx:16-18 | the session's questions become the first min(N, 65) of the shuffled bank, a sub-multiset of the loaded bank; nothing else changes |
| `Session.QuizSession.Start` | src/App.jsx:24-28 | with questions loaded: quiz screen, no answers, index 0, questions and review cursor untouched; without questions nothing changes; the state stays consistent |
| `Session.QuizSession.StartAsWritten` | src/App.jsx:24-28 | the unguarded start: quiz screen, no answers, index 0; the state it leaves is consistent iff there are questions |
| `Session.QuizSession.SelectAnswer` | src/App.jsx:30-51 | only the current question's entry changes, to the selection of the clicked letter (exactly [letter] on a single-answer question); every other entry, the stage, the questions and both cursors are unchanged; entries stay duplicate-free, of length at most 1 on single-answer questions, and made of option letters |
| `Session.QuizSession.Previous` | src/App.jsx:177-178 | moves back one question, except on the first question, where nothing changes |
| `Session.QuizSession.Next` | src/App.jsx:187-203 | moves forward one question, except on the last question, where nothing changes; the index stays within the questions |
| `Session.QuizSession.Finish` | src/App.jsx:187-194 | goes to the summary on the last question only; otherwise nothing changes |
| `Session.QuizSession.Review` | src/App.jsx:264-269 | sets the review cursor to the chosen question and shows the review screen; answers, questions and question cursor are unchanged |
| `Session.QuizSession.BackToSummary` | src/App.jsx:221-222 | shows the summary again; only the stage changes |
| `Session.QuizSession.ReturnHome` | src/App.jsx:246-247 | shows the home screen; only the stage changes |
| `Session.QuizSession.CorrectCount` | src/App.jsx:62-66 | the loop's counter ends equal to the number of correctly answered questions, so it lies in [0, number of questions] |

## Left out

- The fetch of the question bank, `response.json()` and `console.log`: I/O. The loaded bank is a parameter of `LoadQuestions`.
- The shuffle by `sort` with a `Math.random()` comparator: ambient randomness. Its outcome is a parameter, required to be a permutation of the bank.
- The percentage score: `toFixed(1)` on a floating-point quotient, the `parseFloat`/`Math.round` in the summary text, the progress percentages, and the 70% pass line, which is display text only. The model gives the integer correct-count, from which the percentage is taken; the summary is reachable only with at least one question (`Consistent`), so the division is defined there.
- All rendering, class names and icons, including the per-option selected/correct highlighting of the question display.
- The summary screen shown for the review stage with no review cursor: `Consistent` makes that state unreachable.
- `SelectAnswer` and `Review` require the quiz screen with an option letter of the current question, and the summary screen with an index below the question count. These are the only inputs the UI can pass them.
- postcss.config.js is build configuration and is not part of this model.

## Findings

| source | as written | input that shows it | evidently intended | confidence | as-written member | corrected member |
|---|---|---|---|---|---|---|
| src/App.jsx:24-28 | `startQuiz` moves to the quiz screen whether or not the questions have arrived | click "Start Quiz" before the fetch at src/App.jsx:11-22 resolves: `questions` is `[]`, the quiz screen reads `questions[0]`, which is undefined, and its `correct_answers` | start the quiz only once there is at least one question | not executed; medium | `Session.QuizSession.StartAsWritten` | `Session.QuizSession.Start` |
