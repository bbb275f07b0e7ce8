# JS Quest: a verified model of its interactive logic

JS Quest is a single-page React application for learning JavaScript. It has lesson cards that open a code runner, a practice editor, a "Code Detective" quiz, a sign-in dialog and a progress bar. Nearly all of it is presentation. This project models the small pieces of state and logic inside the components and proves what they promise:

- **ProgressBar** (`progress_bar.dfy`): the caption classifier `getProgressMessage`.
- **IndexPage** (`index_page.dfy`): the page's `userProgress` counter. Lesson completions and game score reports raise it with `Math.min(prev + k, 100)`. The module also holds the initial state and the lesson list.
- **Lessons** (`lessons.dfy`): a lesson card. It covers the difficulty badge classes, the completion flag, the dialog flag, `handleComplete` and the `onRunSuccess` guard.
- **Login** (`login.dfy`): the sign-in dialog's `handleLogin` guard and field reset.
- **Editor** (`editor.dfy`): the code runner. `runCode` swaps the global `console.log` for a capture function, evaluates the script and picks the output. It always restores the logger. The module also covers `resetCode`, the Run-button guard and the success check mark.
- **CodeDetective** (`code_detective.dfy`): the four-question quiz state machine, with its answer-matching rule and submit guard.
- **JsString** (`js_string.dfy`): the parts of JavaScript's string library these rely on. These are `toLowerCase`, `trim`, `!s.trim()` and `join`.
- **Optional** (`optional.dfy`): an `Option` type.

## How the model works

- **Components are classes.** Each stateful component becomes a class whose fields are its `useState` variables. Each event handler becomes a method whose `modifies` clause names the component, plus the editor and the console for the two methods that run code.
- **Callbacks are logs.** A call to a parent callback is recorded in a field:
  - `scoreUpdates` for `onScoreUpdate`;
  - `completions` for `onComplete`;
  - `logins` and `closeCalls` for `onLogin` and `onClose`;
  - `runSuccessCalls` for `onRunSuccess`.
- **Delayed updates are atomic.** A React state update, or a `setTimeout` follow-up, happens as part of the handler's step.
- **Script evaluation is an input.** Evaluating a script is a host facility. It arrives as a `Trace`: the `console.log` calls the script made (each as the string forms of its arguments), then whether it completed or threw an `Error` or some other value.
- **The console is an object.** The global console is a `Console` object whose `log` field is either the browser's own logger or a capturing one. `RunCode` installs the capturing logger, replays the script's calls through `Console.Log`, and puts the original back.

## Model

| member | source | states |
|---|---|---|
| ProgressBar.ProgressMessage | src/components/ProgressBar.tsx:11-18 | every progress value, negative or above 100 included, gets one of the six captions |
| ProgressBar.Stage | src/components/ProgressBar.tsx:12-17 | each caption's position in the order a learner meets them |
| ProgressBar.MessagesDistinct | src/components/ProgressBar.tsx:12-17 | the six captions are pairwise different, so each input gets exactly one |
| ProgressBar.MessageByRange | src/components/ProgressBar.tsx:12-17 | each caption holds exactly on its range: 0 is "ready"; any other value below 25, negatives included, is "getting started"; then [25,50), [50,75), [75,100) and >= 100 |
| ProgressBar.MessageMonotone | src/components/ProgressBar.tsx:12-17 | for non-negative progress, the caption's stage never goes back as progress grows |
| ProgressBar.NegativeProgressOutranksZero | src/components/ProgressBar.tsx:12-13 | below zero the order breaks: -1 is at a later stage than 0 |
| IndexPage.Raise | src/pages/Index.tsx:137 | the capped raise `Math.min(prev + k, 100)`: at most 100, at most prev + k, and equal to one of the two |
| IndexPage.ReplayClosedForm | src/pages/Index.tsx:135-179 | with non-negative increments, any sequence of events ends where one capped raise by their total would |
| IndexPage.TotalIncrementNonNegative | src/pages/Index.tsx:135-179 | non-negative events add up to a non-negative total |
| IndexPage.ReplayBounded | src/pages/Index.tsx:135-179 | progress that starts in [0,100] stays in [0,100] and never decreases under non-negative events, and once it is 100 it stays 100 |
| IndexPage.ReplayMonotone | src/pages/Index.tsx:135-179 | a higher starting progress never ends lower |
| IndexPage.NegativeScoreLowers | src/pages/Index.tsx:177-179 | the score callback does not reject a negative score, which lowers progress |
| IndexPage.ScoreEvents | src/pages/Index.tsx:177-179 | a list of score reports becomes one `ScoreUpdated` event per report, in order |
| IndexPage.GameKeepsProgressInRange | src/pages/Index.tsx:177-179 | reports of five points each, however many, keep progress that starts in [0,100] in range and never lower it |
| IndexPage.InitialLessons | src/pages/Index.tsx:17-70 | three lessons with ids 1, 2, 3 (so pairwise different), none completed |
| IndexPage.Index.constructor | src/pages/Index.tsx:14-15 | progress starts at 0 and the active tab at "learn" |
| IndexPage.Index.SetActiveTab | src/pages/Index.tsx:113 | switching tabs changes only the page's tab and leaves its progress alone |
| IndexPage.Index.OnLessonComplete | src/pages/Index.tsx:135-138 | a lesson completion sets progress to `min(prev + 10, 100)`, which never lowers in-range progress or lifts it past 100 |
| IndexPage.Index.OnScoreUpdate | src/pages/Index.tsx:177-179 | a score report sets progress to `min(prev + score, 100)`; with a non-negative score it stays in range and does not decrease |
| Lessons.DifficultyColor | src/components/LessonCard.tsx:28-35 | the badge is always one of the four class strings |
| Lessons.DifficultyByName | src/components/LessonCard.tsx:29-33 | the mapping in both directions: beginner to green, intermediate to yellow, advanced to red, anything else to gray, all after lower-casing |
| Lessons.DifficultyIgnoresCase | src/components/LessonCard.tsx:29 | lower-casing a difficulty first does not change its classes, so letter case never decides the badge |
| Lessons.DifficultyExamples | src/components/LessonCard.tsx:29-33 | "Beginner" and "BEGINNER" are both green; "Expert" is gray |
| Lessons.LessonCard.constructor | src/components/LessonCard.tsx:25-26 | `isCompleted` starts as `lesson.completed`, and the dialog starts closed |
| Lessons.LessonCard.SetOpen | src/components/LessonCard.tsx:72 | opening or closing the dialog leaves the completion flag, the button label and the reports alone |
| Lessons.LessonCard.HandleComplete | src/components/LessonCard.tsx:37-41 | with no guard of its own, each call sets completed, closes the dialog and reports exactly `lesson.id` once more, so a repeated call reports the id again |
| Lessons.LessonCard.OnRunSuccess | src/components/LessonCard.tsx:104-111 | completes the lesson only when it is not already completed; otherwise nothing changes |
| Lessons.LessonCard.RunLessonCode | src/components/LessonCard.tsx:102-111 | after a run in the card's editor, the card is completed iff it was completed or the run succeeded. It reports its id and closes the dialog only on the first success; otherwise the dialog stays as it was. The editor ends as RunCode states: code unchanged, not running, nothing printed natively, one `onRunSuccess` call exactly on success |
| Lessons.LessonCard.ButtonLabel | src/components/LessonCard.tsx:79 | the label reads "Review Lesson" exactly when the lesson is completed; SetOpen, HandleComplete, OnRunSuccess and RunLessonCode each keep a "Review Lesson" label, so a card never goes back to "Start Learning" |
| Lessons.LessonCard.OffersMarkComplete | src/components/LessonCard.tsx:114 | "Mark Complete" is offered exactly when the button reads "Start Learning" |
| Login.NameAccepted | src/components/LoginModal.tsx:22 | a name is accepted iff it has a non-whitespace character |
| Login.NameAcceptedIgnoresPadding | src/components/LoginModal.tsx:22 | any whitespace before a name and any whitespace after it (either may be empty) do not change the verdict |
| Login.LoginModal.constructor | src/components/LoginModal.tsx:18-19 | both fields start empty, and no callback has been called |
| Login.LoginModal.SetName | src/components/LoginModal.tsx:80 | typing a name changes only the name |
| Login.LoginModal.SetEmail | src/components/LoginModal.tsx:95 | typing an email changes only the email |
| Login.LoginModal.HandleLogin | src/components/LoginModal.tsx:21-41 | a blank name changes nothing and calls no callback. Otherwise the untrimmed name goes to `onLogin` once, `onClose` is called once, and both fields are cleared. The email is neither checked nor passed on |
| Login.LoginModal.ContinueAsGuest | src/components/LoginModal.tsx:102-104 | only `onClose` is called; the fields keep their text |
| Editor.LogLineSplitsBack | src/components/CodeEditor.tsx:28-30 | a captured line is the argument strings joined by a single space; when no argument contains a space, splitting the line at spaces gives the arguments back |
| Editor.CapturedLines | src/components/CodeEditor.tsx:24-32 | one captured line per `console.log` call, in call order, each the argument strings joined by a single space |
| Editor.ErrorMessage | src/components/CodeEditor.tsx:57 | "Unknown error occurred" is shown exactly for a non-`Error` throw or an `Error` with that very message, so the output cannot tell the two apart |
| Editor.RunOutput | src/components/CodeEditor.tsx:36-58 | a completed run outputs exactly the captured lines, one per call and in call order; a throwing run outputs exactly one line, "❌ Error: " followed by the message |
| Editor.ThrowDiscardsCapture | src/components/CodeEditor.tsx:56-58 | lines captured before a throw do not reach the output |
| Editor.NonErrorThrow | src/components/CodeEditor.tsx:57 | a thrown non-`Error` value shows "Unknown error occurred" |
| Editor.RunSucceeded | src/components/CodeEditor.tsx:41-47 | `onRunSuccess` fires iff the run completed and made at least one `console.log` call |
| Editor.ShowsSuccessMark | src/components/CodeEditor.tsx:132 | the check mark shows iff there is output and its first line does not begin with the "❌" character |
| Editor.SuccessMarkAfterRun | src/components/CodeEditor.tsx:132 | after a run, the check mark shows iff the run completed, logged something, and its first line does not start with "❌" |
| Editor.SuccessMarkImpliesSucceeded | src/components/CodeEditor.tsx:132 | the check mark only shows after a run that called `onRunSuccess` |
| Editor.MarkHiddenOnMarkerOutput | src/components/CodeEditor.tsx:132 | the converse fails: a successful run whose first line starts with "❌" shows no check mark |
| Editor.Console.Log | src/components/CodeEditor.tsx:27-32 | a `console.log` call reaches whichever logger is installed; the capturing one appends the formatted line |
| Editor.CodeEditor.constructor | src/components/CodeEditor.tsx:14-17 | the editor starts with the initial code, no output and no run in flight |
| Editor.CodeEditor.SetCode | src/components/CodeEditor.tsx:118 | typing changes only the code |
| Editor.CodeEditor.CanRun | src/components/CodeEditor.tsx:105 | Run is enabled iff no run is in flight and the code has a non-whitespace character |
| Editor.CodeEditor.RunCode | src/components/CodeEditor.tsx:19-70 | the output is the trace's run output. The original logger is back in place, and nothing reached the browser's own logger. `isRunning` is false and the code is unchanged. `onRunSuccess` is called exactly when the run succeeded |
| Editor.CodeEditor.ResetCode | src/components/CodeEditor.tsx:72-80 | the code is back to the initial code and the output is empty; nothing runs |
| CodeDetective.Questions | src/components/GameSection.tsx:20-53 | four questions, all with the same prompt, each expected answer non-empty with no whitespace at either end |
| CodeDetective.AnswerMatches | src/components/GameSection.tsx:57 | the matching rule, lower-case then trim the answer and compare with the lower-cased expected answer, gives the same verdict when the answer is trimmed before lower-casing |
| CodeDetective.UntrimmedExpectedNeverMatches | src/components/GameSection.tsx:57 | the expected answer is not trimmed: one ending in whitespace would match no answer |
| CodeDetective.AnswerAccepted | src/components/GameSection.tsx:56-57 | each question's answer, typed in any letter case, with any whitespace before it and any whitespace after it (either may be empty), is accepted |
| CodeDetective.GameSection.constructor | src/components/GameSection.tsx:15-18 | the quiz starts stopped at question 0 with score 0 and an empty answer |
| CodeDetective.GameSection.SetUserAnswer | src/components/GameSection.tsx:217 | typing, possible only while a game runs, changes only the answer |
| CodeDetective.GameSection.StartGame | src/components/GameSection.tsx:94-99 | question 0, score 0, empty answer, game running |
| CodeDetective.GameSection.ResetGame | src/components/GameSection.tsx:101-106 | the same as StartGame except that the game is stopped |
| CodeDetective.GameSection.CheckAnswer | src/components/GameSection.tsx:55-92 | called only while a game runs, it keeps the quiz invariant: question index in range, score five per answered question while running, a stopped quiz at 0 or the full 20 points, every report five points. A wrong answer changes nothing. A right one adds 5 to the score and reports 5. It then moves to the next question and clears the answer, or on the last question stops the game in place and announces the score including those 5 points |
| CodeDetective.GameSection.Submit | src/components/GameSection.tsx:219-228 | only while a game runs (the answer box and button exist only then), the answer is checked only when it has a non-whitespace character, and a blank answer changes nothing. A submitted answer has exactly the effect CheckAnswer states: wrong changes nothing; right adds and reports 5, then advances and clears the answer, or on the last question stops the game and announces the score including those 5 points |
| JsString.ToLower | src/components/GameSection.tsx:57 | `toLowerCase` keeps the length and lower-cases each character in place |
| JsString.TrimStart | src/components/GameSection.tsx:57 | removes only whitespace and leaves no leading whitespace |
| JsString.TrimEnd | src/components/GameSection.tsx:57 | removes only whitespace and leaves no trailing whitespace |
| JsString.Trim | src/components/GameSection.tsx:57 | `trim` leaves no whitespace at either end |
| JsString.TrimMiddle | src/components/GameSection.tsx:57 | `trim` keeps a contiguous middle part of the string, and all it drops before and after that part is whitespace |
| JsString.TrimPadded | src/components/GameSection.tsx:57 | conversely, any whitespace before and any whitespace after a trimmed string is exactly what `trim` removes |
| JsString.TrimStartEmptyIff | src/components/LoginModal.tsx:22 | trimming the front alone empties a string iff every character is whitespace |
| JsString.IsBlank | src/components/LoginModal.tsx:22 | `!s.trim()` holds iff every character is whitespace |
| JsString.TrimLowerCommute | src/components/GameSection.tsx:57 | lower-casing and trimming commute |
| JsString.ToLowerIdempotent | src/components/LessonCard.tsx:29 | lower-casing twice is the same as lower-casing once |
| JsString.Join | src/components/CodeEditor.tsx:30 | the joined string starts with the first part, and contains the separator as soon as there are two parts |
| JsString.SplitJoin | src/components/CodeEditor.tsx:30 | joining argument strings that contain no space can be undone, so the captured line keeps each argument |
| JsString.JoinLosesBoundaries | src/components/CodeEditor.tsx:30 | once an argument contains a space, different calls give the same line |

## Left out

- Evaluation of the script (`new Function(code)`) is not modelled: its effect is the `Trace` parameter of `RunCode`.
- Turning arguments into strings (`JSON.stringify` for objects, `String` otherwise) is not modelled either. A `console.log` call arrives already as its argument strings, and only the join is modelled.
- Toasts, and every duration, are UI side effects and are not modelled. This includes the wrong-answer toast with the expected answer and the welcome toast.
- The `setTimeout` delays in `checkAnswer` and in the lesson card's `onRunSuccess` are modelled as part of the same step. In the real application the 2-second (or 1-second) window still accepts input, and a second correct submission or a second successful run in that window is not modelled. Its effects in the real application:
  - A lesson can report its id twice. Inside the 1-second window `isCompleted` really is still false, so a second successful run schedules a second `handleComplete`.
  - Clicking "Mark Complete" inside the 1-second window after a successful run also reports the id twice: the button is still shown, and both `handleComplete` calls append it.
  - A question can score twice.
  - On question 1 or 2 (index 0 or 1), both delayed `prev => prev + 1` updates run, so the index moves by two and a question is skipped.
  - On question 3 of 4 (index 2), both handlers take the "not the last question" branch (src/components/GameSection.tsx:69). Both delayed `prev => prev + 1` updates then run, and the index becomes 4. The render then reads `codeQuestions[4]` (src/components/GameSection.tsx:178), which is undefined, and `currentQ.code` (src/components/GameSection.tsx:208) throws.
  - On the last question the score reaches 25. The second submission runs after the re-render, so its handler sees a score of 20 and announces 25. The first message fires after the second submission and still announces 20, while the score is 25.
  - Reset and then Start inside the 2-second window leave the old timer pending, and it acts on the new game. If it was scheduled on the last question, it stops the new game. Otherwise it moves the new game to question 2 (index 1) with score 0.
  - CodeDetective.GameSection.Valid therefore holds only under these atomic steps. This covers both "the question index is in range" and "the score is five per answered question while the game runs".
- CodeDetective.GameSection.CheckAnswer: the quiz data is a field set by the constructor to `Questions()`, and every method keeps it. The invariant only fixes the field's length to 4, so the method's contract is stated for any four questions. Fixed to `Questions()`, it says the same about the real data.
- JavaScript numbers are floating point; progress and scores are modelled as mathematical integers. Every value the application produces is a small integer.
- The quiz's progress-bar width and the `Progress` bar's own width are float arithmetic for styling, and are not modelled.
- JsString.ToLower: maps only the ASCII letters A-Z, which is weaker than Unicode `toLowerCase`. The typed answer can be any text. Still, the gap cannot change a verdict:
  - The strings compared against (the expected answers and the difficulty names) are ASCII.
  - The only non-ASCII character that `toLowerCase` turns into a single ASCII letter is U+212A KELVIN SIGN, which becomes `k`. None of those strings contains `k`.
  - U+0130 becomes `i` followed by U+0307, which none of them contains.
- The animated background, the settings dialog and the navigation bar have no logic the core depends on and are not part of this model. Neither are JSX layout, CSS (apart from the difficulty classes), icons or dialog components.
- The `console.log` message in the page's `onComplete` handler goes to the browser console and is not modelled.
- The practice editor's initial script is display text; only the lesson scripts are kept, as lesson data.
- Tab switching remounts components, which is not modelled. The tabs render their content only while selected, so leaving "Learn" and coming back creates every lesson card again with `isCompleted` back at `lesson.completed`. A lesson can then be completed again and raise progress by another 10. Leaving "Games" likewise discards a quiz in progress. `IndexPage.Index.SetActiveTab` changes only the tab, and a lesson card's completion flag is monotone only while that card stays mounted.
- The dialog remounting its code editor (which resets the editor's state each time the dialog opens) is not modelled. `RunLessonCode` takes the editor as a parameter.
- Persistence does not exist in the application. Re-entrant use of the global logger does not arise in single-threaded code, so the logger is only shown to be restored when a run ends.
