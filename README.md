# ChemClass front end: the state logic of its event handlers

ChemClass is a small React front end for a chemistry class: a login form
backed by a fixed table of three accounts, a role-based dashboard, a test
authoring form for the teacher and a homework page where students answer
tests. All state lives in memory. This project lifts the logic of its event
handlers out of the markup and models it in Dafny, one module per source
file:

- `model.dfy` (`Model`): the values shared by every component (`User`,
  `Question` with the four types `single | multiple | text | formula`,
  `Answer` = a string or a list of strings, `Test`, the three views), the
  JavaScript truthiness of an answer, and the checkbox list operation
  (append on check, `filter` on uncheck) used by two components.
- `index.dfy` (`Index`): the session page. `Session` is a class with the
  three state fields `user`, `tests`, `view` and the handlers `Login`,
  `Logout`, `SaveTest`, `Navigate`; `Authenticate` is the account table
  lookup; `Render` is what the page shows for a given state;
  `SaveFromCreator` wires the authoring form's save callback to the session.
- `test_creator.dfy` (`Authoring`): `TestCreator` is a class with the fields
  `testName`, `questions` and `current` (the question being written, with its
  four option slots), and one method per handler.
- `homework_page.dfy` (`Homework`): `HomeworkPage` is a class with the
  fields `selected` and `answers` (question id to answer); `ListTests` is the
  list of test cards with their duration estimate.
- `header.dfy` (`Header`): `split(" ")`, the avatar initials and the user
  block.
- `dashboard.dfy` (`Dashboard`): `slice(-2)`, the test count and the cards'
  navigation targets.

Clock readings (`Date.now()`, `new Date()`) are the parameters `now` and
`createdAt`; timestamps are plain integers. An `alert` is a returned value:
`Session.Login` returns the failure message, `HomeworkPage.Submit` returns
the acknowledgement. Each handler runs on its own, one call at a time.

The functions state their results through their relation to the inputs
(for example, the initials are the characters that begin a word of the name,
and split then join gives the name back). The stateful methods state the new
state in terms of the old one. Lemmas prove the round trips and the
toggle-twice properties. Small client methods (`TeacherAuthorsOneTest`,
`StudentForcedToCreator`, `TickThreeUntickOne`, ...) build fresh objects,
run a sequence of handlers, and state what the user then sees.

Where the design description and the code disagree, the model follows the
code:

- A multiple-choice question with no correct answer ticked is accepted by
  `addQuestion`, because the guard tests JavaScript truthiness and `[]` is
  truthy (src/components/TestCreator.tsx:46). A non-empty list is not
  required.
- An added question keeps the form's four option slots whatever its type,
  because the form object is spread into it
  (src/components/TestCreator.tsx:50). Text and formula questions carry
  options too.
- Closing the answer dialog does not discard the captured answers, and
  neither does opening another test. There is no close handler, and while
  the homework page stays mounted only `submitTest` clears the map
  (src/components/HomeworkPage.tsx:60-65,133). Leaving the homework view or
  logging out unmounts the page and drops the map with it
  (src/pages/Index.tsx:65-72,117-127); see "## Left out".
- `src/pages/Index.tsx:13-24` and `src/components/Dashboard.tsx:13-24`
  declare a narrower `Test` type than the authoring and homework files. One
  `Test`/`Question` type is used throughout, since the same values pass
  through all four files.

The login tables are plain objects, so `users["__proto__"]` or
`users["toString"]` is truthy. But the matching `validPasswords[...]` is
never a string, so `===` against the password fails. Login therefore
succeeds exactly for the three table entries, as `Authenticate` states.

## Model

| member | source | states |
|---|---|---|
| `Model.Without` | src/components/TestCreator.tsx:207-209 | `filter((a) => a !== x)` removes every occurrence of x, keeps every other value, and returns a list without x unchanged |
| `Model.WithoutCounts` | src/components/HomeworkPage.tsx:206-208 | the filter keeps each other value exactly as often as it occurred |
| `Model.Truthy` | src/components/TestCreator.tsx:46 | an answer is truthy exactly when it is not the empty string; every list, even [], is truthy |
| `Model.Toggled` | src/components/TestCreator.tsx:199-210 | a check gives the old list with the option appended at the end; an uncheck gives a list without the option that keeps every other value of the old one |
| `Model.ToggleOnOffRestores` | src/components/TestCreator.tsx:195-211 | checking an option that was not in the list and then unchecking it gives back the list of before |
| `Model.ToggleOnOffRemovesAll` | src/components/HomeworkPage.tsx:193-211 | for any list, check followed by uncheck equals removing the option from the original list |
| `Model.WithoutConcat` | src/components/TestCreator.tsx:207-209 | filtering distributes over concatenation |
| `Header.Split` | src/components/Header.tsx:33-34 | `split(" ")` gives one more piece than there are spaces, and no piece contains a space |
| `Header.SplitThenJoin` | src/components/Header.tsx:33-34 | joining the pieces of a name with single spaces gives the name back |
| `Header.JoinThenSplit` | src/components/Header.tsx:33-34 | splitting a space-joined list of space-free pieces gives those pieces back |
| `Header.Initials` | src/components/Header.tsx:33-36 | the avatar text has one initial per non-empty piece of the name, contains no space, and is never longer than the name |
| `Header.InitialsAreWordStarts` | src/components/Header.tsx:33-36 | the initials are exactly the characters that begin a word (non-space, at the start or after a space), in order; empty pieces from extra spaces add nothing |
| `Header.InitialsLength` | src/components/Header.tsx:35-36 | there is one initial per non-empty piece |
| `Header.WordStartsBounds` | src/components/Header.tsx:33-36 | no initial is a space, and there are never more initials than characters in the name |
| `Header.InitialsOfTwoWords` | src/components/Header.tsx:33-36 | two space-free words separated by one space give the first letter of each |
| `Header.InitialsOfFullName` | src/components/Header.tsx:33-36 | "Анна Петрова" gives "АП" |
| `Header.InitialsOfBlankName` | src/components/Header.tsx:33-36 | an empty name, or a name of spaces only, gives "" |
| `Header.RoleLabel` | src/components/Header.tsx:44 | the label is "Преподаватель" exactly for a teacher and "Ученик" exactly for a student |
| `Header.UserBlockOf` | src/components/Header.tsx:28-48 | the user block exists exactly when a user is logged in, and shows the name, the initials and "Преподаватель" for a teacher or "Ученик" for a student |
| `Dashboard.IsTeacher` | src/components/Dashboard.tsx:40 | `isTeacher` holds exactly when the user is not a student |
| `Dashboard.Slice` | src/components/Dashboard.tsx:119 | `slice(start)` is a suffix of the list: for a negative start its length is -start capped at the list's length, for a non-negative start it is what remains after start, or nothing |
| `Dashboard.RecentTests` | src/components/Dashboard.tsx:119 | `slice(-2)` is the last two tests in their original order, or the whole list when it has fewer than two |
| `Dashboard.RecentAfterAppend` | src/components/Dashboard.tsx:119 | after a test is appended, the recent list ends with it, preceded by the test that was last before |
| `Dashboard.Render` | src/components/Dashboard.tsx:40-156 | `isTeacher` holds exactly for the teacher role; the teacher's homework card counts `tests.length`; the recent list is shown exactly to a teacher with at least one test; all four card buttons navigate to the homework view |
| `Homework.Spread` | src/components/HomeworkPage.tsx:201 | spreading a string gives one single-character string per character, in order |
| `Homework.ToggledChoice` | src/components/HomeworkPage.tsx:193-211 | a checkbox toggle appends the option on check and removes every occurrence on uncheck; a missing entry or "" counts as []; a non-empty stored string makes uncheck throw and check spread the string |
| `Homework.ChoiceOnOffRestores` | src/components/HomeworkPage.tsx:193-211 | check then uncheck of an absent option restores the captured list |
| `Homework.DurationMinutes` | src/components/HomeworkPage.tsx:124 | the estimate is an even number of minutes, two per question |
| `Homework.ListTests` | src/components/HomeworkPage.tsx:80-133 | the empty state exactly for no tests; otherwise one card per test in list order, with its name, its question count and a duration of 2 minutes per question; only students get the take-test action, which opens that test |
| `Homework.HomeworkPage.constructor` | src/components/HomeworkPage.tsx:47-48 | no test selected and no answers |
| `Homework.HomeworkPage.Open` | src/components/HomeworkPage.tsx:133 | opening a test selects it and keeps every captured answer |
| `Homework.HomeworkPage.RecordAnswer` | src/components/HomeworkPage.tsx:50-58 | `handleAnswerChange` sets entry qid to the new answer, replacing the old one, and leaves every other entry unchanged; the radio group and the text area call it directly |
| `Homework.HomeworkPage.ToggleChoice` | src/components/HomeworkPage.tsx:193-211 | a checkbox stores the toggled list under qid only, or changes nothing when the handler throws |
| `Homework.HomeworkPage.Submit` | src/components/HomeworkPage.tsx:60-65 | submit acknowledges and clears the selected test and every answer, whatever was answered |
| `Homework.RadioThenSubmit` | src/components/HomeworkPage.tsx:154-159 | the last radio choice is the one kept, and submit then empties the answers |
| `Homework.TickThreeUntickOne` | src/components/HomeworkPage.tsx:182-211 | ticking a, b, c and unticking b leaves [a, c] |
| `Authoring.Offered` | src/components/TestCreator.tsx:166-173 | the correct-answer select offers exactly the non-empty option slots |
| `Authoring.TestCreator.constructor` | src/components/TestCreator.tsx:36-43 | empty name, no questions, a single-choice form with four empty options and answer "" |
| `Authoring.TestCreator.CanSave` | src/components/TestCreator.tsx:263 | the Save button is enabled exactly when the test name is non-empty and there is at least one question |
| `Authoring.TestCreator.EditTestName` | src/components/TestCreator.tsx:258 | the test name becomes the typed text |
| `Authoring.TestCreator.EditText` | src/components/TestCreator.tsx:93-97 | only the question text of the form changes |
| `Authoring.TestCreator.ChangeType` | src/components/TestCreator.tsx:106-114 | the type changes and the correct answer becomes [] for multiple choice and "" otherwise; text and options are kept |
| `Authoring.TestCreator.EditOption` | src/components/TestCreator.tsx:137-143 | only option slot i changes, and there are still four slots |
| `Authoring.TestCreator.ChooseSingleAnswer` | src/components/TestCreator.tsx:153-160 | the chosen non-empty option becomes the correct answer |
| `Authoring.TestCreator.EnterTextAnswer` | src/components/TestCreator.tsx:228-235 | the typed text becomes the correct answer of a text or formula question |
| `Authoring.TestCreator.ToggleCorrect` | src/components/TestCreator.tsx:195-211 | checking appends the option at the end of the correct answers; unchecking removes every occurrence |
| `Authoring.TestCreator.AddQuestion` | src/components/TestCreator.tsx:45-61 | adds a question exactly when the text is non-empty and the correct answer is not ""; it then appends one question with the form's fields and id `now` and resets the form to its defaults; otherwise nothing changes |
| `Authoring.TestCreator.SaveTest` | src/components/TestCreator.tsx:63-69 | forwards (name, questions) once exactly when the name is non-empty and there is a question (the Save button's enabled condition), then clears both; otherwise nothing changes; the form is never touched |
| `Authoring.ToggleTwiceRestores` | src/components/TestCreator.tsx:188-211 | for any multiple-choice form and any offered option not yet ticked (the controlled checkbox only ticks such an option), ticking and unticking it leaves the whole form as it was |
| `Authoring.AddQuestionTruthiness` | src/components/TestCreator.tsx:45-46 | a multiple-choice question with nothing ticked is added; a single-choice one with no answer chosen is not |
| `Index.Authenticate` | src/pages/Index.tsx:44-62 | a login succeeds exactly for user1/password1, user2/password2 and teacher/password, and yields that account's name and role |
| `Index.Render` | src/pages/Index.tsx:70-127 | the login form exactly when nobody is logged in; the navigation bar exactly for a teacher; at most one page, the one of the current view, where the test creator also needs a teacher |
| `Index.Session.constructor` | src/pages/Index.tsx:27-31 | no user, no tests, the dashboard view |
| `Index.Session.Login` | src/pages/Index.tsx:44-63 | on valid credentials the user becomes the account's record; otherwise the alert is returned and the user is unchanged; tests and view never change |
| `Index.Session.Logout` | src/pages/Index.tsx:65-68 | no user, dashboard view, tests kept |
| `Index.Session.SaveTest` | src/pages/Index.tsx:33-42 | appends exactly one test with the given name, questions, id and timestamp, keeps the earlier tests, and returns to the dashboard |
| `Index.Session.Navigate` | src/pages/Index.tsx:83-121 | a tab or the dashboard's callback sets the view, with no role check |
| `Index.SaveFromCreator` | src/pages/Index.tsx:125 | the authoring form's save appends one test to the session exactly when the form's guard holds, and then clears the form's name and questions |
| `Index.StudentLoginLogout` | src/pages/Index.tsx:44-72 | user1/password1 shows Анна Петрова's dashboard without the navigation bar; logout returns to the login form |
| `Index.StudentHeader` | src/components/Header.tsx:33-44 | user1's header shows "АП", "Анна Петрова" and "Ученик" |
| `Index.StudentForcedToCreator` | src/pages/Index.tsx:124 | a student whose view is the test creator sees no page and no navigation bar |
| `Index.WrongPassword` | src/pages/Index.tsx:58-62 | a wrong password keeps the login form and returns the alert |
| `Index.WriteOneQuestionTest` | src/components/TestCreator.tsx:45-61 | writing the text question "H2O" with answer "вода" and adding it, then naming the test T1, leaves a valid form with that name and one question |
| `Index.TeacherAuthorsOneTest` | src/pages/Index.tsx:33-42 | a teacher saving test T1 with one question gets one test and the dashboard, whose recent list is that test |
| `Index.SaveWithoutName` | src/components/TestCreator.tsx:63-69 | saving with an empty test name adds no test even with a question written, and the view stays on the test creator |

## Left out

- Markup, styling and the UI widgets (cards, selects, dialogs, radio groups, checkboxes, progress bars, icons). They only present the state.
- The login form component. It only forwards the two field values to the login handler.
- `toLocaleDateString("ru-RU")` on a test card. It is locale formatting of the creation date.
- Opening and closing the answer dialog, and the fact that the radio and checkbox widgets keep their own checked state.
- The dashboard's static progress percentages, calendar entries and role-dependent texts. They are constants with no logic.
- The authoring form's preview panel (question count, type labels, `join(", ")` of the answers). It only displays state.
- React's rendering and batching. Each handler is modelled as one sequential call. The checkbox handler reads `answers` from the last render, which is the current state under that assumption.
- Component lifetime. The test creator is mounted only while its view is shown, and the homework page only while its view is shown (src/pages/Index.tsx:117-127). A view change or a logout (src/pages/Index.tsx:65-72) therefore discards the form's draft, name and questions, and the captured answers and selected test. The model keeps `TestCreator` and `HomeworkPage` in objects that outlive navigation, and it does not reset them when the session's view changes. In particular, `Index.SaveFromCreator` keeps the draft, which the program drops when the save returns to the dashboard.
- Strings are modelled as sequences of Unicode characters, not of UTF-16 code units. `n[0]` in the initials (src/components/Header.tsx:35) takes the first code unit, so for a piece that starts outside the Basic Multilingual Plane the program shows half a surrogate pair where `Header.Initials` gives the whole character. The two agree for names made of BMP characters, such as the three account names.
- `Authoring.TestCreator.EditOption`: requires the slot index to be one of the four rendered slots. JavaScript would grow the array for a larger index, but the form never produces one.
- `Authoring.TestCreator.ChooseSingleAnswer`, `Authoring.TestCreator.ToggleCorrect`: require the option to be a non-empty slot and the form to have the matching type, because only those widgets are rendered.
- `Homework.HomeworkPage.Open`: does not require a student. The take-test button is shown only to students, which `Homework.ListTests` states.
