# TaskFlow project-share: a verified model of the client-side logic

TaskFlow is a small browser app for sharing projects. It has projects, each
project's task board and chat, a profile, and a mock sign-in. All of its data
lives in the browser's local storage under four kinds of key: `mockUser`,
`projects`, `tasks-<projectId>` and `messages-<projectId>`. This Dafny
project models the logic inside the app's components and proves what that
logic promises.

Module by module:

- `Common`: the string operations the components use, and a generic
  order-keeping `Filter`. The string operations are `trim`, ASCII
  `toLowerCase`, `includes`, and "up to the first separator" (`split(x)[0]`).
- `Entities`: users, projects, tasks and messages, and the split of a task
  list into status columns.
- `Storage`: local storage as a `LocalStore` object holding a map from keys
  to stored lists. The four key forms and the reads each component makes on
  mount are defined here.
- `TaskBoard`: the board of one project. It covers the three whole-list
  mutations, each written back to `tasks-<projectId>`. It also covers the
  three-part visibility filter, the four status columns, and clearing the
  filters.
- `AuthContext`: the session. It is a pure state machine (`Step` and `Run`
  over events) plus a `Session` class. Each of its public methods (`SignUp`,
  `SignIn`, `SignOut`, `RecordActivity`, `HandleWindowEvent`, `Tick`) is
  proved to perform exactly one `Step`; `ResetInactivityTimer` is the
  internal helper they share, and it only re-arms the deadline. The inactivity timer is one optional deadline on
  an explicit millisecond clock.
- `TaskStats` and `ProjectStats`: the counts and the rounded completion
  percentage.
- `Dashboard`: the project list and `getAllTasks`, a loop proved against
  its specification. It also covers selecting a project and the
  profile-reminder and header-name logic.
- `Chat`: a guarded append of a trimmed message, persisted to
  `messages-<projectId>`.
- `CreateProjectModal`: builds a project record and hands it to the
  dashboard.
- `Auth`: the sign-in / sign-up form with its full-name check.
- `ProfileModal`: the profile form's starting values, and the edited user
  written to `mockUser`.

Random ids, the current time (`new Date()`) and the current clock reading
are passed in as parameters.

### Behaviour of the code worth knowing

- A session restored at start-up is armed at once. The effect at
  AuthContext.tsx:64-67 runs whenever `user` becomes non-null, and that
  includes the restore at AuthContext.tsx:38-44. `Restored` arms the alarm,
  and `RestoredSessionExpires` proves such a session ends after 30 idle
  minutes.
- `recordActivity` (AuthContext.tsx:89-91) re-arms the timer whether or not
  a user is signed in. `StrayAlarmHarmless` proves that, from a signed-out
  session, time alone never brings a user back: when such an alarm fires,
  the session stays signed out. A later sign-up or sign-in replaces the
  alarm with a fresh one (`Step` re-arms through `Rearmed`).
- The non-empty full-name check lives in the form (Auth.tsx:20-24).
  `signUp` (AuthContext.tsx:93-107) stores whatever full name it is given.

## Model

| member | source | states |
|---|---|---|
| Common.Trim | ProfileModal.tsx:58 | `trim`: the result is the input with leading and trailing whitespace removed; it has no whitespace at either end; it is empty exactly when the input is blank |
| Common.TrimIdempotent | CreateProjectModal.tsx:36-37 | trimming a trimmed string changes nothing |
| Common.Contains | TaskBoard.tsx:67-68 | `includes`: true exactly when the needle occurs at some position of the haystack |
| Common.Lower | TaskBoard.tsx:67-68 | `toLowerCase`: same length, and each character lower-cased on its own (ASCII letters) |
| Common.LowerIdempotent | TaskBoard.tsx:67-68 | lower-casing a lower-cased string changes nothing |
| Common.BeforeFirst | AuthContext.tsx:114 | `split(sep)[0]`: a prefix of the input containing no separator, followed in the input by the separator or by the end |
| Common.BeforeFirstWhole | AuthContext.tsx:114 | the whole input comes back exactly when it contains no separator |
| Common.Filter | TaskBoard.tsx:62 | `Array.filter`: an order-keeping subsequence holding exactly the elements that pass, each exactly as often as in the input |
| Common.SubsequenceLength | TaskBoard.tsx:62 | a subsequence is no longer than its source, and one of equal length is the source |
| Common.FilterAll | TaskBoard.tsx:66-73 | a filter every element passes returns the list unchanged |
| Common.FilterConcat | TaskBoard.tsx:66-73 | filtering a concatenation is concatenating the filtered parts |
| Common.FilterSame | TaskBoard.tsx:66-73 | two tests that agree on every element keep the same elements |
| Common.FilterNone | TaskBoard.tsx:66-73 | a filter no element passes returns the empty list |
| Common.Count | TaskStats.tsx:19 | `filter(p).length`: at most the list's length, and exactly the number of positions whose element passes (proved by `FilterSize`) |
| Entities.OfStatus | TaskBoard.tsx:111 | one column: an order-keeping subsequence holding exactly the tasks with that status, each as often as in the list; its length is the number of positions holding a task of that status |
| Entities.OfStatusAllOrNone | TaskStats.tsx:16 | if every task has the status, the column is the whole list; if none has it, the column is empty |
| Entities.StatusPartition | TaskBoard.tsx:23-28 | the four status columns together hold every task exactly once (as multisets), and their sizes add up to the list's length |
| Entities.StatusNamesDistinct | TaskBoard.tsx:23-28 | two statuses have the same id exactly when they are the same status |
| Entities.PriorityNamesDistinct | TaskBoard.tsx:69 | two priorities have the same id exactly when they are the same priority |
| Entities.OfStatusSomeOrAll | ProjectStats.tsx:21 | a status group is non-empty exactly when some task has the status, and as long as the list exactly when every task has it |
| Storage.TasksKey | TaskBoard.tsx:38 | the key is `tasks-` followed by the project id |
| Storage.MessagesKey | Chat.tsx:25 | the key is `messages-` followed by the project id (also written at Chat.tsx:41) |
| Storage.KeysDistinct | Dashboard.tsx:43 | task keys, message keys, `mockUser` and `projects` never collide, and a task or message key determines its project id |
| Storage.LocalStore.SetItem | TaskBoard.tsx:46 | `setItem` replaces one entry and leaves every other key as it was |
| Storage.LocalStore.RemoveItem | AuthContext.tsx:48 | `removeItem` drops one key and leaves every other key as it was |
| TaskBoard.WithStatus | TaskBoard.tsx:54-57 | same length, and each task keeps every field but its status; exactly the tasks with the id get the new status |
| TaskBoard.WithoutTask | TaskBoard.tsx:61-62 | an order-keeping subsequence holding exactly the tasks whose id differs |
| TaskBoard.DeleteAccounting | TaskBoard.tsx:61-64 | deleting shortens the list by the number of tasks with that id; an id no task has leaves the list unchanged |
| TaskBoard.StatusChangeMovesColumn | TaskBoard.tsx:54-59 | after a status change, each task with the id sits in the new status's column and in no other |
| TaskBoard.FilteredTasks | TaskBoard.tsx:66-73 | an order-keeping subsequence holding exactly the tasks that match the search (title or present description, lower-cased) and pass the priority and status filters |
| TaskBoard.NoFilterShowsAll | TaskBoard.tsx:66-73 | with an empty query and neither filter set, every task is shown |
| TaskBoard.EmptyQueryMatches | TaskBoard.tsx:67-68 | the empty search matches every task (`includes('')` is always true) |
| TaskBoard.StatusFilterSelectsColumn | TaskBoard.tsx:67-70 | choosing a status, with no query and no priority, shows exactly that status's column |
| TaskBoard.PriorityFilterSelects | TaskBoard.tsx:67-70 | choosing a priority, with no query and no status, shows exactly the tasks of that priority, in order |
| TaskBoard.UnknownFilterHidesAll | TaskBoard.tsx:69-70 | a set filter whose value names no priority or no status hides every task |
| TaskBoard.SearchIgnoresCase | TaskBoard.tsx:67-68 | both sides are lower-cased, so a lower-cased query shows the same tasks as the query |
| TaskBoard.CreatedTaskOnBoard | TaskBoard.tsx:49-52 | a new first task appears first on the board exactly when it passes the filter; the rest of the board is unchanged |
| TaskBoard.ColumnsPartitionVisible | TaskBoard.tsx:111 | each visible task is in the column of its own status and in no other, and the column sizes add up to the number of visible tasks |
| TaskBoard.DoneAndUrgentExample | TaskBoard.tsx:69-70 | with status `done` and priority `urgent` selected, of a done/urgent, a done/low and a todo/urgent task only the first is shown |
| TaskBoard.Board.constructor | TaskBoard.tsx:37-42 | mounting loads `tasks-<projectId>` (empty when absent) with all filters cleared |
| TaskBoard.Board.SaveTasks | TaskBoard.tsx:44-47 | the list is replaced in memory and under `tasks-<projectId>`; nothing else in storage changes; what is stored equals what is shown |
| TaskBoard.Board.HandleTaskCreated | TaskBoard.tsx:49-52 | the dialog closes, the new task goes first ahead of the old tasks in order, and the list is persisted |
| TaskBoard.Board.HandleStatusChange | TaskBoard.tsx:54-59 | the list becomes `WithStatus` of the old list and is persisted |
| TaskBoard.Board.HandleTaskDelete | TaskBoard.tsx:61-64 | the list becomes `WithoutTask` of the old list and is persisted |
| TaskBoard.Board.HasActiveFilters | TaskBoard.tsx:75 | while no filter is active the board shows every task |
| TaskBoard.Board.SetPriorityFilter | TaskFilters.tsx:58 | choosing the empty option unsets the filter (an empty value becomes null) |
| TaskBoard.Board.SetStatusFilter | TaskFilters.tsx:75 | choosing the empty option unsets the filter (an empty value becomes null) |
| TaskBoard.Board.HandleClearFilters | TaskBoard.tsx:75-81 | the query, priority and status are reset, no filter is active, and every task is shown |
| AuthContext.SignUpUser | AuthContext.tsx:93-99 | the new user has the given id, and the email and full name exactly as given; avatar, bio, location, role, phone, time zone, department, join date, title, company and website are all unset |
| AuthContext.SignInUser | AuthContext.tsx:109-118 | the full name is the email up to its first `@` (all of it when there is none); role is `Member`, time zone `UTC`, and the join date is the sign-in time; avatar, bio, location, phone, department, title, company and website are unset |
| AuthContext.Rearmed | AuthContext.tsx:54-62 | the one pending alarm is replaced by one a full timeout from now; nothing else changes |
| AuthContext.SignedOut | AuthContext.tsx:46-52 | no user in memory or storage and no pending alarm; the clock is unchanged |
| AuthContext.Step | AuthContext.tsx:46-91 | one event: only time passing moves the clock; only sign-up or sign-in brings a user in or stores one, and both do; sign-out leaves no user, stored user or alarm; a changed alarm is either cancelled or set a full timeout from the current time |
| AuthContext.Run | AuthContext.tsx:46-91 | along a trace the clock never goes back, and a user the session did not start with comes only from a sign-up or sign-in in the trace |
| AuthContext.Restored | AuthContext.tsx:38-44 | start-up takes the saved user, and arms the alarm exactly when there is one |
| AuthContext.RunInv | AuthContext.tsx:64-87 | along any sequence of events a signed-in user always has an alarm pending; that alarm is in the future and at most one timeout ahead; a user is stored only while signed in |
| AuthContext.SignOutIdempotent | AuthContext.tsx:46-52 | signing out twice is signing out once |
| AuthContext.QuietBeforeDeadline | AuthContext.tsx:59-61 | until the deadline, time passing changes only the clock |
| AuthContext.QuietPastDeadline | AuthContext.tsx:59-61 | once time reaches the deadline the session is signed out, with the user removed from storage and nothing pending |
| AuthContext.InactivityForcesSignOut | AuthContext.tsx:31 | a signed-in session left idle for 30 × 60 × 1000 ms is signed out and its stored user removed |
| AuthContext.ActivityDefersSignOut | AuthContext.tsx:69-76 | after activity, for less than a full timeout, time passing changes only the clock, so the user stays signed in |
| AuthContext.RestoredSessionExpires | AuthContext.tsx:64-67 | a session restored from storage is signed out after a full idle timeout, like any other |
| AuthContext.StrayAlarmHarmless | AuthContext.tsx:89-91 | from a signed-out session, time passing alone (with any alarm `recordActivity` armed) never brings a user back or stores one; the clock advances by the time passed, and the alarm either stays as it was or is cleared when it fires |
| AuthContext.SignedOutStaysQuiet | AuthContext.tsx:83-85 | after sign-out, time passing changes only the clock |
| AuthContext.Session.constructor | AuthContext.tsx:38-44 | the provider starts in the `Restored` state of the saved user, with loading finished |
| AuthContext.Session.ResetInactivityTimer | AuthContext.tsx:54-62 | the deadline becomes now plus the timeout |
| AuthContext.Session.SignOut | AuthContext.tsx:46-52 | one `SignOutEvent` step; `mockUser` is removed and nothing else in storage changes |
| AuthContext.Session.SignUp | AuthContext.tsx:93-107 | one `SignUpEvent` step; `mockUser` holds the new user; no error |
| AuthContext.Session.SignIn | AuthContext.tsx:109-126 | one `SignInEvent` step; `mockUser` holds the new user; no error |
| AuthContext.Session.RecordActivity | AuthContext.tsx:89-91 | one `RecordActivityEvent` step: the timer is re-armed whether or not a user is signed in |
| AuthContext.Session.HandleWindowEvent | AuthContext.tsx:69-76 | mousedown, keydown, touchstart and mousemove re-arm the timer while a user is signed in; other events change nothing |
| AuthContext.Session.Tick | AuthContext.tsx:59-61 | one `Elapse` step to the new time; if the deadline has come, `mockUser` is removed and otherwise storage is untouched |
| TaskStats.StatsOf | TaskStats.tsx:14-20 | `total` is the number of tasks; `done`, `inProgress` and `todo` are the numbers of positions holding a task of that status, and `urgent` those holding an urgent task; done, in-progress and todo plus the uncounted review tasks make up `total` |
| TaskStats.CompletionRate | TaskStats.tsx:22 | 0 for no tasks; otherwise the whole number nearest to 100 × done / total, with halves rounded up |
| TaskStats.RateBounds | TaskStats.tsx:22 | the rate lies in 0..100; it is 100 when all tasks are done and 0 when none is |
| TaskStats.NearlyDoneReadsFull | TaskStats.tsx:22 | 199 done tasks of 200 already read 100 % |
| TaskStats.TaskCompletionRate | TaskStats.tsx:22 | a task list's rate is `CompletionRate` of its number of done tasks over its length: at most 100, and 0 for an empty list |
| TaskStats.AllOrNothingDone | TaskStats.tsx:16-22 | a non-empty all-done list reads 100 %; a list with nothing done reads 0 % |
| TaskStats.UrgentCount | TaskStats.tsx:19 | the urgent figure counts the positions holding an urgent task |
| TaskStats.CompletionBarShown | TaskStats.tsx:74 | the completion bar shows exactly when the board has a task; when hidden, the rate would read 0 |
| ProjectStats.SummaryOf | ProjectStats.tsx:19-22 | the figures are the project count, the task count and the number of done tasks; completed is positive exactly when some task is done, and equals the total exactly when all are; the rate is `CompletionRate` of completed over total, in 0..100; Team Members is `"0"` |
| ProjectStats.CompletionPanelShown | ProjectStats.tsx:74 | the overall-completion panel shows exactly when there is a task; when hidden, the rate would read 0 |
| Dashboard.AllTasks | Dashboard.tsx:40-49 | a task is gathered exactly when it is stored for one of the projects |
| Dashboard.AllTasksAppend | Dashboard.tsx:42-47 | gathering over two lists of projects is gathering over each in turn |
| Dashboard.AllTasksLength | Dashboard.tsx:40-49 | the gathered list is as long as all the stored lists together |
| Dashboard.UnsavedProjectAddsNothing | Dashboard.tsx:43-46 | a project with no `tasks-<id>` entry contributes nothing |
| Dashboard.AllTasksFrame | Dashboard.tsx:51-54 | writing any key other than a listed project's task key leaves the gathered tasks unchanged |
| Dashboard.HeaderName | Dashboard.tsx:117 | a non-empty word without spaces: the full name up to its first space, or `User` when there is no user or that part is empty |
| Dashboard.MissingFields | Dashboard.tsx:80-83 | "full name" is listed exactly when the name is absent or blank, and "profile picture" exactly when the avatar is absent or empty, in that order and nothing else; the notice (Dashboard.tsx:146) shows exactly when one is missing |
| Dashboard.Dashboard.constructor | Dashboard.tsx:33-38 | mounting loads the `projects` list (empty when absent) |
| Dashboard.Dashboard.GetAllTasks | Dashboard.tsx:40-49 | the loop returns `AllTasks` of the projects over the current storage |
| Dashboard.Dashboard.SaveProjects | Dashboard.tsx:51-54 | the list is replaced in memory and under `projects`, and reading it back gives the same list |
| Dashboard.Dashboard.HandleProjectCreated | Dashboard.tsx:56-59 | the dialog closes, the new project goes first and the list is persisted; the gathered tasks are unchanged when the new id has no stored tasks |
| Dashboard.Dashboard.HandleProjectSelect | Dashboard.tsx:61-63 | the chosen id is selected, and a non-empty one shows that project's page (Dashboard.tsx:73-77) |
| Dashboard.Dashboard.HandleBackToProjects | Dashboard.tsx:65-67 | nothing is selected and the project list shows |
| Dashboard.Dashboard.Shown | Dashboard.tsx:73-77 | a project's page shows exactly when a project with a non-empty id is selected, and it is that project's page |
| Chat.SentMessage | Chat.tsx:46-56 | there is a message exactly when a user is signed in and the input is not blank; its content is the trimmed input and its author is the user |
| Chat.SentMessageProperties | Chat.tsx:52-53 | a sent message's content is already trimmed and not blank, and its sender sees it as their own (Chat.tsx:87) |
| Chat.OwnMessages | Chat.tsx:87 | a sent message is drawn as own by exactly the viewers whose id is the sender's, and by nobody while no one is signed in |
| Chat.Chat.constructor | Chat.tsx:24-29 | mounting loads `messages-<projectId>` (empty when absent) |
| Chat.Chat.SaveMessages | Chat.tsx:39-42 | the list is replaced in memory and under `messages-<projectId>`; what is stored equals what is shown |
| Chat.Chat.HandleSend | Chat.tsx:44-65 | with no user or blank input nothing changes; otherwise the message goes last after the old messages, the list is persisted, the input is cleared, sending ends and the empty-chat placeholder (Chat.tsx:81) is gone |
| Chat.Chat.ShowsPlaceholder | Chat.tsx:81 | the placeholder shows exactly when no message is listed |
| CreateProjectModal.NewProject | CreateProjectModal.tsx:33-40 | the name is trimmed; the description is trimmed, or none when blank; both timestamps are the same instant |
| CreateProjectModal.NewProjectTrimmed | CreateProjectModal.tsx:36-37 | the built project's text is already trimmed, and a name the enabled button accepts (CreateProjectModal.tsx:114) gives a non-empty project name |
| CreateProjectModal.SubmittableNameIsKept | CreateProjectModal.tsx:114 | while the create button is enabled (`CanSubmit`), the project it builds has a non-empty, non-blank name |
| CreateProjectModal.Modal.HandleSubmit | CreateProjectModal.tsx:25-48 | with nobody signed in nothing changes; otherwise the error is cleared, the dashboard gets the new project first and persists it, and loading ends |
| Auth.AuthForm.HandleSubmit | Auth.tsx:14-36 | in sign-up mode a blank full name sets "Please enter your full name" and leaves the session and storage alone; otherwise exactly one sign-up step (full name as typed) or sign-in step is taken, with no error; loading always ends |
| Auth.AuthForm.ToggleMode | Auth.tsx:132-135 | the mode flips and the error is cleared |
| ProfileModal.OrElse | ProfileModal.tsx:12-22 | the value-or-fallback idiom: the value when it is set and non-empty, otherwise the fallback |
| ProfileModal.InitialForm | ProfileModal.tsx:12-22 | with no user the form is empty apart from `UTC` and `Member`; otherwise the full name is the user's, each other field is the user's value when set and non-empty, else empty, or `UTC` and `Member` for time zone and role, so these two are never empty |
| ProfileModal.UpdatedUser | ProfileModal.tsx:56-69 | id, email and join date are kept; the name is trimmed; every other form field is stored as typed |
| ProfileModal.SavedProfileReopens | ProfileModal.tsx:12-22 | when the saved time zone and role are non-empty (the form's selects always supply one), reopening the form on the saved user gives back the submitted form with the name trimmed |
| ProfileModal.SavedProfileHasName | ProfileModal.tsx:344 | while the save button is enabled (`CanSubmit`), the saved profile has a non-blank name, so the dashboard stops asking for one |
| ProfileModal.Modal.constructor | ProfileModal.tsx:11-25 | the form starts at `InitialForm` of the signed-in user, and no message shows |
| ProfileModal.Modal.HandleSubmit | ProfileModal.tsx:47-82 | the messages are cleared; with nobody signed in nothing is written; otherwise `mockUser` becomes the updated user and the success message shows; the session stays consistent and loading ends |

## Left out

- Rendering: JSX, styling, icons, tab switching and the theme toggle are left out because they are presentation only.
- JSON: `JSON.stringify` / `JSON.parse` are the identity on the stored lists. Parse failures and storage quota errors are not modelled.
- Ids and timestamps: random ids (`Math.random().toString(36)`) and ISO timestamps (`new Date().toISOString()`) are parameters. Id uniqueness is not assumed or proved.
- Timers and listeners: `setTimeout` / `clearTimeout` and adding or removing window listeners are not modelled. A single deadline on an explicit clock stands in for them. React effect scheduling and state batching are not modelled.
- AuthContext.Session.Tick: requires the clock never to run backwards (`clock <= now`), because the browser's timer cannot fire in the past.
- Text handling:
  - Lowering: `toLowerCase` is modelled for ASCII letters only. Unicode case folding is left out.
  - Trimming: `trim` recognises ASCII whitespace plus U+00A0, U+FEFF, U+2028 and U+2029. The other Unicode space separators are not included.
- Rounding: `Math.round` on floating point is modelled as exact integer rounding with halves rounded up. IEEE rounding at exact .5 boundaries is not reproduced.
- Auth.AuthForm.HandleSubmit: the `catch` branch that shows an error message is not modelled. It runs only when `signUp` or `signIn` returns an error, which happens only when their storage write throws (AuthContext.tsx:101, 120). That is left out with the quota errors (see JSON above), so `AuthContext.Session.SignUp` and `AuthContext.Session.SignIn` always report no error.
- CreateProjectModal.Modal.HandleSubmit: the `catch` branch that shows "Failed to create project" is not modelled. It runs only when a storage write throws: the `projects` write reached through `onCreated` (CreateProjectModal.tsx:42, Dashboard.tsx:51-54). That is left out with the quota errors (see JSON above).
- ProfileModal.Modal.HandleSubmit: the following are left out:
  - the `catch` branch. It runs only when the `mockUser` write throws (ProfileModal.tsx:71), for instance on a large avatar data URL. That is left out with the quota errors (see JSON above);
  - the delayed `onUpdate` / `onClose` after one second;
  - the page reload it triggers (Dashboard.tsx:69-71). `AuthContext.Session.constructor` over the updated storage describes the state after the reload.
- Browser-only effects: the avatar upload through `FileReader`, `scrollIntoView` in the chat and `formatTime` are left out.
- Error handling: `useAuth` throwing outside its provider is left out, because it is React wiring.
- Other files: the task and project cards, the filter bar (apart from its `value || null` mapping, which is in the board's setters), the project view, the user card and the app shell are not part of this model.
