# Admin client model

This project models the logic of a React admin client for a micro-learning service.
It covers:

- the admin session store and the route gate in front of the six protected pages;
- the login page;
- the four resource list pages (users, lessons, quizzes, quiz answers): selection, batch and
  single delete, the create/edit form dispatch, pagination, filter resets and query building;
- the quiz, lesson and user forms: validation and prefill;
- the sortable data table;
- the dashboard's derived figures;
- the topic-generation page's preview/prune/generate workflow.

Each React handler is one atomic step on a class whose fields are the component's state.
React state, refs and `localStorage` become fields; a running interval timer becomes a
boolean. Whatever comes from outside is a parameter:

- how a request ended: `Outcome`, or a report for a poll;
- a fresh progress id;
- the result of `JSON.parse`.

The effects that depend on a flag are part of the handler that changes that flag. For
example, the preview poller is armed in the same step that raises `previewLoading`.

The four list pages write the same list logic out four times. One generic class,
`ResourceList.Controller`, models it. Each page instantiates it with its row type and
fallback messages, and adds its own filters. The Users page sets `canCreate` false, because
its form cannot create.

`Array.prototype.sort` is taken to be a stable sort: `Sorting.SortBy` is a stable insertion
sort. For a comparator that is antisymmetric and transitive, every stable sort gives the
same result.

Strings are sequences of characters, numbers on display are reals, and ids are integers.
`Text.Trim` removes the ECMAScript white-space and line-terminator characters, as
`String.prototype.trim` does.

## Model

| member | source | states |
|---|---|---|
| Common.MessageOr | src/pages/LessonsPage.tsx:77 | `err.message \|\| fallback`: the message when it is non-empty, the fallback otherwise |
| Common.Take | src/pages/DashboardPage.tsx:125 | `slice(0, n)`: the first min(n, length) elements, in order |
| Text.TrimStart | src/pages/LessonsPage.tsx:71 | the result is a suffix that does not start with white space, and everything cut off is white space |
| Text.TrimEnd | src/pages/LessonsPage.tsx:71 | the result is a prefix that does not end with white space, and everything cut off is white space |
| Text.TrimEmptyIffAllWhitespace | src/pages/LessonsPage.tsx:71 | a string trims to "" exactly when it is all white space |
| Text.TrimmedOrAbsent | src/pages/LessonsPage.tsx:71-72 | `s.trim() \|\| undefined`: absent exactly when the trimmed text is empty; when present, the value is the non-empty trimmed text |
| Text.BlankFilterIsOmitted | src/pages/QuizzesPage.tsx:76-77 | a trimmed filter is left out of the query exactly when it is blank |
| Text.NonEmptyOrAbsent | src/pages/QuizzesPage.tsx:78 | `s \|\| undefined`: absent exactly for "", otherwise the string itself |
| Sorting.SortBy | src/components/DataTable.tsx:48-92 | the sort keeps the length and is a permutation of its input |
| Sorting.SortBySorted | src/components/DataTable.tsx:48-92 | for a comparator, the sorted output is ordered: no pair is out of order |
| Sorting.SortByAllEqual | src/components/DataTable.tsx:49 | with a comparator that always returns 0, a stable sort keeps the input order |
| Sorting.InsertSorted | src/components/DataTable.tsx:48-92 | inserting into an ordered sequence keeps it ordered |
| ResourceList.IdsOf | src/pages/QuizAnswersPage.tsx:129 | `rows.map(r => r.id)`: one id per row, position by position |
| ResourceList.Toggled | src/pages/QuizAnswersPage.tsx:115-123 | toggling flips that id's membership and leaves every other id as it was |
| ResourceList.ToggleTwice | src/pages/QuizzesPage.tsx:142-150 | two toggles of the same row restore the selection |
| ResourceList.SelectAllResult | src/pages/QuizAnswersPage.tsx:125-131 | Select All clears when the selection has as many ids as there are rows, and otherwise selects exactly the displayed ids |
| ResourceList.SelectAllAlternates | src/pages/LessonsPage.tsx:131-137 | on a page of distinct ids, Select All goes from nothing to the full page and from the full page back to nothing |
| ResourceList.SelectAllComparesSizesOnly | src/pages/UsersPage.tsx:113-119 | the test compares sizes only: a same-sized selection of other ids is cleared |
| ResourceList.DistinctIdSetSize | src/pages/UsersPage.tsx:117 | distinct ids make a set of the same size |
| ResourceList.PreviousPage | src/pages/QuizAnswersPage.tsx:284 | `Math.max(1, p - 1)`: one page back, never below 1 |
| ResourceList.NextPage | src/pages/QuizAnswersPage.tsx:291 | `Math.min(totalPages, p + 1)`: one page on, never past the last page |
| ResourceList.NavigationStaysInRange | src/pages/QuizzesPage.tsx:356-363 | from a page in [1, totalPages], both buttons stay in [1, totalPages] |
| ResourceList.Controller.constructor | src/pages/QuizAnswersPage.tsx:11-20 | a list page starts on page 1 of 1 with no rows, no selection, no error and no form |
| ResourceList.Controller.DisplayedIds | src/pages/LessonsPage.tsx:135 | one id per displayed row |
| ResourceList.Controller.Load | src/pages/QuizAnswersPage.tsx:63-81 | loading clears the error, then installs the rows (none when absent) and the page count, or keeps the old rows and sets the error with its fallback |
| ResourceList.Controller.ToggleSelection | src/pages/QuizAnswersPage.tsx:115-123 | the new selection is `Toggled` of the old one |
| ResourceList.Controller.SelectAll | src/pages/QuizAnswersPage.tsx:125-131 | the new selection is `SelectAllResult` of the old one and the displayed ids |
| ResourceList.Controller.BatchDelete | src/pages/QuizAnswersPage.tsx:103-113 | an empty selection does nothing; otherwise the selected ids are sent, and success clears the selection and reloads while failure keeps it and sets the error |
| ResourceList.Controller.RequestDelete | src/pages/LessonsPage.tsx:93-95 | the row's delete button opens the confirmation for that row |
| ResourceList.Controller.CancelDelete | src/pages/LessonsPage.tsx:297 | cancelling closes the confirmation |
| ResourceList.Controller.ConfirmDelete | src/pages/LessonsPage.tsx:97-107 | without a pending row nothing happens; otherwise its id is sent, and success closes the confirmation and reloads while failure keeps it and sets the error |
| ResourceList.Controller.OpenCreateForm | src/pages/QuizzesPage.tsx:88-91 | the create button opens an empty form |
| ResourceList.Controller.OpenEditForm | src/pages/QuizzesPage.tsx:93-96 | the edit button opens the form on that row |
| ResourceList.Controller.CloseForm | src/pages/QuizzesPage.tsx:331-332 | cancelling closes the form and forgets the row |
| ResourceList.Controller.SubmitForm | src/pages/QuizzesPage.tsx:160-181 | an update of the edited row, else a create where the page can create, else the not-implemented error; success closes the form and reloads; an error stays on the open form |
| ResourceList.Controller.Previous | src/pages/LessonsPage.tsx:278 | the page becomes `PreviousPage` of the old page |
| ResourceList.Controller.Next | src/pages/LessonsPage.tsx:285 | the page becomes `NextPage` of the old page |
| ResourceList.Controller.ResetPage | src/pages/LessonsPage.tsx:31-33 | a debounce firing or an immediate filter change puts the list back on page 1 |
| ResourceList.Controller.SetPageSize | src/pages/QuizAnswersPage.tsx:274-275 | a new page size also goes back to page 1 |
| QuizAnswersPage.CountCorrect | src/pages/QuizAnswersPage.tsx:135 | the correct count is at most the total; it equals the total exactly when every attempt is correct, and is 0 exactly when none is |
| QuizAnswersPage.CountCorrectAppend | src/pages/QuizAnswersPage.tsx:135 | the count of a concatenation is the sum of the counts |
| QuizAnswersPage.Stats | src/pages/QuizAnswersPage.tsx:133-138 | `total` is the number of attempts and `correct` the correct count |
| QuizAnswersPage.SuccessRate | src/pages/QuizAnswersPage.tsx:136 | the rate is a percentage in [0, 100]: 0 without attempts and 100 when all are correct |
| QuizAnswersPage.Page.constructor | src/pages/QuizAnswersPage.tsx:8-22 | the page starts on page 1 with 20 rows per page, no filters, and no create |
| QuizAnswersPage.Page.SetUserIdFilter | src/pages/QuizAnswersPage.tsx:208 | typing sets the user-id filter |
| QuizAnswersPage.Page.SetQuizIdFilter | src/pages/QuizAnswersPage.tsx:215 | typing sets the quiz-id filter |
| QuizAnswersPage.Page.UserIdDebounceFired | src/pages/QuizAnswersPage.tsx:25-40 | the user-id debounce firing puts the list on page 1 |
| QuizAnswersPage.Page.QuizIdDebounceFired | src/pages/QuizAnswersPage.tsx:42-57 | the quiz-id debounce firing puts the list on page 1 |
| QuizAnswersPage.Page.SetCorrectFilter | src/pages/QuizAnswersPage.tsx:220-223 | choosing a result filter sets it and goes back to page 1 |
| QuizAnswersPage.Page.Query | src/pages/QuizAnswersPage.tsx:67-73 | the request carries the page and page size; a blank id filter is absent and a filled one is its trimmed text; the result filter is `correctFilter \|\| undefined` |
| QuizzesPage.ToggleActivePatch | src/pages/QuizzesPage.tsx:104-105 | the patch flips `is_active` and changes nothing else |
| QuizzesPage.ToggleActiveTwiceRestores | src/pages/QuizzesPage.tsx:102-116 | toggling twice restores the quiz |
| QuizzesPage.Page.constructor | src/pages/QuizzesPage.tsx:10-27 | the page starts on page 1 with 20 rows per page, no filters, no form, and create enabled |
| QuizzesPage.Page.SetSearch | src/pages/QuizzesPage.tsx:255 | typing sets the search text |
| QuizzesPage.Page.SetCategoryFilter | src/pages/QuizzesPage.tsx:262 | typing sets the category filter |
| QuizzesPage.Page.SearchDebounceFired | src/pages/QuizzesPage.tsx:29-44 | the search debounce firing puts the list on page 1 |
| QuizzesPage.Page.CategoryDebounceFired | src/pages/QuizzesPage.tsx:46-61 | the category debounce firing puts the list on page 1 |
| QuizzesPage.Page.SetDifficultyFilter | src/pages/QuizzesPage.tsx:267-270 | choosing a difficulty sets it and goes back to page 1 |
| QuizzesPage.Page.ToggleActive | src/pages/QuizzesPage.tsx:102-116 | the update flips the quiz's `is_active`; success reloads, failure sets the error with 'Failed to update quiz' as fallback |
| QuizzesPage.Page.Query | src/pages/QuizzesPage.tsx:72-79 | page and page size; search and category are trimmed or absent when blank; difficulty is `difficultyFilter \|\| undefined` |
| LessonsPage.Page.constructor | src/pages/LessonsPage.tsx:9-23 | the page starts on page 1 with no filters, no form and no pending delete, and create enabled |
| LessonsPage.Page.SetSearch | src/pages/LessonsPage.tsx:211 | typing sets the search text |
| LessonsPage.Page.SetCategoryFilter | src/pages/LessonsPage.tsx:218 | typing sets the category filter |
| LessonsPage.Page.SearchDebounceFired | src/pages/LessonsPage.tsx:26-40 | the search debounce firing puts the list on page 1 |
| LessonsPage.Page.CategoryDebounceFired | src/pages/LessonsPage.tsx:43-57 | the category debounce firing puts the list on page 1 |
| LessonsPage.Page.Query | src/pages/LessonsPage.tsx:68-73 | the page, the fixed limit 20, and the search and category trimmed or absent when blank |
| UsersPage.Page.constructor | src/pages/UsersPage.tsx:9-23 | the page starts on page 1 with no filters and no form, and create disabled |
| UsersPage.Page.SetSearch | src/pages/UsersPage.tsx:200 | typing sets the search text |
| UsersPage.Page.SearchDebounceFired | src/pages/UsersPage.tsx:25-40 | the search debounce firing puts the list on page 1 |
| UsersPage.Page.SetRoleFilter | src/pages/UsersPage.tsx:204-208 | choosing a role sets it and goes back to page 1 |
| UsersPage.Page.Query | src/pages/UsersPage.tsx:50-55 | the page, the fixed limit 20, the trimmed search or none, and `roleFilter \|\| undefined` |
| UsersPage.SubmitWithoutEditing | src/pages/UsersPage.tsx:121-136 | submitting the form without a user being edited sends nothing, throws the not-implemented error back to the form, and leaves the form open |
| DataTable.Flip | src/components/DataTable.tsx:41 | a second click on the sorted column reverses the direction |
| DataTable.CompareIsComparator | src/components/DataTable.tsx:48-92 | the comparator restricted to missing and number cells is antisymmetric and transitive |
| DataTable.SortedData | src/components/DataTable.tsx:48-92 | the displayed rows are a permutation of the data, ordered by the comparator |
| DataTable.NoSortColumnKeepsOrder | src/components/DataTable.tsx:49 | without a sort column the rows keep their order |
| DataTable.NullsLast | src/components/DataTable.tsx:55-57 | missing values come after all present ones, in both directions |
| DataTable.NumbersInDirection | src/components/DataTable.tsx:76-79 | present numbers are ascending for 'asc' and descending for 'desc' |
| DataTable.SortState.constructor | src/components/DataTable.tsx:34-35 | no sort column, ascending |
| DataTable.SortState.HandleSort | src/components/DataTable.tsx:37-46 | an unsortable column changes nothing; the current column flips direction; another column becomes the sort column, ascending |
| DataTable.SortState.Displayed | src/components/DataTable.tsx:48-92 | the rows shown are a sorted permutation under the current sort state |
| QuizForm.NonBlank | src/components/QuizForm.tsx:48 | the kept options are exactly the options whose trimmed text is non-empty |
| QuizForm.NonBlankAppend | src/components/QuizForm.tsx:48 | the filter works piecewise, so it keeps the options in their order |
| QuizForm.NonBlankKeepsFilledOptions | src/components/QuizForm.tsx:48 | when no option is blank, all options are kept |
| QuizForm.Validate | src/components/QuizForm.tsx:39-67 | the checks run in order (question, at least two options, answer among the options); acceptance holds exactly when all pass, and the payload carries the kept options and the optional fields as absent when empty |
| QuizForm.AcceptedQuizIsWellFormed | src/components/QuizForm.tsx:43-66 | an accepted quiz has a question, at least two options, none of them blank, and its answer among them |
| QuizForm.Form.constructor | src/components/QuizForm.tsx:20-26 | empty fields, four empty options, medium difficulty |
| QuizForm.Form.Prefill | src/components/QuizForm.tsx:28-37 | editing copies the quiz, with four empty options when it has none and "" for a missing explanation or category; no quiz changes nothing |
| QuizForm.Form.SetOption | src/components/QuizForm.tsx:96-99 | typing in an option replaces just that option |
| QuizForm.Form.HandleSubmit | src/components/QuizForm.tsx:39-71 | a rejection shows its message and submits nothing; an accepted payload is submitted, and a failure shows its message with 'Failed to save quiz' as fallback |
| LessonForm.Validate | src/components/LessonForm.tsx:30-33 | a lesson is rejected with 'All fields are required' exactly when a field is empty |
| LessonForm.WhitespaceFieldsPass | src/components/LessonForm.tsx:30 | fields are not trimmed: white-space-only fields pass |
| LessonForm.Form.constructor | src/components/LessonForm.tsx:13-16 | all fields empty, no error |
| LessonForm.Form.Prefill | src/components/LessonForm.tsx:18-24 | editing copies the lesson's fields; no lesson changes nothing |
| LessonForm.Form.HandleSubmit | src/components/LessonForm.tsx:26-40 | validation errors submit nothing; otherwise the fields are submitted, and a failure sets the error with 'Failed to save lesson' as fallback |
| UserForm.Validate | src/components/UserForm.tsx:28-31 | a user is rejected with 'Email is required' exactly when the email is empty |
| UserForm.Form.constructor | src/components/UserForm.tsx:13-15 | empty email, role 'user' |
| UserForm.Form.Prefill | src/components/UserForm.tsx:17-22 | editing copies the user's email and role |
| UserForm.Form.HandleSubmit | src/components/UserForm.tsx:24-38 | an empty email is refused; otherwise the email and role are submitted, and a failure sets the error with 'Failed to save user' as fallback |
| AdminAuth.LoginError | src/context/AdminAuthContext.tsx:83-109 | login succeeds exactly for a reply whose user is an admin; every error it throws has a non-empty message |
| AdminAuth.Session.Stored | src/context/AdminAuthContext.tsx:41-44 | a stored value counts only when it is present and non-empty, and then it is the stored string itself |
| AdminAuth.Session.constructor | src/context/AdminAuthContext.tsx:35-37 | the provider mounts signed out and loading |
| AdminAuth.Session.Load | src/context/AdminAuthContext.tsx:39-58 | without both keys loading just ends; unparsable admin data removes both keys; otherwise the verification decides; loading ends in every case |
| AdminAuth.Session.VerifyAdminToken | src/context/AdminAuthContext.tsx:60-81 | success installs the stored token and admin; failure removes both keys and signs out |
| AdminAuth.Session.Login | src/context/AdminAuthContext.tsx:83-109 | an admin reply stores and installs the token and user; anything else throws `LoginError` and changes nothing |
| AdminAuth.Session.Logout | src/context/AdminAuthContext.tsx:111-116 | both keys are removed and the session is signed out |
| AdminAuth.Session.ForcedLogout | src/services/adminService.ts:34-43 | a 401 or 403 removes both keys, and after the reload to `/login` the session ends loading signed out |
| AppRoutes.ProtectedPage | src/App.tsx:30-77 | each of the six protected paths maps to its own page and back (one if-and-only-if per page); `/login` and `/` are not protected |
| AppRoutes.Gate | src/App.tsx:12-24 | the placeholder exactly while loading, a redirect to `/login` exactly when signed out, the page exactly when signed in |
| AppRoutes.Resolve | src/App.tsx:26-82 | `/login` is never gated; a page is shown only on a protected path when signed in; other paths redirect to `/dashboard`; every redirect goes to `/login` or `/dashboard` |
| AppRoutes.RedirectsSettle | src/App.tsx:12-82 | following redirects ends after at most two of them |
| LoginPage.BeforeAt | src/pages/LoginPage.tsx:20 | the text before the first '@': it has no '@', and is followed by '@' when it stops short |
| LoginPage.EmailDomain | src/pages/LoginPage.tsx:20 | 'unknown' without an '@'; otherwise the text after the first '@' up to the next '@', which never contains '@' |
| LoginPage.DomainOfAddress | src/pages/LoginPage.tsx:20 | for `local@domain`, with nothing or another '@' field after it, the domain is exactly `domain` |
| LoginPage.Page.constructor | src/pages/LoginPage.tsx:8-11 | empty fields, no error, not loading |
| LoginPage.Page.SetEmail | src/pages/LoginPage.tsx:55 | typing sets the email |
| LoginPage.Page.SetPassword | src/pages/LoginPage.tsx:68 | typing sets the password |
| LoginPage.Page.HandleSubmit | src/pages/LoginPage.tsx:15-37 | the attempt is tracked, then exactly one of success or failure; only success navigates to `/dashboard`; success stores the token and the admin in the session and writes both storage keys; a failure shows the login error and leaves the session, token, admin and storage as they were; loading ends in both cases |
| Dashboard.SafeRate | src/pages/DashboardPage.tsx:25 | 0 when the denominator is not positive, otherwise the percentage num/den·100 |
| Dashboard.RateOfPartIsPercentage | src/pages/DashboardPage.tsx:113-119 | a part of a whole gives a rate in [0, 100] |
| Dashboard.SeverityFromScore | src/pages/DashboardPage.tsx:36-41 | absent is neutral, below 45 high, 45 up to 70 medium, 70 and up low |
| Dashboard.SeverityFallsAsScoreRises | src/pages/DashboardPage.tsx:36-41 | a higher score never gives a higher severity |
| Dashboard.ScoreTone | src/pages/DashboardPage.tsx:43-47 | 70 and up good, 40 up to 70 warning, below 40 bad |
| Dashboard.StatusLabel | src/pages/DashboardPage.tsx:214 | Healthy below 3, Watch from 3 to below 7, At Risk from 7 |
| Dashboard.StatusToneAgreement | src/pages/DashboardPage.tsx:213-214 | Healthy and Watch always come in the good colour; a bad colour implies At Risk; At Risk at 10% is coloured good |
| Dashboard.ProgressWidth | src/pages/DashboardPage.tsx:201 | widths (here and for the endpoint bars at line 250) lie in [2, 100] and equal the percentage inside that range |
| Dashboard.QualityScore | src/pages/DashboardPage.tsx:27-30 | a missing score is 'Unrated', a present one a percentage |
| Dashboard.FlagCount | src/pages/DashboardPage.tsx:50 | missing flags count as 0 |
| Dashboard.WorstFirstIsComparator | src/pages/DashboardPage.tsx:124 | the error-rate comparator is antisymmetric and transitive |
| Dashboard.WorstFirstSorted | src/pages/DashboardPage.tsx:122-124 | the sorted copy is in descending error rate |
| Dashboard.PrefixOfWorstFirst | src/pages/DashboardPage.tsx:125 | cutting a descending list keeps it descending and takes part of its elements |
| Dashboard.TopEndpoints | src/pages/DashboardPage.tsx:122-125 | at most six endpoints, all from the report, by descending error rate |
| Dashboard.TopEndpointsAreTheWorst | src/pages/DashboardPage.tsx:122-125 | no endpoint left out has a higher error rate than one shown |
| Dashboard.Shown | src/pages/DashboardPage.tsx:272-327 | at most six low-score topics, six flagged topics and eight activities, the first ones in order |
| TopicGeneration.CategoryOf | src/pages/TopicGenerationPage.tsx:79 | `t.category \|\| 'General'`: never empty, and the item's own category when it has one |
| TopicGeneration.ToPreviewTopics | src/pages/TopicGenerationPage.tsx:76-83 | one preview topic per generated item, in order, with index position + 1 |
| TopicGeneration.FreshPreviewIsNumbered | src/pages/TopicGenerationPage.tsx:77-81 | a fresh preview has unique indices in 1..n and no empty category |
| TopicGeneration.RemoveIndex | src/pages/TopicGenerationPage.tsx:141-143 | the kept topics are exactly those whose index differs |
| TopicGeneration.RemoveIndexAppend | src/pages/TopicGenerationPage.tsx:142 | the filter works piecewise, so the survivors keep their order |
| TopicGeneration.RemoveAbsentIndex | src/pages/TopicGenerationPage.tsx:142 | removing an index that is not present changes nothing |
| TopicGeneration.RemoveShrinksByOneIffPresent | src/pages/TopicGenerationPage.tsx:141-143 | with unique indices the list shrinks by one when the index is present and is unchanged when it is not |
| TopicGeneration.RemoveKeepsIndicesUnique | src/pages/TopicGenerationPage.tsx:141-143 | removal keeps indices unique, so the previous property holds after every removal |
| TopicGeneration.InitialStatuses | src/pages/TopicGenerationPage.tsx:204-209 | the status map has exactly the preview topics as keys, all pending |
| TopicGeneration.TopicRequests | src/pages/TopicGenerationPage.tsx:217 | one `{topic, category}` per preview topic, in order |
| TopicGeneration.Page.constructor | src/pages/TopicGenerationPage.tsx:27-53 | count 5, no category, nothing loading, empty preview, an empty (present) generated list, no progress, no ids |
| TopicGeneration.Page.SetCount | src/pages/TopicGenerationPage.tsx:246 | `parseInt(v) \|\| 1`: a non-number or 0 becomes 1 |
| TopicGeneration.Page.SetCategory | src/pages/TopicGenerationPage.tsx:257 | choosing sets the category |
| TopicGeneration.Page.HandlePreview | src/pages/TopicGenerationPage.tsx:102-139 | out of range only the range error changes and no job starts; otherwise the preview restarts empty with progress {count, 0, 0, generating}, the fresh id, the poller armed and the request sent |
| TopicGeneration.Page.PreviewRequestFailed | src/pages/TopicGenerationPage.tsx:130-134 | the error with 'Failed to preview topics' as fallback; loading ends and the poller stops |
| TopicGeneration.Page.PreviewTick | src/pages/TopicGenerationPage.tsx:56-100 | no tick without the poller or a report; a report replaces the progress; a completed one ends loading, stops the poller, installs the converted topics and reports failures |
| TopicGeneration.Page.HandleRemoveTopic | src/pages/TopicGenerationPage.tsx:141-143 | the preview becomes `RemoveIndex` of the old one |
| TopicGeneration.Page.HandleGenerateSelected | src/pages/TopicGenerationPage.tsx:186-228 | an empty preview only sets the error; otherwise progress counts the topics, every topic is pending, and the topics are requested in order under the fresh id |
| TopicGeneration.Page.GenerateRequestFailed | src/pages/TopicGenerationPage.tsx:219-223 | the error with 'Failed to generate lessons' as fallback; generation ends and the poller stops |
| TopicGeneration.Page.GenerationTick | src/pages/TopicGenerationPage.tsx:145-184 | each report replaces the progress and the generated lessons, installing an absent list as absent; a completed one ends generation, stops the poller, reports success and failures, and clears the preview |
| TopicGeneration.Page.Unmount | src/pages/TopicGenerationPage.tsx:94-99 | leaving the page runs both effect cleanups (the generation one is at line 178), so both pollers stop |
| TopicGeneration.PreviewWithOneFailure | src/pages/TopicGenerationPage.tsx:69-86 | a count-4 preview completing with three items and one failure shows the three topics, numbered 1 to 3, and one error naming the failed item |
| TopicGeneration.ExampleTopics | src/pages/TopicGenerationPage.tsx:76-83 | a plain topic, a record with a category and a record with an empty category become three preview topics numbered 1 to 3, the missing categories shown as 'General' |
| TopicGeneration.ExampleFailureMessage | src/pages/TopicGenerationPage.tsx:84-86 | one failure at index 4 reads 'Some topics failed to preview: Topic 4: timeout' |

## Left out

- HTTP: the axios wrappers of `src/services/adminService.ts` are not modelled. Each request's outcome is a parameter of the handler that awaits it.
- Interceptors: the request interceptor that attaches the bearer token is not modelled. The 401/403 teardown is modelled, as `AdminAuth.Session.ForcedLogout`.
- Timers: the 1000 ms polling intervals and the 500 ms debounces are not modelled as time. An interval is a boolean, a poll result is a `PreviewTick`/`GenerationTick` event, and a debounce firing is an event that sets the page to 1.
- Races: a tick whose request is still in flight when its interval is cleared is not modelled. Each tick is atomic and happens only while its interval runs.
- Synchronous throws: the `catch` branches around the non-blocking `previewTopics`/`generateTopicsFromList` calls (the 'Failed to start …' messages) are not modelled. Those calls return a promise and do not throw synchronously.
- Number display: `toFixed`, `Math.round`, the average latency and the percentage text are left out. So are the progress-bar widths of the topic generation page, which are floating-point display arithmetic.
- Dashboard.QualityScore: does not round the score to a whole percent.
- QuizAnswersPage.SuccessRate: is the exact quotient, not the two-decimal text.
- Dashboard data loading: the dashboard's load effect and its timeframe pills are not modelled. They only fetch and store data.
- DataTable: the Date and date-string branches and `localeCompare` are not modelled, because they depend on host-library semantics. Cells are missing or numbers, and anything else reads as missing.
- Progress ids: the random and clock-based ids are fresh parameters (`freshId`). The source's ids (`preview_…`, `gen_…`) are never empty, so its truthiness test on the id before starting an interval always passes; `HandlePreview` and `HandleGenerateSelected` arm the poller for any `freshId`, the empty one included.
- QuizAnswersPage.Page.Query: passes the trimmed id text instead of `parseInt` of it. Only "blank means no filter" is modelled.
- Analytics: `adminAnalytics` side effects are not modelled. The login page's tracked events are a sequence field, and the quiz toggle's analytics event is not modelled.
- UI-only parts are not modelled: JSX, CSS, disabled buttons, `window.confirm`, ConfirmDialog, StatsCard, AdminLayout, AdminNav and the view modals. A handler is modelled as it runs when called, whether or not its button is enabled.
- Scheduling: React's batching and the loading flags that only drive spinners are not modelled.
- TopicGeneration.ToPreviewTopics: a record item whose topic is empty gets the empty string. The source uses the item object itself there, which is not a string.
- AppRoutes.Resolve: paths are compared exactly. React Router's case-insensitive matching and its tolerance of a trailing slash are not modelled.
- Login response: a successful response that lacks its `user` or `token` is not modelled. That response would raise a TypeError inside `login`.
- JSON: `JSON.stringify` and `JSON.parse` of the stored admin are parameters (`userJson`, `parsed`). `parsed` is `None` when parsing throws; a stored `"null"`, which parses to `null` and would leave a token with no admin, is not represented, so `Valid`'s token-iff-admin invariant does not cover it.
