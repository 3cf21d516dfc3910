# A verified model of the job-board client's decision rules

The client is a React front end for a Vietnamese job board. Candidates
browse and apply for jobs. Employers post, edit and delete jobs and
read application statistics. Almost none of it is algorithmic. What it
has is a set of small decision rules: which request is sent, which
fallback is taken when the server fails, which fields a form reports,
which rows a list keeps, and which message the user sees. This project
states those rules in Dafny and proves what they guarantee.

The server is an input. Every request has one of three outcomes: a
body, an HTTP status, or no response at all (`Http.Outcome`). Each
service chain (`jobService.filterJobs`, `getJobById`,
`employerService.getMyJobs`, ...) is then a total function from the
outcomes it receives to the requests it sent and the value it resolves
or rejects with (`Http.Call`). The screens are classes whose fields are
the React state. Their handlers are methods that take the settled calls
as parameters and state the whole new state.

Modules, in the order of the program's layers:

- `Js`: the JavaScript semantics the rules depend on. This covers
  truthiness, `||` defaults, `Number(...)`, `String(...)`, `parseInt`,
  `trim`, `toLowerCase`, `includes` and `<` on strings. Numbers are
  integers or NaN.
- `Lists`: `Array.prototype.filter` and `find` over sequences, with the
  order and membership facts the lists rely on.
- `Http`: outcomes, replies, and the requests the client can send.
- `Session`: the four `localStorage` keys, the login and logout
  writes, the 401 interceptor and the bearer header (`services/api.js`).
- `Jobs` and `Api`: the job record, keyword matching, the client-side
  job filter, the filter and search payloads, and the fallback chains of
  `services/api.js`.
- `AuthContext` and `ProtectedRoute`: the React mirror of the session
  and the three-way route guard.
- `ErrorHandler`: the message chosen for an error value.
- `JobList` (`JobList.jsx`) and `JobListJs` (`JobList.js`): sorting,
  searching, filtering, the filter badges and deletion.
- `FilterModal`: the filter dialog and the object it hands to the list.
- `Forms`: the key loop every `validateForm` runs.
- `JobFormRules`: the field rules shared by the four job forms, with
  Vietnamese (`.jsx`) and English (`.js`) messages.
- `JobForm` and `JobEditForm`: the posting and editing forms. Each
  module covers both file variants and keeps their differences apart:
  the checked keys, the status options and the paths.
- `Register`, `ApplicationForm`, `ApplicationList`, `ApplicationDetail`
  and `JobStats`: the remaining screens.

`Js` and `Lists` model JavaScript built-ins. Their lemmas are used
throughout but are not listed below.

Where a guarantee is an if-and-only-if, both directions are proved. The
job forms' validity is one example: `JobFormRules.ValidIff` and the
per-field rule lemmas. A state-changing handler is proved against
specification functions whose own properties are lemmas. For example,
`JobList.Board.HandleDelete` ends with `WithoutRow` of the old list, and
`Jobs.WithoutRowExactly` says which rows that keeps.

The salary filter keeps a job only when its whole salary range lies
within the bounds. Take five jobs with salaries 5M-8M, 9M-15M, 12M-18M,
20M-25M and 18M-22M, and the bounds 10M and 20M. Only the 12M-18M job
is kept. The 9M-15M job overlaps the bounds, but
`clientSideJobFilter` drops it because its minimum is below the lower
bound (`services/api.js:386-397`). `Api.SalaryRangeScenario` states
this case.

## Model

The table lists the members whose contracts state something about the
source. The definitions those contracts are written in have no rows of
their own. Examples are `ApplicationList.BadgeColor`,
`ApplicationList.Remaining`, `ApplicationList.RowKey`,
`Register.ErrorsFor`, `Register.EmailLike`, `FilterModal.Params`,
`JobFormRules.Check`, `JobFormRules.ValidateField`, `JobList.SortBy`,
`Jobs.WithoutRow`, `JobEditForm.Loaded`, `Api.Passes`, `Api.FirstWithId`
and `ErrorHandler.Flatten`. A reader who wants one of them reaches it
through the rows of the lemmas and methods about it, which cite the same
source lines.

| member | source | states |
|---|---|---|
| Http.Settle | src/services/api.js:38-66 | a call resolves exactly when the server answered with success, with that body; an HTTP error rejects with its status and whether its body is truthy, and a missing response with a network failure |
| Session.LocalStorage.GetItem | src/services/api.js:25 | `getItem` yields a value exactly for a stored key, and that key's value |
| Session.LocalStorage.SetItem | src/services/api.js:80-85 | `setItem` replaces one key and keeps every other |
| Session.LocalStorage.RemoveItem | src/services/api.js:44-47 | `removeItem` drops one key and keeps every other |
| Session.Cleared | src/services/api.js:44-47 | the four session keys are gone and every other entry is kept with its value |
| Session.ClearSession | src/services/api.js:44-47 | the store afterwards is `Cleared` of the store before |
| Session.Logout | src/services/api.js:90-95 | `authService.logout` leaves the store `Cleared` |
| Session.InterceptResponse | src/services/api.js:38-66 | a 401 answer clears the session keys; every other answer leaves the store unchanged |
| Session.AuthorizationHeader | src/services/api.js:23-35 | a bearer header is attached exactly when a non-empty token is stored, and it is `Bearer ` followed by the token |
| Session.Lookup | src/services/api.js:25 | the lookup yields a value exactly for a stored key |
| Session.NoHeaderAfterClear | src/services/api.js:23-49 | once a 401 has cleared the store, no request carries an authorization header |
| Session.StorageText | src/services/api.js:81-83 | a missing field is stored as the text "undefined", any other value as its string conversion |
| Session.StoreAfterLogin | src/services/api.js:78-86 | without a truthy access token the store is unchanged; with one, the four session keys hold the token, the refresh token, the type id and the user type, and other keys keep their values |
| Session.LoginReply | src/services/api.js:74-88 | login resolves exactly when the answer succeeded and carried data, with that data; a body without data rejects with a type failure |
| Session.StoreAfterLoginAnswer | src/services/api.js:38-88 | a 401 during login clears the session; a resolved login stores its data; any other failure leaves the store alone |
| Session.Login | src/services/api.js:74-88 | `authService.login` sends one login request with the three arguments, settles as `LoginReply`, and leaves the store as `StoreAfterLoginAnswer` says |
| Session.LogoutUndoesLogin | src/services/api.js:74-95 | logging out after a login gives the same store as logging out without it |
| Session.LoginAttachesBearer | src/services/api.js:23-35 | after a login that returned a non-empty token, requests carry `Bearer` and that token |
| Api.Bound | src/services/api.js:386-387 | a salary bound exists exactly when the key is present and its `Number` is a positive integer, and then it is that number |
| Api.ClientSideJobFilter | src/services/api.js:383-401 | the kept jobs are exactly the jobs that pass every constraint, in their original order, each as often as in the input |
| Api.PassesMeansConstraints | src/services/api.js:386-397 | a job passes exactly when its salaries lie inside the positive bounds, its type equals a truthy category name and, for a truthy post date, its own date is not earlier |
| Api.EmptyFilterIsIdentity | src/services/api.js:383-401 | an empty filter object keeps every job in order |
| Api.NonPositiveBoundsIgnored | src/services/api.js:386-387 | salary bounds that are zero, negative or not numbers filter exactly as if absent |
| Api.SalaryRangeScenario | src/services/api.js:386-387 | with bounds 10M and 20M only the 12M-18M job of five is kept; the 9M-15M job is dropped because it starts below the lower bound |
| Api.FilterPayload | src/services/api.js:161-173 | the payload has the six fixed keys plus `postDate` exactly when that is truthy; each key is the filter's value when truthy and the fixed default otherwise, and `filter` is `true` |
| Api.KeywordPayload | src/services/api.js:223-227 | the keyword payload has exactly `action` "search", the keyword as `jcName`, and the sort order or "DESC" |
| Api.EmptyFilterPayload | src/services/api.js:161-173 | an empty filter object still sends salary bounds 0 and 99999999999999, an empty category and `filter: true` |
| Api.GetAllJobs | src/services/api.js:101 | `getAllJobs` sends `GET /jobs` and settles as the answer does |
| Api.OnAllJobs | src/services/api.js:140-141 | the fallback continues with the listed jobs when `GET /jobs` returned a list, rejects with a type failure when the body has no list, and with the answer's failure otherwise |
| Api.FilterJobs | src/services/api.js:155-204 | the server search is always tried first; its success is the result; any failure falls back to `GET /jobs` filtered by `ClientSideJobFilter`, and only a failed fallback rejects |
| Api.SearchJobsByKeyword | src/services/api.js:132-152 | only a 403 falls back, to the jobs whose five text fields contain the lowered keyword; a fallback whose `GET /jobs` fails rejects with that failure, and one without `data` with a TypeError; any other outcome is the server's; the reply rejects exactly in those cases |
| Api.GetJobById | src/services/api.js:103-126 | only a 403 falls back; the fallback is "Job not found" exactly when no job's id, jobId or JobID text equals the id, and a found job is the first listed job with that id; a failed `GET /jobs` is rethrown, a body without `data` rejects with a TypeError, and the call rejects exactly when the server fails with another status, or on a 403 when the list is unavailable or has no matching job |
| Api.FoundById | src/services/api.js:112-122 | the `find` of the fallback: "Job not found" exactly when no listed job has the id, otherwise the first job that has it |
| Api.KeywordFallback | src/services/api.js:239-260 | the employer keyword fallback is the own jobs whose six text fields contain the lowered keyword, or no jobs when the list could not be had |
| Api.GetMyJobs | src/services/api.js:215-321 | always resolves; a truthy keyword posts the keyword payload and falls back on any failure; other non-empty params post the filter payload, falling back only on 500 (to no jobs when the own-jobs call fails too) and giving no jobs otherwise; empty params ask for all own jobs and give their body, or none on failure; a server success is the only request and its body the result |
| Api.MyJobsOfflineIsEmpty | src/services/api.js:257-260 | with the server unreachable, the keyword search and the plain listing both give an empty list |
| Api.SamePayload | src/services/api.js:161-173 | the filter branch of `getMyJobs` posts the same payload as `filterJobs` |
| Jobs.DataOrEmpty | src/services/api.js:242 | the list of `response.data` when there is one, otherwise empty |
| Jobs.RowId | src/components/job/JobList.jsx:141 | a row's id is its truthy `id`, and otherwise its `jobId` |
| Jobs.WithoutRowExactly | src/components/job/JobList.jsx:141 | deleting keeps exactly the rows whose id is not strictly equal to the one given, keeps their order and every copy of a kept row, and removes nothing when no row carries that id |
| Jobs.EmptyNeedleMatchesNamed | src/services/api.js:141-147 | an empty keyword matches every job with a name |
| JobList.NotGreaterIsAtMost | src/components/job/JobList.jsx:114-118 | for two numbers or two strings, the comparator's "not greater" is exactly the ascending order `AtMost` |
| JobList.LexLessAsymmetric | src/components/job/JobList.jsx:114-118 | string comparison never holds both ways |
| JobList.AtMostTransitive | src/components/job/JobList.jsx:114-118 | the ascending order on converted keys is transitive |
| JobList.AfterAsymmetric | src/components/job/JobList.jsx:114-118 | the comparator never puts `a` after `b` and `b` after `a` |
| JobList.NotAfterTransitive | src/components/job/JobList.jsx:114-118 | on comparable keys, "not after" chains |
| JobList.InsertPermutes | src/components/job/JobList.jsx:97-120 | inserting one job adds exactly that job to the multiset |
| JobList.SortPermutes | src/components/job/JobList.jsx:97-120 | sorting keeps exactly the jobs it was given, with their multiplicities |
| JobList.InsertElements | src/components/job/JobList.jsx:97-120 | after an insertion the jobs present are the inserted one and the earlier ones |
| JobList.PrependSorted | src/components/job/JobList.jsx:97-120 | a job that comes no later than every job of a sorted list can head it |
| JobList.InsertSorted | src/components/job/JobList.jsx:97-120 | inserting into a sorted list of keys of one kind keeps it sorted |
| JobList.SortSorted | src/components/job/JobList.jsx:97-120 | sorting jobs whose keys are all numbers or all strings gives a sorted list |
| JobList.SortJobsSpec | src/components/job/JobList.jsx:97-120 | `sortJobs` returns a permutation of its input; when every key can be compared the result is nondecreasing for "ASC" and nonincreasing for "DESC" |
| JobList.SalarySortOrdered | src/components/job/JobList.jsx:103-106 | sorting by salary always orders by the salary, a missing one counting as 0 |
| JobList.NextSort | src/components/job/JobList.jsx:122-131 | a click sorts by the clicked column; the same column flips the order and a new one starts at "DESC" |
| JobList.NextSortTwice | src/components/job/JobList.jsx:122-131 | clicking the current column twice restores the original sort |
| JobList.EmployerListing | src/components/job/JobList.jsx:62-69 | the employer's listing always resolves and posts the filter payload of its parameters first |
| JobList.ListingPayload | src/components/job/JobList.jsx:65-69 | the `includeAll` flag never reaches the server, while the chosen sort order does |
| JobList.LocalSearch | src/components/job/JobList.jsx:184-196 | the local search keeps exactly the jobs one of whose six text fields contains the lowered keyword, in order and with every copy |
| JobList.EmployerNeverFallsBack | src/components/job/JobList.jsx:165-167 | for an employer on the own-jobs page neither the search nor the filter request ever fails, so the component's own fallback is never taken |
| JobList.DisplayFilters | src/components/job/JobList.jsx:229-249 | a salary badge exists exactly when the salary is present and not the number 0, a date or category badge exactly when the value is truthy, each with the filter's own value, and nothing else |
| JobList.ZeroTextDisplayed | src/components/job/JobList.jsx:233-235 | a salary of the text "0" still gets a badge, since only the number 0 is excluded |
| JobList.BuildDisplay | src/components/job/JobList.jsx:229-249 | building the badges one key at a time gives `DisplayFilters` |
| JobList.Board.constructor | src/components/job/JobList.jsx:34-48 | the initial state: no jobs, no messages, loading, sorted by post date descending, no filters; employer view exactly for an authenticated employer on an own-jobs path |
| JobList.Board.FetchJobs | src/components/job/JobList.jsx:55-95 | a resolved load shows `sortJobs` of the data and clears the error; a rejected one shows no jobs and the load message; the count is the list's length and loading ends |
| JobList.Board.HandleSort | src/components/job/JobList.jsx:122-131 | the sort becomes `NextSort` of the old one and nothing else changes |
| JobList.Board.HandleDelete | src/components/job/JobList.jsx:133-155 | only a confirmed employer sends `DELETE`; success removes the matching rows and says so; failure keeps the list and shows the delete message |
| JobList.Board.ClearSuccess | src/components/job/JobList.jsx:144-146 | the timer clears the success message only |
| JobList.Board.HandleSearch | src/components/job/JobList.jsx:157-221 | a resolved search shows its data; otherwise the second load is searched locally with the local-search notice; either way the keyword joins the active filters; if both fail the list is kept and the search message shown |
| JobList.Board.HandleFilter | src/components/job/JobList.jsx:223-295 | the badges become `DisplayFilters`; the first resolved load's data is shown, the dialog closes and the error clears; if both fail the list is kept and the data message shown |
| JobList.Board.ClearFilters | src/components/job/JobList.jsx:297-300 | the active filters are emptied and the list is reloaded as `FetchJobs` does: a resolved reload clears the error, a rejected one shows the fetch error, and the sort, the success message and the filter modal stay as they were |
| JobListJs.Load | src/components/job/JobList.js:35-41 | an employer loads the own jobs with `includeAll=true` and that load always resolves, to no jobs when it fails; anyone else loads `GET /jobs`, settled as its answer |
| JobListJs.Listing.constructor | src/components/job/JobList.js:15-23 | no jobs, no messages, loading; the employer flag is an authenticated employer |
| JobListJs.Listing.FetchJobs | src/components/job/JobList.js:30-51 | a resolved load shows its data and clears the error; a rejected one keeps the list and shows the fetch message; an employer never sees that message; loading ends |
| JobListJs.Listing.HandleDelete | src/components/job/JobList.js:53-76 | only a confirmed employer sends `DELETE`; success removes the rows whose `id`, or else `jobId`, is the id and says so; failure keeps the list and shows the delete message |
| JobListJs.Listing.ClearSuccess | src/components/job/JobList.js:65-67 | the timer clears the success message only |
| AuthContext.InitialToken | src/context/AuthContext.jsx:12 | the initial token is the stored one when it is a non-empty text, and null otherwise |
| AuthContext.RestoredUser | src/context/AuthContext.jsx:16-30 | a user is restored exactly when a non-empty token is stored; its type id is `parseInt` of a non-empty stored type id and its user type a non-empty stored one, null otherwise |
| AuthContext.StoreAfterContextLogin | src/context/AuthContext.jsx:36-55 | a failed login leaves the store as the service left it; a resolved one also writes the user type and the returned access token as text, and every other key keeps what the service stored |
| AuthContext.Provider.constructor | src/context/AuthContext.jsx:9-12 | no user, loading, and the token read from storage |
| AuthContext.Provider.CheckAuth | src/context/AuthContext.jsx:16-30 | with a stored token the user and token are restored; without one they stay; loading ends either way |
| AuthContext.Provider.Login | src/context/AuthContext.jsx:36-55 | one login request; the store ends as `StoreAfterContextLogin`; success sets the user from the reply's type id and the chosen type, and the token from the reply; failure changes neither |
| AuthContext.Provider.Logout | src/context/AuthContext.jsx:58-64 | the session keys are removed, the user and token are null, and the user is no longer authenticated |
| AuthContext.ReloadRestoresUser | src/context/AuthContext.jsx:16-55 | a page reload after a successful login restores the same user the login set |
| ProtectedRoute.Guard | src/components/ProtectedRoute.jsx:4-23 | no stored token goes to `/login`; a required type that is non-empty and differs from the stored one goes to `/`; otherwise the route is shown |
| ProtectedRoute.AnyTokenPassesOpenRoute | src/components/ProtectedRoute.jsx:6-22 | any stored token, even an empty one, opens a route with no required type |
| ProtectedRoute.ClearedSessionGoesToLogin | src/components/ProtectedRoute.jsx:12-14 | after the session keys are cleared every protected route goes to `/login` |
| ProtectedRoute.LoginOpensOwnRole | src/components/ProtectedRoute.jsx:17-19 | after a successful login the routes of the chosen type open and those of another type go home |
| ProtectedRoute.MissingTokenStillAdmitted | src/components/ProtectedRoute.jsx:6 | a login reply without an access token stores the text "undefined", which still counts as a token for the guard |
| ErrorHandler.Message | src/components/common/ErrorHandler.jsx:4-36 | nothing renders exactly for a missing error or an empty text; a text shows itself; an error with a response shows `ResponseMessage` of it, so a response's data message wins; no response with a request shows the connection message; otherwise the error's message or the unknown-error text |
| ErrorHandler.ResponseMessage | src/components/common/ErrorHandler.jsx:11-22 | the data's message when truthy, else the flattened errors joined by ", ", else `Error <status>: <statusText>` |
| ErrorHandler.MessageBeatsErrors | src/components/common/ErrorHandler.jsx:13-19 | a non-empty data message is shown even when there are errors as well |
| ErrorHandler.SingleErrorShownAsIs | src/components/common/ErrorHandler.jsx:15-19 | one error text is shown without separators |
| ErrorHandler.FlattenAppend | src/components/common/ErrorHandler.jsx:17-18 | flattening two lists of errors is flattening each and appending |
| ErrorHandler.MessageNonEmpty | src/components/common/ErrorHandler.jsx:7-29 | whenever an alert renders without a list of errors, its text is not empty |
| JobStats.TotalsAgree | src/components/job/JobStats.jsx:41-47 | the application total is the sum of the accepted, rejected and pending totals |
| JobStats.CategoriesBounded | src/components/job/JobStats.jsx:41-47 | no category total exceeds the application total |
| JobStats.TotalOfAppend | src/components/job/JobStats.jsx:41-44 | the total over two lists of rows is the sum of their totals |
| JobStats.Percent | src/components/job/JobStats.jsx:176 | `Math.round(part / total * 100)` read on exact rationals: the nearest whole percentage, halves rounded up, and 0 for no applications |
| JobStats.PercentAtMost100 | src/components/job/JobStats.jsx:176-196 | a share of the total is at most 100% |
| JobStats.PercentagesSum | src/components/job/JobStats.jsx:176-196 | the three shown percentages add up to 0 without applications and to between 99 and 101 otherwise |
| JobStats.ThreeShares | src/components/job/JobStats.jsx:176-196 | three rounded shares of a positive total add up to between 99 and 101 |
| JobStats.AfterMount | src/components/job/JobStats.jsx:19-37 | only an authenticated employer asks for the stats; success shows the rows or none and no error; failure shows none and the stats message; for anyone else the page stays loading with no rows |
| Register.NoAtNoEmail | src/components/Register.jsx:41-43 | text without an `@` never passes the e-mail check |
| Register.EmailInsideText | src/components/Register.jsx:41-43 | the unanchored pattern accepts `a@b.c` with any text around it |
| Register.ErrorsForIff | src/components/Register.jsx:26-51 | each field has an error exactly when its check fails, and no other key ever has one |
| Register.ValidIff | src/components/Register.jsx:26-51 | the form is valid exactly when the username has at least 4 characters, the password at least 6, the confirmation matches, the e-mail matches the pattern and a full name is given |
| Register.InitialFormInvalid | src/components/Register.jsx:8-17 | the untouched form fails every check except the password match |
| Register.Form.constructor | src/components/Register.jsx:8-24 | the initial form, no errors, not loading, no navigation |
| Register.Form.HandleChange | src/components/Register.jsx:53-59 | one field is replaced; the errors, the error text, loading and navigation are left alone |
| Register.Form.ValidateForm | src/components/Register.jsx:26-51 | the stored errors are `ErrorsFor` of the form, and the result is whether they are empty |
| Register.Form.HandleSubmit | src/components/Register.jsx:61-80 | the corrected handler of the Register.jsx:72 finding (as written, see `Register.ValidFormNeverRegisters`): an invalid form sends nothing; a valid one posts the form, success clears the error and goes to `/login`, and failure shows the server's message or the fixed one; loading ends |
| Register.ValidFormNeverRegisters | src/components/Register.jsx:61-80 | as written, a valid form sends nothing, does not navigate, and shows the fixed failure message |
| Register.ValidFormFailsAsWritten | src/components/Register.jsx:72 | a concrete form passes every check, and as written submitting it only shows the failure message |
| Forms.Messages | src/components/application/ApplicationForm.js:141-149 | the messages are exactly for the checked keys the form has, each the validator's message for that key's value |
| Forms.WrittenOverlay | src/components/application/ApplicationForm.js:138-149 | after the key loop, the checked keys visited hold their new message and every other key keeps its old one |
| Forms.ValidateKeys | src/components/application/ApplicationForm.js:136-160 | the key loop leaves the old errors overlaid with `Messages`, and reports validity exactly when every new message is empty |
| Forms.OverlayPointwise | src/components/application/ApplicationForm.js:138-144 | a map that agrees key by key with an overlay is that overlay |
| Forms.Keys | src/components/application/ApplicationForm.js:141 | `Object.keys` lists exactly the keys of the form, each once |
| ApplicationForm.ValidateField | src/components/application/ApplicationForm.js:62-95 | a name outside the four checked fields never gets a message |
| ApplicationForm.FieldMessages | src/components/application/ApplicationForm.js:62-95 | each message is given exactly when its condition holds: a falsy or non-positive candidate id, a falsy job, a truthy cover letter under 10 characters once trimmed, a truthy CV that is not a URL |
| ApplicationForm.FieldPasses | src/components/application/ApplicationForm.js:62-95 | a field passes exactly when none of its conditions holds |
| ApplicationForm.TypedValidates | src/components/application/ApplicationForm.js:141-144 | a form whose cover letter is text can be validated key by key |
| ApplicationForm.ValidIff | src/components/application/ApplicationForm.js:136-160 | the form is valid exactly when each present checked field passes its check |
| ApplicationForm.Stored | src/components/application/ApplicationForm.js:107-116 | job and candidate ids are stored as `Number` of the input, other fields as the text typed |
| ApplicationForm.RawZeroVsStoredZero | src/components/application/ApplicationForm.js:107-124 | typing "0" as the candidate id shows the positive-number message while typing, but the stored 0 fails with the required message at submit |
| ApplicationForm.ChosenJobStored | src/components/application/ApplicationForm.js:110-111 | choosing job `n` stores the number `n` |
| ApplicationForm.ChosenJobAccepted | src/components/application/ApplicationForm.js:73-77 | a chosen positive job id passes its check |
| ApplicationForm.IsEditMode | src/components/application/ApplicationForm.js:9 | edit mode exactly when both route ids are non-empty |
| ApplicationForm.AppliedJobSegmentAsWritten | src/services/api.js:359-360 | as written, a form with no `jobId` key puts "undefined" in the path |
| ApplicationForm.NewApplicationPostedForUndefined | src/services/api.js:359-360 | every new application, whose keys are the component's four, is posted to the job "undefined" |
| ApplicationForm.ApplyJobSegment | src/services/api.js:359-360 | the corrected path uses the form's `JobID` |
| ApplicationForm.ValidFormPostsChosenJob | src/services/api.js:359-360 | with the correction a valid form is posted to the number of its chosen job, never to "undefined" |
| ApplicationForm.InitialFormNeedsJob | src/components/application/ApplicationForm.js:11-16 | the initial form fails only for the missing job |
| ApplicationForm.Form.constructor | src/components/application/ApplicationForm.js:6-28 | the initial form, the four empty field messages, no jobs yet, no error, not loading |
| ApplicationForm.Form.FetchJobs | src/components/application/ApplicationForm.js:38-46 | `GET /jobs`; success stores the answer's jobs, failure keeps them and shows the jobs message |
| ApplicationForm.Form.FetchApplicationDetails | src/components/application/ApplicationForm.js:48-59 | in edit mode, asks for the application by its two ids; success replaces the form, failure shows the details message; loading ends |
| ApplicationForm.Form.HandleChange | src/components/application/ApplicationForm.js:107-124 | the field is stored as `Stored` says, and its message is computed from the raw text typed |
| ApplicationForm.Form.HandleBlur | src/components/application/ApplicationForm.js:126-134 | the field's message is recomputed from the text in the input and nothing else changes |
| ApplicationForm.Form.ValidateForm | src/components/application/ApplicationForm.js:136-160 | the field messages are overlaid with `Messages` of the form; the result is whether all are empty, and the error is set or cleared accordingly |
| ApplicationForm.Form.HandleSubmit | src/components/application/ApplicationForm.js:162-187 | an invalid form sends nothing; a valid one puts to the edited application or posts to the chosen job's `JobID` (the corrected path of the first finding); success goes to `/applications`, failure shows the update or submit message |
| ApplicationList.UnknownStatusSecondary | src/components/application/ApplicationList.js:146-147 | a status outside the table, or none, gets "secondary" |
| ApplicationList.BadgeColorRange | src/components/application/ApplicationList.js:130-149 | every badge has one of the six Bootstrap colours the switch uses |
| ApplicationList.RowKeyInjective | src/components/application/ApplicationList.js:94 | rows with numeric ids get the same key only when both ids agree |
| ApplicationList.SplitAtDash | src/components/application/ApplicationList.js:94 | two keys split at the same `-` have the same halves |
| ApplicationList.FirstDash | src/components/application/ApplicationList.js:94 | the position found is within the key |
| ApplicationList.FirstDashAfterDigits | src/components/application/ApplicationList.js:94 | in a key whose candidate id is all digits, the first `-` is the separator |
| ApplicationList.RowKeyOfNumbers | src/components/application/ApplicationList.js:94 | the key of a row with numeric ids is the two ids in decimal joined by `-` |
| ApplicationList.RowKeyCollides | src/components/application/ApplicationList.js:94 | text ids that contain `-` can give two different rows the same key |
| ApplicationList.RemainingExactly | src/components/application/ApplicationList.js:36-38 | deleting keeps exactly the applications whose two ids are not both strictly equal to the ones given, in their order |
| ApplicationList.RemainingUnmatched | src/components/application/ApplicationList.js:36-38 | ids that match no row remove nothing, and deleting twice is deleting once |
| ApplicationList.NaNRowSurvives | src/components/application/ApplicationList.js:36-38 | a row whose candidate id is NaN never matches under `===`, so deleting it keeps it |
| ApplicationList.Segment | src/services/api.js:374-375 | a missing id is written into the path as "undefined" |
| ApplicationList.List.constructor | src/components/application/ApplicationList.js:6-10 | no applications, no messages, loading |
| ApplicationList.List.FetchApplications | src/components/application/ApplicationList.js:16-28 | one request; success replaces the list and clears the error, failure keeps it and shows the fetch message; loading ends |
| ApplicationList.List.HandleDelete | src/components/application/ApplicationList.js:30-49 | nothing happens without confirmation; a confirmed delete sends the two ids; success removes the matching rows and says so, failure keeps the list and shows the delete message |
| ApplicationList.List.ClearSuccess | src/components/application/ApplicationList.js:41-43 | the timer clears the success message only |
| ApplicationDetail.ScreenOf | src/components/application/ApplicationDetail.js:73-101 | loading shows first, then an error, then "not found" for no application, and otherwise the details with the status's badge colour |
| ApplicationDetail.Detail.constructor | src/components/application/ApplicationDetail.js:6-13 | the route's ids, no application, no job, loading, no error |
| ApplicationDetail.Detail.FetchApplicationDetails | src/components/application/ApplicationDetail.js:19-39 | the application is asked for first; only once it arrives is the job asked for, and a job that cannot be had leaves the job as it was; only a failed application sets the error; afterwards the page shows the details or the failure |
| JobFormRules.FieldOfName | src/components/job/JobForm.jsx:88-157 | every field of the rule switch is found again under its own key |
| JobFormRules.NameOfField | src/components/job/JobForm.jsx:88-157 | a key the switch knows is the name of the field found for it, so no two fields share a key |
| JobFormRules.TextEmptyIffFine | src/components/job/JobForm.jsx:85-163 | in both languages the message is empty exactly when the field has no problem |
| JobFormRules.EnglishEmptyIffFine | src/components/job/JobForm.js:84-162 | every English message except the one for no problem is non-empty |
| JobFormRules.VietnameseEmptyIffFine | src/components/job/JobForm.jsx:85-163 | every Vietnamese message except the one for no problem is non-empty |
| JobFormRules.ValidateFieldPasses | src/components/job/JobForm.jsx:85-163 | `validateField` returns "" exactly for a key outside the switch or a value its rule accepts |
| JobFormRules.UnknownFieldEmpty | src/components/job/JobForm.jsx:158-162 | a key the switch does not list is never reported |
| JobFormRules.TextRule | src/components/job/JobForm.jsx:89-108 | a text field (name, type, contract, level, location, description) fails exactly when it holds only white space |
| JobFormRules.QuantityRule | src/components/job/JobForm.jsx:109-113 | the quantity fails exactly when it converts to a number at most 0; a NaN passes |
| JobFormRules.SalaryFromRule | src/components/job/JobForm.jsx:114-118 | the minimum salary fails exactly when it converts to a negative number |
| JobFormRules.ExperienceRule | src/components/job/JobForm.jsx:127-131 | the years of experience fail exactly when they convert to a negative number |
| JobFormRules.SalaryToRule | src/components/job/JobForm.jsx:119-126 | the maximum salary fails when it is at most 0, otherwise when it is below a readable minimum, and passes otherwise |
| JobFormRules.ExpireRule | src/components/job/JobForm.jsx:142-150 | the expiry date fails when falsy, then when its time is not after now, and passes when unreadable |
| JobFormRules.TaxNumberRule | src/components/job/JobForm.js:150-157 | on the create form a tax number passes exactly when it is 10 to 13 digits and nothing else |
| JobFormRules.TaxNumberRequired | src/components/job/JobForm.js:150-153 | the "required" message comes exactly for a blank tax number |
| JobFormRules.TaxNumberMiddleLengths | src/components/job/JobForm.jsx:154 | eleven and twelve digits pass although the message asks for ten or thirteen |
| JobFormRules.StatusRule | src/components/job/JobEditForm.jsx:121-124 | on the edit form the status passes exactly when it is one of the three listed texts; a non-string fails |
| JobFormRules.ExtraFieldsPerKind | src/components/job/JobEditForm.jsx:76-129 | the create form never checks the status and the edit form never checks the tax number |
| JobFormRules.ValidIff | src/components/job/JobForm.jsx:192-229 | every message of the checked keys is empty exactly when every checked field passes its rule |
| JobFormRules.ValidSalaries | src/components/job/JobForm.jsx:109-126 | a valid form with numeric quantity and salaries has quantity at least 1 and 0 <= minimum <= maximum with a positive maximum |
| JobFormRules.ValidExpiry | src/components/job/JobForm.jsx:142-150 | a valid form has a truthy expiry date whose time, when readable, is after now |
| JobFormRules.Coerce | src/components/job/JobForm.jsx:165-174 | the four numeric fields are stored as `Number(value)` and every other field as typed |
| JobFormRules.CoerceDigits | src/components/job/JobForm.jsx:168-174 | a numeric field typed as decimal digits is stored as that number |
| JobFormRules.SubmitData | src/components/job/JobForm.jsx:241-246 | the submitted data is the form with only the expiry date changed: midnight appended to a truthy date and "" otherwise |
| JobFormRules.SubmitPickedDate | src/components/job/JobEditForm.jsx:177-182 | a picked day is sent as that day at `T00:00:00` |
| JobForm.Checked | src/components/job/JobForm.js:196-211 | the tax number is among the checked keys exactly in `JobForm.js` |
| JobForm.JsxIgnoresTaxNumber | src/components/job/JobForm.jsx:196-211 | whatever the tax number holds, `JobForm.jsx` produces the same messages |
| JobForm.JsFreshTaxNumberBlocks | src/components/job/JobForm.js:26 | in `JobForm.js` an untouched tax number makes the form invalid with "Tax number is required" |
| JobForm.EmptyTaxNumberMessage | src/components/job/JobForm.js:150-152 | an empty tax number gets "Tax number is required" |
| JobForm.EmptyNameMessage | src/components/job/JobForm.jsx:89-93 | an empty job name gets the "required" message in either language |
| JobForm.InitialFormTyped | src/components/job/JobForm.jsx:15-29 | the initial form holds only values the rules can judge |
| JobForm.InitialFormInvalid | src/components/job/JobForm.jsx:15-29 | the untouched form reports the job name as required |
| JobForm.Form.constructor | src/components/job/JobForm.jsx:12-46 | the form starts with the initial data and messages, no error, not loading |
| JobForm.Form.AdoptEmployer | src/components/job/JobForm.jsx:55-62 | a user with a truthy type id sets the form's employer id to it; otherwise nothing changes |
| JobForm.Form.FetchJobDetails | src/components/job/JobForm.jsx:64-83 | a job with a readable expiry replaces the form, its date cut to the day; anything else keeps the form and shows the fetch error |
| JobForm.Form.HandleChange | src/components/job/JobForm.jsx:165-181 | the field is stored coerced, and its message is the rule applied to the typed text against the minimum salary before the change |
| JobForm.Form.HandleBlur | src/components/job/JobForm.jsx:183-190 | only the field's message changes, to the rule applied to the text |
| JobForm.Form.ValidateForm | src/components/job/JobForm.jsx:192-229 | the checked keys' messages are merged into the old ones, the result is true exactly when all are empty, and the error says so |
| JobForm.Form.HandleSubmit | src/components/job/JobForm.jsx:231-268 | nothing is sent unless the form is valid; then one update (with an id) or one create is sent with the submitted data, and success leads to the saved-jobs page while failure shows the save error |
| JobEditForm.LoadFailure | src/components/job/JobEditForm.jsx:58-69 | the permission message is shown exactly for a 403 answer whose body is truthy; every other failure shows the fetch message |
| JobEditForm.LoadedKeepsJob | src/components/job/JobEditForm.jsx:50-56 | loading fails only on an unreadable truthy date; otherwise every field is kept and the expiry becomes "" or the day of its time |
| JobEditForm.OfferedStatusesPass | src/components/job/JobEditForm.js:396-398 | every status the select offers passes the rule, and only `JobEditForm.js` offers the expired status |
| JobEditForm.ServerKeysHarmless | src/components/job/JobEditForm.jsx:155-170 | a key from the server that the switch does not know never changes whether the form is valid |
| JobEditForm.Form.constructor | src/components/job/JobEditForm.jsx:12-28 | the form starts with the initial data, no messages, no error, not loading |
| JobEditForm.Form.CheckId | src/components/job/JobEditForm.jsx:31-39 | the job is loaded exactly for an id that is present, non-empty and not "undefined"; otherwise the id error is shown |
| JobEditForm.Form.FetchJobDetails | src/components/job/JobEditForm.jsx:41-74 | a loaded job replaces the form; a failed request shows the permission message for a 403 with a truthy body and the file's fetch message otherwise, and a missing or unreadable job the fetch message; the field messages and the page stay |
| JobEditForm.Form.HandleChange | src/components/job/JobEditForm.jsx:131-145 | the field is stored coerced and its message is the rule applied to the typed text |
| JobEditForm.Form.HandleBlur | src/components/job/JobEditForm.jsx:147-153 | only the field's message changes |
| JobEditForm.Form.ValidateForm | src/components/job/JobEditForm.jsx:155-170 | the messages become a fresh map over every key of the form, and the result is true exactly when all are empty |
| JobEditForm.Form.HandleSubmit | src/components/job/JobEditForm.jsx:172-195 | nothing is sent unless the form is valid; then one update with the submitted data is sent, and success leads to the saved-jobs page (a relative path in `JobEditForm.js`) |
| JobEditForm.Form.Save | src/components/job/JobEditForm.jsx:175-193 | the valid form's data is put to the job's id; success navigates and keeps the error, failure keeps the page and shows the save error; the form and its messages stay |
| FilterModal.SalaryParam | src/components/job/FilterModal.jsx:14-17 | a salary key is sent exactly when its input is not empty |
| FilterModal.SalaryTextCanonical | src/components/job/FilterModal.jsx:14-17 | a salary sent reads back as the number typed, and converting it again changes nothing |
| FilterModal.ParamsKeys | src/components/job/FilterModal.jsx:12-51 | the filter object has the action, order and flag keys always, and each optional key exactly when its input is given |
| FilterModal.ParamsValues | src/components/job/FilterModal.jsx:21-41 | the values are "get", "DESC", the salaries, the date with the fixed time, "1" or "0", and the open status |
| FilterModal.ClearIsNotEmptyApply | src/components/job/FilterModal.jsx:60-73 | clearing sends a post date and a boolean flag, which applying an empty form does not |
| FilterModal.ParamsBadges | src/components/job/JobList.jsx:229-249 | an applied filter shows a badge per typed salary and per chosen date and none for the open-jobs box |
| FilterModal.SalaryParamNonEmpty | src/components/job/FilterModal.jsx:14-17 | every salary text sent is non-empty |
| FilterModal.ClearedBadges | src/components/job/FilterModal.jsx:63-68 | after clearing, the list shows exactly the fixed date as a badge |
| FilterModal.BuildParams | src/components/job/FilterModal.jsx:12-46 | the object built key by key is the filter object of the inputs |
| FilterModal.Dialog.constructor | src/components/job/FilterModal.jsx:6-10 | all inputs start empty and the box unticked |
| FilterModal.Dialog.SetSalaryFrom | src/components/job/FilterModal.jsx:93 | only the minimum salary input changes |
| FilterModal.Dialog.SetSalaryTo | src/components/job/FilterModal.jsx:104 | only the maximum salary input changes |
| FilterModal.Dialog.SetPostDate | src/components/job/FilterModal.jsx:118 | only the date input changes |
| FilterModal.Dialog.ToggleOnlyOpen | src/components/job/FilterModal.jsx:128 | only the box flips |
| FilterModal.Dialog.HandleFilter | src/components/job/FilterModal.jsx:12-51 | the filter object of the current inputs is passed on, then the dialog closes, and the inputs stay |
| FilterModal.Dialog.ResetForm | src/components/job/FilterModal.jsx:53-58 | every input returns to its initial value |
| FilterModal.Dialog.HandleClearFilter | src/components/job/FilterModal.jsx:60-73 | the inputs are reset, the fixed default filter is passed on and the dialog closes |
| FilterModal.Dialog.Cancel | src/components/job/FilterModal.jsx:134-137 | the inputs are reset and the dialog closes without filtering |

## Left out

- Transport: axios instances, base URLs and header setup (`services/api.js:7-70`) are not modelled. Each server answer is an `Http.Outcome` parameter. The request interceptor is `Session.AuthorizationHeader`. The response interceptor's clearing of the four session keys on a 401 (`services/api.js:43-48`) is `Session.InterceptResponse`, and the model applies it only to `authService.login` (`Session.Login`). Both axios clients install it (`services/api.js:68-69`), so in the source a 401 from any job, employer or candidate call also clears `token`, `refreshToken`, `typeId` and `userType`. The `Api` chains and the screen handlers (for example `JobList.Board.FetchJobs`, `ApplicationList.List.FetchApplications` and `JobStats.AfterMount`) do not carry the store, so that clearing is not modelled for them.
- Asynchrony: each handler is one sequential run with its answers given, and there is no cancellation. The message a handler sets before awaiting its fallback (`JobList.SearchServerFailed`, `JobList.FilterServerFailed`, `JobList.jsx:176` and `:263`) is rendered while the fallback runs and is then replaced. The model keeps only the state after the last step, so that intermediate render is not modelled.
- `JobList.Board.HandleSearch`, `HandleFilter`, `FetchJobs` and `ClearFilters` take the settled service calls as parameters. Their documentation names the functions that give those calls (`JobList.SearchCall`, `JobList.FilterCall`, `JobList.ListAll`, `JobList.ListCall`), but their contracts do not require that link.
- Browser effects: `alert` and `confirm` are left out, and the user's answer to `confirm` is the `confirmed` parameter. Also left out: `console` logging, `window.location` redirects and reloads, and the page navigation on a 401 answer. The three-second `setTimeout` is its callback alone, as a `ClearSuccess` method.
- Rendering: JSX, react-bootstrap, icons, the statistics chart and its tooltip percentages (floating point) are not modelled. What gets rendered is modelled only where a rule decides it: the status badge colours, the `ApplicationDetail` screens, the filter badges and `RendersChildren`.
- Dates: `new Date(...)`, `toISOString` and the current time are parameters. `parse` reads a text as a time (or NaN), `now` is the current time, and `isoDay` gives the `yyyy-mm-dd` day of a time. The fixed date texts of `FilterModal` are written out as the constants they evaluate to.
- URLs: `new URL(...)` in `ApplicationForm.js` is the predicate parameter `isUrl`.
- Numbers: `Js.Number` is an integer or NaN. `Number(...)` of a text trims white space, reads the empty text as 0 and an optionally signed run of decimal digits as that integer. Fractions, exponents and hexadecimal read as NaN. `Js.ParseInt` reads only decimal digits, so a stored `typeId` of "0x1A" is 0 in the model, while `parseInt` without a radix gives 26. Fractional salaries and percentages are therefore outside the model.
- `Js.ToLower`: covers ASCII, Latin-1, Latin Extended-A and the Vietnamese letters. Every other character is left unchanged, so it is weaker than full Unicode lower-casing.
- `JobList.SortBy`: `Array.prototype.sort` leaves its algorithm open, and the model uses insertion. Permutation is proved for every list. Ordering is proved only when the keys are `Orderable`; NaN or mixed keys and the order of ties follow the insertion model only, which is one admissible order of the engine's sort.
- `JobForm.Form.FetchJobDetails`, `JobEditForm.Form.FetchJobDetails`: take the settled `Reply<JobRecordBody>` as a parameter; their contracts do not tie it to `Api.GetJobById`, so how `getJobById` turns a 403 from `/jobs/:id` into the `/jobs` fallback is stated on `Api.GetJobById` alone.
- Loose typing: a job loaded by `FetchJobDetails` is not shown to be `Typed`, which `ValidateForm` and `HandleSubmit` of `JobForm.Form` and `JobEditForm.Form` require; a server field of another JavaScript type is outside those contracts.
- Server record types: `Jobs.Job` has optional text fields and optional integer salaries, and `JobStats.StatRow` has natural-number counts. The source takes whatever JSON the server returns. A server value of another JavaScript type is outside the model. For example, a count sent as text makes `job.daNhan + job.tuChoi + job.choDuyet` concatenate text (`JobStats.jsx:227`). A numeric `jobName` makes `toLowerCase()` throw in the keyword fallbacks (`services/api.js:140-152`).
- ApplicationForm.Form.ValidateForm and ApplicationForm.Form.HandleSubmit: both require `Typed(formData)`, and `FetchApplicationDetails` does not establish it, because it stores the server's `data` unchecked. Take a loaded application with `CoverLetter: 12345`. In the source, `validateForm` reaches `value.trim()` (`ApplicationForm.js:80`) and throws a TypeError outside the `try` of `handleSubmit`, so the handler rejects, nothing is sent and no message is set. The model does not capture that throw. `Js.Value` has no `null`, so a `null` field is not modelled either.
- Text length and order: Dafny strings are sequences of Unicode code points, while JavaScript's `length` and `<` count and compare UTF-16 code units. `Register.ErrorsFor`'s length limits, the `ApplicationForm` cover-letter length and `Js.LexLess` agree with JavaScript only on text inside the Basic Multilingual Plane; "😀😀" has length 4 in JavaScript and 2 in the model.
- JobStats.Percent: computes on exact rationals and does not model floating point; JavaScript's `23 / 40 * 100` is `57.49999999999999`, so `Math.round` shows 57 where the model gives 58.
- `Object.keys` order: the forms' `validateForm` loops run over the keys in a fixed order. Results that do not depend on that order are stated as maps.
- Response bodies: `ApplicationList`, `ApplicationDetail` and `ApplicationForm` assume that a successful answer has a `data` field. The job screens model a missing `data` (`Jobs.DataOrEmpty`).
- JobStats: `totalJobs` (`JobStats.jsx:40`) is only `stats.length` and has no member of its own.
- Not modelled from `services/api.js`, because no screen in the model calls them: `jobService.searchJobs`, `getJobsByStatus`, `getJobsByEmployer`, `employerService.getMyJobsByStatus`, `employerService.searchJobsByFilters`, `employerService.searchJobsByKeyword` (the screens use `jobService.searchJobsByKeyword`, which is modelled) and `candidateService.getApplicationStatus`.
- Other screens: routing, layout, `Login.jsx`, `JobDetail`, `SearchBar` and `Footer` are not part of this model.

## Findings

| source | as written | input that shows it | evidently intended | confidence | as-written member | corrected member |
|---|---|---|---|---|---|---|
| src/services/api.js:359-360 | `createApplication` posts to `/candidates/jobs/${applicationData.jobId}/apply`, but the application form's keys are `CandidateID`, `JobID`, `CoverLetter` and `UploadCV` | any new application, e.g. `JobID` 7: the path becomes `/candidates/jobs/undefined/apply` | the path carries the chosen `JobID` | high (not executed) | ApplicationForm.NewApplicationPostedForUndefined | ApplicationForm.ValidFormPostsChosenJob |
| src/components/Register.jsx:72 | `handleSubmit` calls `authService.register`, which `services/api.js:73-96` does not define, so every valid form throws before any request and shows the fixed failure message | `Register.SampleForm`: it passes every check, yet nothing is sent and the page shows the failure message | a valid form posts the registration and leads to `/login` | high (not executed) | Register.ValidFormFailsAsWritten | Register.Form.HandleSubmit |
