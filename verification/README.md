# Job search front end — a Dafny model

This project models the client-side logic of a job-search web application
(the JobMatch front end): the pages for signing in, registering, editing a
profile and searching jobs, the job service that talks to the backend, and
the small text helpers those pages rely on. Every page handler is a pure
transition function from the page state (and the settled outcome of any
backend call it makes) to the next page state; every service call is a
function of a `Backend` value that stands for the HTTP API.

Modules, following the program's files:

- `Outcomes` and `Js` (`outcomes.dfy`): `Option`, the settled outcome of an
  asynchronous call (`Ok` or `Err` with the error's messages), and the few
  JavaScript values whose truthiness the code tests.
- `Text` (`text.dfy`): the string built-ins the code uses — `trim` with
  JavaScript's whitespace set, `split`/`join` on one character, the ASCII and Latin-1 part
  of `toUpperCase`, `slice(0, n)` and the decimal printing of integers.
- `Types` (`types.dfy`): jobs, users, the profile patch (`Partial<User>`), the
  registration payload, the filter form and the ranked-search records.
- `Utils` (`utils.dfy`): `validateEmail`, `generateInitials`,
  `getJobTypeLabel`.
- `Services` (`services.dfy`): the job service (ranked search, bulk listing,
  the legacy search, lookup by id, recommendations) and the profile update.
- `Validation`, `LoginPage`, `RegisterPage` (`forms.dfy`): the shared field
  rules and the two forms' change and submit handlers.
- `ProfilePage` (`profile.dfy`): field edits, the skill list, cancel and save.
- `JobFilters` and `JobsPage` (`filters.dfy`, `jobs.dfy`): the filter form
  and the jobs page as a state machine — the mount loads, search, load more.

The backend is a `Backend` value with one total function per endpoint. A
lemma that chains several calls assumes the backend answers the same request
the same way each time.

Behaviour a reader might expect of such a page but which the code does not
have, and which the model therefore does not have either:

- Switching the ranking strategy only records it. It does not search again.
- The page never filters loaded results by location, type, remote or salary.
- A late response is not discarded when a newer one arrived first.
- The salary range is never checked for minimum ≤ maximum.
- Saving the profile does not store an edited name or title: the handler
  modelled as `ProfilePage.HandleSave` follows the code, and the corrected
  handler sits beside it (see Findings).

## Model

| member | source | states |
|---|---|---|
| Text.Trim | src/app/jobs/page.tsx:80 | `trim` leaves an empty string exactly for all-whitespace input, and otherwise starts and ends on non-whitespace |
| Text.TrimIsInfix | src/app/register/page.tsx:51-53 | what `trim` keeps is the text between a whitespace prefix and a whitespace suffix |
| Text.TrimIdempotent | src/app/register/page.tsx:85-89 | trimming an already trimmed value changes nothing |
| Text.Take | src/lib/utils.ts:58 | `slice(0, n)` is the prefix of length `min(n, length)` |
| Text.UpperChar | src/lib/utils.ts:57 | `toUpperCase` on one character: an ASCII or accented Latin-1 lower-case letter becomes its capital, 32 code points below and no longer lower-case; any other character is kept |
| Text.UpperCharExamples | src/lib/utils.ts:57 | upper-casing is idempotent, and `ó`, `á`, `ñ` become `Ó`, `Á`, `Ñ` while `÷` is kept |
| Text.ToUpper | src/lib/utils.ts:57 | `toUpperCase` upper-cases each character independently and keeps the length |
| Text.JoinSplit | src/lib/utils.ts:53-56 | joining the pieces of a split with the same separator gives back the text |
| Text.SplitAvoidsSeparator | src/lib/utils.ts:54 | no piece of `split(' ')` contains a space |
| Text.IntToStringInjective | src/lib/services.ts:192 | two integers print to the same decimal text exactly when they are equal |
| Utils.IndexOf | src/lib/utils.ts:46 | the position of the first occurrence of a character, or none exactly when it does not occur |
| Utils.ValidateEmail | src/lib/utils.ts:45-48 | an accepted address has at least five characters and an `@` after its first character; the exact language is stated by Utils.ValidateEmailMatchesPattern |
| Utils.ValidateEmailMatchesPattern | src/lib/utils.ts:45-48 | `validateEmail` accepts exactly the strings of the form atoms `@` atoms `.` atoms, where an atom is neither whitespace nor `@` |
| Utils.ValidateEmailShape | src/lib/utils.ts:46 | an accepted address is non-empty, has no whitespace, has at least five characters and exactly one `@` |
| Utils.GenerateInitials | src/lib/utils.ts:50-59 | the initials have at most two characters, and an empty name gives `U` |
| Utils.InitialsAreWordStarts | src/lib/utils.ts:53-58 | for a non-empty name the initials are the first two word-starting characters, upper-cased |
| Utils.InitialsOfBlankName | src/lib/utils.ts:51-58 | a name made only of spaces gets empty initials, not `U` |
| Utils.JobTypeOfCode | src/lib/utils.ts:34-40 | a code names at most one job type, and names it exactly when it is that type's code |
| Js.Or | src/lib/utils.ts:42 | the `or` operator yields its left operand when that is truthy and its right operand otherwise |
| Utils.GetJobTypeLabel | src/lib/utils.ts:33-43 | each of the five codes gets its label; any other code is returned unchanged |
| Utils.GetJobTypeLabelAsWritten | src/lib/utils.ts:42 | the lookup as written yields a string exactly when the code is not a key inherited by object literals |
| Utils.InheritedKeyEscapesFallback | src/lib/utils.ts:42 | as written, the code `toString` yields a function rather than the code itself |
| Utils.LabelAsWrittenAgrees | src/lib/utils.ts:34-42 | away from the inherited keys the lookup as written agrees with the own-key lookup |
| Services.RankedJobs | src/lib/services.ts:120-136 | each ranked entry keeps id, title, company, location, description, rank and score, has empty requirement and skill lists, and leaves the other fields unset |
| Services.ListedJobs | src/lib/services.ts:149-163 | each listed entry keeps the five listing fields, has empty lists, and carries no rank or score |
| Services.TransformsAgree | src/lib/services.ts:120-163 | both transforms are projections, and a listed entry is the ranked entry without its ranking fields |
| Services.RankingFieldsTravelTogether | src/lib/services.ts:126-127 | ranked entries carry rank and score whenever the server sent both; listed entries never carry either |
| Services.SearchJobsWithAI | src/lib/services.ts:116-142 | the ranked-search response with every field as sent, and each entry normalised from its raw entry with the raw rank and similarity score; a rejection propagates |
| Services.GetSearchMethods | src/lib/services.ts:110-113 | the strategy descriptors exactly as the server sent them; a rejection propagates |
| Services.GetAllJobs | src/lib/services.ts:145-169 | the listing page with its entries transformed and `total`, `skip`, `limit` as sent; a rejection propagates |
| Services.SearchJobs | src/lib/services.ts:172-186 | a non-empty query, untrimmed, goes to ranked search with 20 results and `hybrid`; an empty one gets listing page 0 of 50; a rejection carries the fault of the call made |
| Services.SameIdMeaning | src/lib/services.ts:192 | numeric ids match only when equal; a numeric and a string id match when the string is the number's decimal text |
| Services.FindById | src/lib/services.ts:192 | the first entry whose id prints like the requested one, or none exactly when no entry matches |
| Services.NotFoundJob | src/lib/services.ts:202-214 | the placeholder keeps the requested id and is titled `Trabajo no encontrado` |
| Services.GetJobById | src/lib/services.ts:188-215 | the first of the first 1000 listed jobs matching the id; the placeholder when none matches or the listing fails; the result's id always matches |
| Services.GetRecommendedJobs | src/lib/services.ts:217-231 | ranked search with 10 results and `hybrid`; if it fails, listing page 0 of 10; if that fails too, its rejection |
| Services.RecommendationSourceShows | src/lib/services.ts:217-231 | against a server that ranks every recommendation, a non-empty result's entries carry no rank or score exactly when the ranked search failed and the listing stood in |
| Services.Override | src/lib/services.ts:104 | a key present in the patch wins over the base value |
| Services.MergeUser | src/lib/services.ts:104 | for each of the eleven user keys, a key present in the patch replaces the user's value and an absent key keeps it |
| Services.MergeLaws | src/lib/services.ts:104 | an empty patch changes nothing, a full patch replaces everything, two merges are one merge with the later patch winning, and merging twice is merging once |
| Services.UpdateProfile | src/lib/services.ts:101-105 | succeeds exactly when reading the current profile does, with the merged user; otherwise that failure |
| Validation.EmailError | src/app/login/page.tsx:29-33 | an address gets no error exactly when `validateEmail` accepts it, and the "required" error exactly when it is empty |
| Validation.PasswordError | src/app/login/page.tsx:35-39 | a password gets no error exactly when it has six characters, and the "required" error exactly when it is empty |
| Validation.OrElse | src/app/login/page.tsx:54 | the string fallback: the first string when it is present and non-empty, else the default |
| LoginPage.Validate | src/app/login/page.tsx:27-39 | the error map has an email entry exactly when the address fails, a password entry exactly when the password fails, each with that rule's message, and no general entry |
| LoginPage.AcceptedForms | src/app/login/page.tsx:41-44 | validation passes exactly when the address is well formed and the password has at least six characters |
| LoginPage.FailureMessage | src/app/login/page.tsx:53-55 | the server's non-empty message, otherwise the fixed default |
| LoginPage.HandleSubmit | src/app/login/page.tsx:23-59 | `login` is called exactly when validation passes, with the untrimmed credentials; a rejected form shows exactly the new error map and leaves `loading` as it was; success redirects to the dashboard; failure shows only the general message |
| LoginPage.SubmitInitial | src/app/login/page.tsx:15-44 | submitting the untouched form marks both fields as required and does not call `login` |
| LoginPage.PaddedEmailRejected | src/app/login/page.tsx:31 | a well-formed address with a leading space is rejected as invalid and `login` is not called |
| RegisterPage.Set | src/app/register/page.tsx:31-34 | the named field takes the value and every other field keeps its own |
| RegisterPage.HandleChange | src/app/register/page.tsx:29-43 | the field takes the value; its error, if shown, is blanked; every other field and error entry, and the set of keys, is kept |
| RegisterPage.ChangeBack | src/app/register/page.tsx:29-43 | typing the old value back restores the form but leaves the edited field's error blank |
| RegisterPage.NameError | src/app/register/page.tsx:51-55 | "required" exactly when the trimmed name is empty, "too short" exactly when it has one character, none otherwise |
| RegisterPage.ConfirmError | src/app/register/page.tsx:69-73 | "required" exactly when empty, "do not match" exactly when it differs from the password, none otherwise |
| RegisterPage.WithError | src/app/register/page.tsx:49-73 | an error adds its entry and leaves every other entry as it was |
| RegisterPage.ErrorMap | src/app/register/page.tsx:49-73 | each given error sits under its own field and no other key is present |
| RegisterPage.Validate | src/app/register/page.tsx:49-73 | one entry per failing rule among name, email, password and confirmation, holding that rule's message, and no other entry |
| RegisterPage.AcceptedForms | src/app/register/page.tsx:75-78 | validation passes exactly when the trimmed name has two characters, the address is well formed, the password has six and the confirmation repeats it |
| RegisterPage.FailureMessage | src/app/register/page.tsx:92-95 | the message starts with the fixed text, equals it exactly when no `Error` was thrown, and otherwise ends, after `": "`, with the thrown error's message |
| RegisterPage.BlankFormFailsEveryRule | src/app/register/page.tsx:49-73 | a form whose name, email, password and confirmation are empty fails all four rules with their "required" messages |
| RegisterPage.ErrorMapOfFailures | src/app/register/page.tsx:49-73 | when all four rules fail, the error map holds exactly their four messages under their fields |
| RegisterPage.SubmitInitial | src/app/register/page.tsx:15-78 | submitting the untouched form marks name, email, password and confirmation as required and does not call `register` |
| RegisterPage.TrimmedOrUndefined | src/app/register/page.tsx:88-89 | the trimmed text, or undefined exactly when it trims to empty |
| RegisterPage.Payload | src/app/register/page.tsx:84-90 | the name is trimmed, email and password are sent as typed, title and company are trimmed or undefined |
| RegisterPage.HandleSubmit | src/app/register/page.tsx:45-99 | `register` is called exactly when validation passes, with the payload; a rejected form shows exactly the new error map and leaves `loading` as it was; success redirects; failure shows only the general message |
| RegisterPage.PayloadOfAcceptedForm | src/app/register/page.tsx:51-90 | an accepted form's payload has a name of at least two characters, a well-formed address, a six-character password and a trimmed title |
| ProfilePage.FormFromUser | src/app/profile/page.tsx:83-90 | each form field is the user's value, with `''` for a missing text and `[]` for missing skills |
| ProfilePage.HandleInputChange | src/app/profile/page.tsx:46-51 | the field takes the value; every other field, the skills, the pending skill and the mode are kept |
| ProfilePage.InputChangeBack | src/app/profile/page.tsx:46-51 | typing a field's old value back restores the whole state |
| ProfilePage.Without | src/app/profile/page.tsx:66 | the filtered list no longer contains the skill and keeps every other occurrence count |
| ProfilePage.WithoutKeepsOrder | src/app/profile/page.tsx:66 | the surviving skills keep their order |
| ProfilePage.AddSkill | src/app/profile/page.tsx:53-61 | the trimmed skill is appended and the pending text cleared exactly when it is non-empty and new; otherwise nothing changes |
| ProfilePage.RemoveSkill | src/app/profile/page.tsx:63-68 | every entry equal to the skill leaves the list, the rest of the form is kept; an absent skill changes nothing |
| ProfilePage.AddSkillKeepsNoDuplicates | src/app/profile/page.tsx:54 | adding keeps the skill list free of duplicates |
| ProfilePage.WithoutKeepsNoDuplicates | src/app/profile/page.tsx:66 | filtering keeps a duplicate-free list duplicate-free |
| ProfilePage.RemoveSkillKeepsNoDuplicates | src/app/profile/page.tsx:63-68 | removing keeps the skill list free of duplicates |
| ProfilePage.AddThenRemove | src/app/profile/page.tsx:53-68 | adding twice is adding once, and removing the skill just added restores the list |
| ProfilePage.WithoutAppend | src/app/profile/page.tsx:66 | filtering out a skill appended to a list without it gives back that list |
| ProfilePage.HandleCancel | src/app/profile/page.tsx:82-92 | the form is refilled from the stored user, editing ends, and the pending skill text is kept |
| ProfilePage.SavePatchAsWritten | src/app/profile/page.tsx:73 | the form object as sent holds the company, location, bio and skills under their user keys and no other user key, so neither the name nor the title |
| ProfilePage.SaveAsWrittenLosesName | src/app/profile/page.tsx:73 | as written, an edited name is not saved, so the form refilled after saving differs from what was saved |
| ProfilePage.SavePatch | src/app/profile/page.tsx:73 | the corrected update sends the name as `fullName`, the title as `professionalTitle` and the other four fields under their own keys, and no other user key |
| ProfilePage.SaveRoundTrip | src/app/profile/page.tsx:70-91 | with every field sent under its user key, the form refilled from the saved user is exactly the saved form |
| ProfilePage.HandleSave | src/app/profile/page.tsx:70-80 | as written: on success the current user merged with the form object is stored and editing ends; on failure nothing changes |
| ProfilePage.CancelAfterSave | src/app/profile/page.tsx:70-92 | as written, pressing Edit and then Cancel after a successful save keeps the saved company, location, bio and skills but puts back the stored name and title |
| ProfilePage.HandleSaveCorrected | src/app/profile/page.tsx:70-80 | with each field sent under its user key: on success that merge is stored and editing ends; on failure nothing changes |
| ProfilePage.CancelAfterCorrectedSaveKeepsEdits | src/app/profile/page.tsx:70-92 | with the corrected save, pressing Edit and then Cancel after a successful save shows exactly the saved form |
| ProfilePage.SaveHandlersAgreeBeyondNameAndTitle | src/app/profile/page.tsx:70-80 | the two save handlers store users that differ at most in name and title, and the same user when the form repeats the stored name and title |
| JobFilters.ValuesDetermineForm | src/app/jobs/page.tsx:36-43 | two filter forms holding the same value under every key are equal |
| JobFilters.HandleFilterChange | src/app/jobs/page.tsx:106-111 | the written key holds the new value and every other key keeps its own |
| JobFilters.Current | src/app/jobs/page.tsx:106-111 | the change that writes back a key's current value |
| JobFilters.FilterChangeLaws | src/app/jobs/page.tsx:106-111 | writing a key's current value changes nothing, a second write to a key wins, and writes to different keys commute |
| JobFilters.HasActiveFilters | src/app/jobs/page.tsx:154-156 | some filter is active exactly when a text is non-empty, a type is chosen, remote is ticked or a salary bound is set, zero included |
| JobFilters.ClearFilters | src/app/jobs/page.tsx:114-123 | no key holds an active value after clearing |
| JobFilters.InactiveIffDefault | src/app/jobs/page.tsx:154-156 | no filter is active exactly when the form is the default form; clearing is idempotent |
| JobFilters.ZeroSalaryIsActive | src/app/jobs/page.tsx:154-156 | a minimum salary of 0 counts as an active filter although its stored value is falsy |
| JobsPage.LoadSearchMethods | src/app/jobs/page.tsx:46-58 | on success the descriptors are stored and the recommended strategy is selected; on failure nothing changes |
| JobsPage.LoadInitialJobs | src/app/jobs/page.tsx:61-76 | listing page 0 of 50 replaces the jobs and its total is shown; on failure nothing changes |
| JobsPage.MountOrderIrrelevant | src/app/jobs/page.tsx:45-76 | the two mount loads give the same state whichever settles first |
| JobsPage.Mount | src/app/jobs/page.tsx:28-76 | after mounting the strategy is the recommended one, or `hybrid` if the descriptors fail; the list is page 0 with its total, or empty with total 0; paging starts at 0 and the form is the default one |
| JobsPage.SearchModeOf | src/app/jobs/page.tsx:79-94 | a query blank after trimming reloads the current listing page of 50; any other query goes untrimmed to ranked search with 20 results and the selected strategy |
| JobsPage.HandleSearch | src/app/jobs/page.tsx:79-103 | the chosen call's jobs replace the list and its count replaces the total; on failure nothing changes; the page number is kept |
| JobsPage.LegacySearchAgainstPage | src/lib/services.ts:172-186 | a query of spaces goes to ranked search in the service but to the listing on the page; a non-blank query under `hybrid`, and an empty query on page 0, give both the same jobs |
| JobsPage.SelectMethod | src/app/jobs/page.tsx:194 | switching the strategy records it and changes nothing else |
| JobsPage.SelectedMethodReachesNextSearch | src/app/jobs/page.tsx:90-94 | the next search with a non-blank query uses the strategy just selected |
| JobsPage.ChangeFilter | src/app/jobs/page.tsx:106-111 | editing the filter form leaves the jobs, total and paging alone |
| JobsPage.ClearForm | src/app/jobs/page.tsx:114-123 | clearing leaves no active filter and leaves the jobs, total and paging alone |
| JobsPage.LoadMoreJobs | src/app/jobs/page.tsx:126-138 | listing page `currentPage + 1` is appended after the shown jobs and the page number advances by one; the total is kept; on failure nothing changes |
| JobsPage.ShowLoadMore | src/app/jobs/page.tsx:477 | "load more" is offered exactly while some but not all of the counted jobs are shown and the query box is empty, and then a search would also use the bulk listing |
| JobsPage.LoadMoreAfterMount | src/app/jobs/page.tsx:61-76 | right after mounting, "load more" is offered exactly when page 0 loaded some jobs but fewer than its reported total |
| JobsPage.BlankQueryHidesLoadMore | src/app/jobs/page.tsx:80 | a query of spaces is searched as the bulk listing, yet hides "load more" |
| JobsPage.MountIsPaged | src/app/jobs/page.tsx:61-76 | after mounting the list is exactly the listing pages up to the current one |
| JobsPage.PagingPreserved | src/app/jobs/page.tsx:126-138 | load more, filter edits, clearing and switching strategy keep the list equal to the listing pages up to the current one |
| JobsPage.BlankSearchDropsEarlierPages | src/app/jobs/page.tsx:80-85 | a blank search after paging keeps only the current page, dropping the earlier ones |
| JobsPage.RankedThenLoadMore | src/app/jobs/page.tsx:90-131 | after a ranked search, clearing the query and loading more appends a listing page to the ranked results |

## Left out

- Rendering (JSX, icons, layout), the navigation bar, the root layout, the landing page and the dashboard: they display state and hold no logic beyond the service calls modelled here.
- The HTTP client, cookies, token decoding and the credential cipher in the authentication context: `updateProfile` takes the outcome of reading the current profile as a parameter, and login and registration take the outcome of their call.
- `formatSalary` and `formatRelativeTime`: locale-aware number and date formatting from libraries; `cn`: class-name merging.
- `applyToJob`: a timer-based mock that always succeeds.
- The jobs page's `loading`, `searching` and `showFilters` flags and the profile page's `saving` flag (the login and registration pages' `loading` is modelled), and the interleaving of concurrent requests: each transition is the state after its call has settled.
- Malformed responses: every response is assumed to have the fields the code reads.
- `parseInt` on the salary inputs: a salary bound is an optional integer, so `NaN` is not modelled.
- JavaScript numbers are unbounded integers here, so job ids print without exponent notation and ids are never fractional.
- Strings are sequences of code points: `toUpperCase` is modelled for the ASCII letters and the accented Latin-1 letters `à`..`þ` only (not `ß`, `ÿ`, `µ` or letters of other scripts), and lengths count code points, not UTF-16 code units.
- Utils.GenerateInitials: its own contract only bounds the length and names the empty-name case; the full relation is Utils.InitialsAreWordStarts.
- The blank-query branch of the jobs page's search has no `try`: a failing listing there leaves an unhandled rejection, which the model shows only as an unchanged page.
- The default argument of `getRecommendedJobs` (`'desarrollador'`): the model always passes the query.
- The profile form's first render: its `useState` initialiser reads the user once, at mount, and a user restored after mount leaves the form empty until cancel; the model starts from any form state.
- Multi-step lemmas assume a backend that answers the same request the same way every time.

## Findings

| source | as written | input that shows it | evidently intended | confidence | as-written member | corrected member |
|---|---|---|---|---|---|---|
| src/lib/utils.ts:42 | the label lookup with its fallback looks the code up along the object's prototype chain | `getJobTypeLabel('toString')` yields the function `Object.prototype.toString` instead of `'toString'` | unknown codes are returned unchanged | high, not executed | Utils.GetJobTypeLabelAsWritten, Utils.InheritedKeyEscapesFallback | Utils.GetJobTypeLabel, Utils.LabelAsWrittenAgrees |
| src/app/profile/page.tsx:73 | the save sends the form object, whose name and title sit under the keys `name` and `title`, which `User` does not have | edit the name to `Ana` and save: the stored user keeps its old `fullName`, and the form refilled from it shows the old name | each form field is saved under its user key (`fullName`, `professionalTitle`) | high, not executed | ProfilePage.SavePatchAsWritten, ProfilePage.SaveAsWrittenLosesName, ProfilePage.HandleSave, ProfilePage.CancelAfterSave | ProfilePage.SavePatch, ProfilePage.SaveRoundTrip, ProfilePage.HandleSaveCorrected, ProfilePage.CancelAfterCorrectedSaveKeepsEdits |
