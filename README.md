# SeventyTwoHUB client logic, modelled in Dafny

SeventyTwoHUB (shown to users as BizBoost Hub) is a support platform for small businesses. It is a React front end over a hosted backend-as-a-service.
- Applicants create accounts and register their businesses through a five-step wizard.
- They apply to programs, which are training or funding cohorts, either through that wizard or through a public application form.
- Administrators review registrations and applications, look at analytics and statistics, export CSV files and change platform settings.

This project models the client-side logic of those screens and proves properties of it:

- the **auth context**: classifying users by email, fetching roles with an email-based fallback, signing in and up, mirroring state into browser storage, restoring a stored developer session, signing out;
- the **login page**: form checks, a rate limit on failed attempts kept in storage, the development bypass, and where each outcome leads;
- the **registration wizard**: the draft kept in storage and merged step by step, then the record, the program applications and the uploads submitted at the end;
- the **admin screens**: registration review with search, status filter and CSV export; analytics bucketing and top categories; the settings object; dashboard statistics and feeds;
- the **admin query layer**: paging, application and registration review, ordered user deletion, notifications and the two CSV exports;
- the **marketplace filters** and the **public application form**: field rendering, the upload loop, and the staged submission that stops at the first failure.

The backend (tables, auth service, file storage) is outside the model. Each of its answers is a parameter of the operation that receives it. The admin query layer keeps the tables in one `Backend` object. Browser `localStorage` is one `Storage.LocalStorage` object shared by the pages. A value saved with `JSON.stringify` is kept as the JSON value it encodes. JavaScript objects whose key order shows (spread updates, `Object.entries`) are ordered association lists.

The foundation modules need no rows of their own:
- `Wrappers`, `Strings`, `Dicts` and `JsonValues` give JavaScript's string, object, truthiness and `parseInt` semantics;
- `Storage` is the browser store;
- `Csv`, `Sorting`, `Lists` and `Tallies` give CSV join and split, the stable sort used by `Array.prototype.sort`, filtering, and counting into an object.

## Model

| member | source | states |
|---|---|---|
| AdminHelpers.FormatUserRole | src/utils/adminHelpers.ts:3-13 | each of the five role keys gets its label; any other key comes back unchanged |
| AdminHelpers.FormatBusinessType | src/utils/adminHelpers.ts:15-25 | each of the five business types gets its label; any other key comes back unchanged |
| AdminHelpers.FormatApplicationStatus | src/utils/adminHelpers.ts:27-37 | each of the five application statuses gets its label; any other key comes back unchanged |
| AdminHelpers.FormatRegistrationStatus | src/utils/adminHelpers.ts:39-49 | each of the five registration statuses gets its label; any other key comes back unchanged |
| AdminHelpers.GetStatusColor | src/utils/adminHelpers.ts:51-81 | a listed status gets its own table entry and any other status the grey default; the result is always one of the five colour classes. The kind ranges over the four tables, so the source's `TypeError` for an unknown kind has no input here |
| AdminHelpers.StatusColors | src/utils/adminHelpers.ts:51-81 | users: active green, inactive grey, suspended red; programs: draft yellow, active green, completed blue, cancelled red |
| AdminHelpers.ReviewStatusColors | src/utils/adminHelpers.ts:51-81 | applications: draft grey, submitted yellow, under review blue, approved green, rejected red; registrations: pending grey, under review blue, approved green, rejected red, requires documents yellow |
| AdminHelpers.CalculateGrowthRate | src/utils/adminHelpers.ts:83-86 | with no previous count the rate is 100 when there is a current count and 0 otherwise; an unchanged count gives 0; a non-negative count never falls more than 100 % |
| AdminHelpers.ValidateEmailShape | src/utils/adminHelpers.ts:114-117 | the left-to-right check accepts exactly the strings `part@part.part` whose parts are non-empty and free of white space and `@` |
| AdminHelpers.ValidatePhoneNumber | src/utils/adminHelpers.ts:119-123 | accepted exactly when, once white space is removed, the number is `+27` and nine digits, or `0` and nine digits |
| AdminHelpers.PhoneForms | src/utils/adminHelpers.ts:119-123 | nine digits after `+27` or `0`, with any white space in between, are accepted; eight digits or ten digits after `0` are rejected |
| AdminHelpers.PhoneIgnoresWhitespace | src/utils/adminHelpers.ts:122 | inserting white space anywhere in a number never changes the verdict |
| AdminHelpers.PhoneSameStripped | src/utils/adminHelpers.ts:122 | two numbers equal after white-space removal get the same verdict |
| AdminHelpers.SanitizeInput | src/utils/adminHelpers.ts:125-127 | the result holds no `<` or `>`, keeps the trimmed input's other characters in order (a subsequence of it with the same count of every other character), and is the trimmed input when that has neither bracket |
| AdminHelpers.SanitizeNotIdempotent | src/utils/adminHelpers.ts:125-127 | sanitising is not idempotent: `"< a"` gives `" a"`, which sanitises again to `"a"` |
| AdminHelpers.FormatTimeAgo | src/utils/adminHelpers.ts:156-167 | under a minute is `Just now`; then `n minutes ago` for the n whole minutes elapsed (1-59), likewise hours (1-23) and days (1-29); from 30 days on, the locale date of the past time |
| AdminHelpers.GroupBy | src/utils/adminHelpers.ts:169-176 | keys are unique; a key maps to exactly the items with that key, in input order, and a key no item has is absent |
| AdminHelpers.Chunk | src/utils/adminHelpers.ts:178-184 | the chunks concatenate back to the input; all but the last have `size` items; the last is non-empty and at most `size`; an empty input gives no chunks |
| AdminHelpers.HasAdminPermission | src/utils/adminHelpers.ts:187-189 | true exactly when some required role is among the user's roles |
| AdminHelpers.NoPermissionFromNothing | src/utils/adminHelpers.ts:187-189 | an empty requirement list grants nothing, and an empty role list is granted nothing |
| AdminHelpers.CanManageUsers | src/utils/adminHelpers.ts:191-193 | true exactly when the roles include `admin` or `super_admin` |
| AdminHelpers.CanManagePrograms | src/utils/adminHelpers.ts:195-197 | true exactly when the roles include `admin`, `super_admin` or `program_manager` |
| AdminHelpers.CanReviewRegistrations | src/utils/adminHelpers.ts:199-201 | true exactly when the roles include `admin`, `super_admin` or `client_admin` |
| AdminHelpers.CanAccessAnalytics | src/utils/adminHelpers.ts:203-205 | true exactly when the roles include `admin`, `super_admin` or `program_manager`, the same test as `canManagePrograms` |
| AdminHelpers.CanModifySettings | src/utils/adminHelpers.ts:207-209 | true exactly when the roles include `admin` or `super_admin`, the same test as `canManageUsers` |
| AdminHelpers.ManageUsersImpliesOthers | src/utils/adminHelpers.ts:191-209 | whoever may manage users may also manage programs, review registrations, see analytics and change settings |
| Roles.ParseRole | src/types/auth.ts:1 | a parsed role's name is the parsed string |
| Roles.ParseRoleName | src/types/auth.ts:1 | every role's name parses back to that role |
| Roles.RolesJsonRoundTrip | src/context/AuthContext.tsx:135 | a role list stored as JSON reads back unchanged |
| AuthContext.ParseUserType | src/context/AuthContext.tsx:464 | the cast keeps the stored text: the type's name is that text, it is admin exactly for `admin` and participant exactly for `participant` |
| AuthContext.ParseUserTypeName | src/context/AuthContext.tsx:464 | the two type names the app writes read back as their types |
| AuthContext.DetermineUserType | src/context/AuthContext.tsx:60-66 | admin exactly when the email contains `admin` or ends with `@bizboost.co.za` or `@seda.org.za` |
| AuthContext.RolesForType | src/context/AuthContext.tsx:146 | each type has one role: `admin` for admins, `participant` for every other type, including unknown stored text |
| AuthContext.FetchUserRoles | src/context/AuthContext.tsx:68-104 | fetched rows are returned in order; null data gives no roles; an error or an exception gives `admin` when the email contains `admin` or ends with `@bizboost.co.za`, and `participant` otherwise |
| AuthContext.NoRowsNoFallback | src/context/AuthContext.tsx:85-96 | an empty or null role result gives no roles at all, even for an admin email |
| AuthContext.SedaFallbackMismatch | src/context/AuthContext.tsx:60-104 | a `@seda.org.za` address without `admin` in it is typed as admin, yet a failed role fetch gives it the participant role |
| AuthContext.SignIn | src/context/AuthContext.tsx:281-311 | no error exactly when the service returned both a user and a session, and the user type is then the one the email implies; on any error the type is participant |
| AuthContext.SignUpPrecheck | src/context/AuthContext.tsx:313-335 | a registered email, a missing `@` and a password under six UTF-16 code units fail in that order with their messages; it passes exactly when none applies |
| AuthContext.SignUp | src/context/AuthContext.tsx:313-372 | a failed pre-check is returned as the error with no user; a created user comes back with its id, email, name, the type its email implies and that type's single role, and no error; no user gives `Account creation failed`; a service error or a throw gives its message |
| AuthContext.UpdatedUser | src/context/AuthContext.tsx:106-135 | the service user keeps its id, email and name, gets the type its email implies, and the fetched roles, or its type's single role when the fetch did not complete |
| AuthContext.PrecheckStopsSignUp | src/context/AuthContext.tsx:313-335 | after a failed pre-check the service's answer makes no difference |
| AuthContext.AuthProvider.constructor | src/context/AuthContext.tsx:43-48 | no user, session, type or roles; loading; not a dev user |
| AuthContext.AuthProvider.ClearState | src/context/AuthContext.tsx:193-197 | user, session, type and roles are cleared and nothing else changes |
| AuthContext.AuthProvider.Persist | src/context/AuthContext.tsx:132-135 | storage gains the type, the email and the JSON role list and nothing else changes |
| AuthContext.AuthProvider.UpdateUserState | src/context/AuthContext.tsx:106-214 | with a user and a session: the user with its type and the fetched roles (the type's single role when the fetch threw or timed out), all persisted; otherwise the context and five storage keys are cleared; the context stays mirrored in storage |
| AuthContext.AuthProvider.SetDevUser | src/context/AuthContext.tsx:216-279 | a local user with the given roles (by default its type's role), a `dev_token_<now>` session and five stored keys; loading ends |
| AuthContext.AuthProvider.SignOut | src/context/AuthContext.tsx:374-408 | the service is called only for a non-dev user; the context is cleared; five keys are removed, or all storage when the service call throws |
| AuthContext.AuthProvider.UpdateProfile | src/context/AuthContext.tsx:410-449 | no user gives `User not authenticated`; success exactly when the update returned; the error texts; a returned non-empty name replaces the full name and nothing else changes |
| AuthContext.AuthProvider.HandleAuthEvent | src/context/AuthContext.tsx:532-570 | sign-in and token refresh with a session put the updated user, its type, its roles and the session in context and persist type, email and roles; sign-out clears the context and four keys but keeps `authToken`; other events change no user, session, type, roles, dev flag or storage; loading ends |
| AuthContext.AuthProvider.InitializeAuth | src/context/AuthContext.tsx:456-530 | a stored dev user is restored with its id, stored email, `Dev User` name, stored type text, the dev session and the stored roles (the type's default role when the stored value is falsy), and storage then holds the five keys `setDevUser` writes; a stored role list that does not parse changes nothing; otherwise the session half decides; loading ends on every path |
| AuthContext.AuthProvider.ApplySession | src/context/AuthContext.tsx:476-513 | a fetch error or a throw only ends loading; no session clears user, session, type and roles and leaves storage alone; a found session puts the updated user, its type, roles and the session in context and persists them |
| AuthContext.AuthProvider.IsAuthenticated | src/context/AuthContext.tsx:578 | true exactly when there is a user and a session; an authenticated context has a user and, when mirrored, a type |
| AuthContext.AuthProvider.HasRole | src/context/AuthContext.tsx:51-53 | the same as asking for any of the one-role list |
| AuthContext.AuthProvider.HasAnyRole | src/context/AuthContext.tsx:55-58 | true exactly when some required role is among the context's roles; an empty requirement grants nothing |
| Roles.RoleNames | src/types/auth.ts:1 | one name per role, in order |
| Roles.RolesFromItems | src/context/AuthContext.tsx:465 | the role names of a stored list, in order, never more roles than items |
| Login.ValidEmailTrimmed | src/pages/Login.tsx:56-60 | an email the pattern accepts is non-empty and its own trim |
| Login.FormValidIff | src/pages/Login.tsx:52-95 | the form passes exactly when no field carries a message |
| Login.FieldError | src/pages/Login.tsx:52-95 | each field is free of messages exactly when its check passes: the email is non-blank and well-formed (and an admin address on the admin tab, whose message then wins); the password has six UTF-16 code units; in sign-up mode the confirmation is non-empty and equal, the name non-blank, and the mobile number empty or valid |
| Login.MessagesMatchByField | src/pages/Login.tsx:52-95 | a message object that agrees with the checks field by field, and holds nothing else, is the one the checks build |
| Login.MessagesEmptyIff | src/pages/Login.tsx:92-94 | the message object is empty exactly when the form is valid |
| Login.AdminTabEmailIsAdmin | src/pages/Login.tsx:70-75 | an email accepted on the admin tab needs no trim and is one the auth service types as admin |
| Login.DevType | src/pages/Login.tsx:185 | a built-in account is admin exactly on the admin tab |
| Login.DevMatchIgnoresCase | src/pages/Login.tsx:177-180 | lower-casing the typed email never changes whether it matches a built-in account |
| Login.DevUserHasStaffDomain | src/pages/Login.tsx:11-14 | the built-in user account sits on `@bizboost.co.za`, which the auth service types admin, yet the bypass signs it in as participant |
| Login.RouteFor | src/pages/Login.tsx:137-141 | the admin dashboard exactly for admins |
| Login.LoginErrorText | src/pages/Login.tsx:209-223 | the text is never empty and is either the service's own message or one of four fixed texts; `Invalid login credentials` always gives the credentials text; an empty message gives `Login failed` |
| Login.DecideLogin | src/pages/Login.tsx:207-253 | refused exactly on an error or a non-admin on the admin tab, with the error's text; an entry goes to its type's dashboard and counts (remember-me, cleared attempts) unless it is an admin on the user tab |
| Login.SignInRoute | src/pages/Login.tsx:207-253 | a real sign-in enters only with a user and a session, at the dashboard of the type the user's email implies |
| Login.SignUpErrorText | src/pages/Login.tsx:297-339 | back to sign-in exactly for an already-registered message; password and email errors sit under their fields with their texts; any other message is shown under `general`, as itself or one of four fixed texts |
| Login.SignUpPageCheck | src/pages/Login.tsx:274-290 | passes exactly when email, password and name are present, the email has `@` and five UTF-16 code units, and the password six; a missing field gives the fill-in message |
| Login.ZeroParses | src/pages/Login.tsx:100 | the `'0'` default parses to zero |
| Login.RemainingMinutes | src/pages/Login.tsx:106 | the whole minutes left, rounded up: at least 1, at most 15, and the least count of minutes covering the time left |
| Login.RecordedFailureLocks | src/pages/Login.tsx:121-135 | after a failure recorded with count n, the page is locked `later` ms on exactly when n is at least five and under fifteen minutes have passed |
| Login.ClearedNotAtLimit | src/pages/Login.tsx:122-128 | once both counters are removed the page is not at the limit |
| Login.EmailAndPasswordMessages | src/pages/Login.tsx:55-75 | the email and password messages are exactly those the checks call for, under those two keys only |
| Login.SignUpMessages | src/pages/Login.tsx:77-91 | the name, confirm and mobile messages are exactly those the sign-up checks call for, under those three keys only |
| Login.LoginPage.constructor | src/pages/Login.tsx:380-393 | a remembered email is pre-filled with remember-me on; the stored count is loaded; the page is locked exactly when the stored counters say so, with the minutes-left message; an expired lock clears both counters |
| Login.LoginPage.CheckRateLimit | src/pages/Login.tsx:98-119 | allowed exactly when not locked; a lock shows the minutes left and leaves storage alone; an expired lock clears both counters; below the limit nothing changes |
| Login.LoginPage.UpdateLoginAttempts | src/pages/Login.tsx:121-135 | success zeroes the count and clears both stored counters; a failure adds one and stores the count and the time |
| Login.LoginPage.ValidateForm | src/pages/Login.tsx:52-96 | every failed check's message is under its field and nothing else; the result is true exactly when there is none, exactly when the form is valid |
| Login.LoginPage.HandleInputChange | src/pages/Login.tsx:43-50 | the field takes the value and a message under it is blanked; nothing else changes |
| Login.LoginPage.ResetForm | src/pages/Login.tsx:369-377 | empty form, no messages, zero attempts, not locked; stored counters untouched |
| Login.LoginPage.SelectFormMode | src/pages/Login.tsx:435-449 | the mode changes and the form is reset |
| Login.LoginPage.SelectLoginType | src/pages/Login.tsx:465-482 | the tab changes and the messages are cleared; the form stays |
| Login.LoginPage.Remember | src/pages/Login.tsx:244-245 | remember-me on stores the email, off removes it |
| Login.LoginPage.DevLogin | src/pages/Login.tsx:176-203 | the context holds a dev user of the tab's type with its role and a `dev_token_<now>` session, mirrored in storage; remember-me applied; counters cleared; the route is that type's dashboard |
| Login.LoginPage.HandleLogin | src/pages/Login.tsx:167-261 | a built-in account takes the bypass; otherwise the context is untouched and the decision applies: a refusal shows its message and records a failure, a counted entry applies remember-me and clears the counters, an admin on the user tab only navigates |
| Login.LoginPage.HandleSignUp | src/pages/Login.tsx:263-367 | a failed page check shows its message and stores nothing; a service error is shown as classified and may switch back to sign-in; a created account stores the tab's type and the email and routes to that tab's dashboard |
| Login.LoginPage.HandleSubmit | src/pages/Login.tsx:143-165 | nothing while loading; an invalid form shows messages; a lock refuses; a valid, unlocked form navigates to the route its sign-in or sign-up outcome selects |
| RegistrationReview.Shown | src/components/admin/BusinessRegistrationReview.tsx:118-136 | the listed registrations are loaded ones, in their order, and each passes the search and the status filter |
| RegistrationReview.ShownMember | src/components/admin/BusinessRegistrationReview.tsx:118-136 | a registration is listed exactly when it is loaded and passes the search and the status filter |
| RegistrationReview.ShownBySearch | src/components/admin/BusinessRegistrationReview.tsx:121-129 | with a term and every status, listed exactly when the lower-cased term is in the lower-cased name, owner name, email or reference |
| RegistrationReview.ShownEverything | src/components/admin/BusinessRegistrationReview.tsx:118-136 | no term and every status lists every loaded registration in order |
| RegistrationReview.ShownByStatus | src/components/admin/BusinessRegistrationReview.tsx:131-133 | a status filter lists exactly the registrations with that status |
| RegistrationReview.ShownIsSubsequence | src/components/admin/BusinessRegistrationReview.tsx:118-136 | the list keeps the loaded order and drops, never adds |
| RegistrationReview.ShownIdempotent | src/components/admin/BusinessRegistrationReview.tsx:118-136 | filtering the listed registrations again changes nothing |
| RegistrationReview.ShownInStages | src/components/admin/BusinessRegistrationReview.tsx:118-136 | searching and then filtering by status, each only when set, is the one combined filter |
| RegistrationReview.StatusCountsSum | src/components/admin/BusinessRegistrationReview.tsx:228-232 | the five stat cards add up to the number of loaded registrations |
| RegistrationReview.DecisionRequest | src/components/admin/BusinessRegistrationReview.tsx:480-483 | each button sends its status; the notes go as typed, except that a rejection with no notes sends `Application rejected`, so a rejection never sends empty notes |
| RegistrationReview.ExportRows | src/components/admin/BusinessRegistrationReview.tsx:173-187 | the header, then one eight-column row per listed registration, in order |
| RegistrationReview.ExportRowsWidth | src/components/admin/BusinessRegistrationReview.tsx:173-187 | every line of the export has eight cells |
| RegistrationReview.HeaderPlain | src/components/admin/BusinessRegistrationReview.tsx:176 | no header cell holds a comma or a line break |
| RegistrationReview.ExportCsv | src/components/admin/BusinessRegistrationReview.tsx:173-187 | the first line of the export reads back as the eight-column header |
| RegistrationReview.ExportRoundTrip | src/components/admin/BusinessRegistrationReview.tsx:173-187 | when no cell holds a comma or a line break, splitting the file on line breaks and commas gives back the rows |
| RegistrationReview.CommaInNameShifts | src/components/admin/BusinessRegistrationReview.tsx:178-187 | the export does not quote cells: a business name with a comma puts that comma in the file |
| RegistrationReview.ReviewPage.constructor | src/components/admin/BusinessRegistrationReview.tsx:49-59 | no rows, empty search, every status, no dialog, loading |
| RegistrationReview.ReviewPage.FilterRegistrations | src/components/admin/BusinessRegistrationReview.tsx:118-136 | the listed rows become the loaded rows under the current search and status; nothing else changes |
| RegistrationReview.ReviewPage.LoadRegistrations | src/components/admin/BusinessRegistrationReview.tsx:82-116 | fetched rows replace the loaded ones (a failed fetch keeps them); loading ends and the list is refiltered |
| RegistrationReview.ReviewPage.SetSearchTerm | src/components/admin/BusinessRegistrationReview.tsx:86-88 | the term changes and the list is refiltered |
| RegistrationReview.ReviewPage.HandleFilterSelect | src/components/admin/BusinessRegistrationReview.tsx:202-205 | the status changes and the list is refiltered |
| RegistrationReview.ReviewPage.OpenReview | src/components/admin/BusinessRegistrationReview.tsx:348-350 | the dialog opens on the registration with its stored notes, or none |
| RegistrationReview.ReviewPage.HandleStatusUpdate | src/components/admin/BusinessRegistrationReview.tsx:138-149 | a stored update reloads, closes the dialog, clears the notes and shows the success alert; a failed one shows the error alert and changes nothing else |
| RegistrationDraft.Merged | src/pages/registration/BusinessInformation.tsx:55-59 | the merged draft holds the step's new value, and every other key reads as it did before |
| RegistrationDraft.MergeStep | src/pages/registration/BusinessInformation.tsx:55-59 | the stored draft is read (an empty draft when absent); when it parses, it is written back with the step merged in; when it does not, storage is untouched and the error is returned |
| RegistrationDraft.MergeThenRead | src/pages/registration/SupportingDocuments.tsx:20-24 | reading the draft after a merge gives the step's new value and every other step as it was |
| ApplicationType.ProgramsJson | src/pages/registration/ApplicationType.tsx:84 | one JSON object per program, in order, holding the whole fetched row, an empty optional column as `null` |
| ApplicationType.IconForProgram | src/pages/registration/ApplicationType.tsx:41-48 | the keyword groups (tool, funding, market, mentor) are tried in order on the lower-cased name and the first that matches decides; no match gives the calendar |
| ApplicationType.ToolBeatsFunding | src/pages/registration/ApplicationType.tsx:43-44 | a name in two groups takes the earlier one: `Tool Funding` shows the wrench |
| ApplicationType.IconIgnoresCase | src/pages/registration/ApplicationType.tsx:42 | lower-casing the name never changes the icon |
| ApplicationType.ColorForProgram | src/pages/registration/ApplicationType.tsx:50-60 | the colour is one of the six |
| ApplicationType.ColorPeriod | src/pages/registration/ApplicationType.tsx:59 | colours repeat every six cards and neighbouring cards never share one |
| ApplicationType.ToggleType | src/pages/registration/ApplicationType.tsx:62-68 | the toggled id is selected exactly when it was not; every other id keeps its state |
| ApplicationType.ToggleTwice | src/pages/registration/ApplicationType.tsx:62-68 | selecting an unselected id and toggling it again restores the selection exactly |
| ApplicationType.SelectedPrograms | src/pages/registration/ApplicationType.tsx:84 | the recorded programs are available ones, in the available order, each with a selected id |
| ApplicationType.SelectedProgramsExact | src/pages/registration/ApplicationType.tsx:84 | the stored programs are exactly the available ones whose id is selected, in the available order |
| ApplicationType.ApplicationTypePage.constructor | src/pages/registration/ApplicationType.tsx:11-15 | nothing selected, no description, no programs, loading, no error |
| ApplicationType.ApplicationTypePage.LoadAvailablePrograms | src/pages/registration/ApplicationType.tsx:17-29 | fetched programs replace the list; a failed fetch keeps it and sets the error text; loading ends |
| ApplicationType.ApplicationTypePage.HandleTypeToggle | src/pages/registration/ApplicationType.tsx:62-68 | the selection is toggled and nothing else changes |
| ApplicationType.ApplicationTypePage.SetDescription | src/pages/registration/ApplicationType.tsx:12 | the description is set and nothing else changes |
| ApplicationType.ApplicationTypePage.HandleSubmit | src/pages/registration/ApplicationType.tsx:70-89 | no selection alerts and writes nothing; otherwise step 4 (types, description, selected programs) is merged into the draft and the page moves to the confirmation; a draft that does not parse stops it with storage untouched |
| BusinessInformation.InitialFormEmpty | src/pages/registration/BusinessInformation.tsx:7-16 | every field starts empty |
| BusinessInformation.SetField | src/pages/registration/BusinessInformation.tsx:48-50 | the field takes the value and every other field keeps its own |
| BusinessInformation.SetFieldTwice | src/pages/registration/BusinessInformation.tsx:48-50 | a second edit of the same field overrides the first |
| BusinessInformation.FormJsonGet | src/pages/registration/BusinessInformation.tsx:58 | the stored step 2 object gives each field's text under its own name |
| BusinessInformation.BeeeLevelValues | src/pages/registration/BusinessInformation.tsx:36-46 | nine choices: `Not Certified` with the empty value, then levels 1 to 8 with their digit as value |
| BusinessInformation.BusinessInformationPage.constructor | src/pages/registration/BusinessInformation.tsx:7-16 | the form starts empty |
| BusinessInformation.BusinessInformationPage.HandleInputChange | src/pages/registration/BusinessInformation.tsx:48-50 | one field changes |
| BusinessInformation.RequiredFilledIff | src/pages/registration/BusinessInformation.tsx:77-204 | the form submits exactly when the six `required` fields (name, category, location, employees, revenue, years) are non-empty; the business type and B-BBEE level play no part; the empty form does not submit |
| BusinessInformation.BusinessInformationPage.HandleNext | src/pages/registration/BusinessInformation.tsx:52-61 | a form with an empty required field does not submit: nothing is written and the page stays; otherwise step 2 is merged into the draft and the page moves to the documents; a draft that does not parse stops it with storage untouched |
| SupportingDocuments.InitialSlotsEmpty | src/pages/registration/SupportingDocuments.tsx:7-12 | every slot starts empty |
| SupportingDocuments.Upload | src/pages/registration/SupportingDocuments.tsx:14-16 | the slot takes the file (or none) and the other slots keep theirs |
| SupportingDocuments.FileJson | src/pages/registration/SupportingDocuments.tsx:23 | a stored slot is truthy exactly when it held a file |
| SupportingDocuments.SlotsJsonShape | src/pages/registration/SupportingDocuments.tsx:21-24 | the stored object has the four slot keys in order, each truthy exactly when its slot holds a file |
| SupportingDocuments.SupportingDocumentsPage.constructor | src/pages/registration/SupportingDocuments.tsx:7-12 | all slots empty |
| SupportingDocuments.SupportingDocumentsPage.HandleFileUpload | src/pages/registration/SupportingDocuments.tsx:14-16 | one slot changes |
| SupportingDocuments.SupportingDocumentsPage.HandleNext | src/pages/registration/SupportingDocuments.tsx:18-26 | step 3 is merged into the draft and the page moves on; a draft that does not parse stops it with storage untouched |
| SupportingDocuments.SupportingDocumentsPage.HandleSkip | src/pages/registration/SupportingDocuments.tsx:28-30 | moves on without touching storage |
| Confirmation.SubmissionData | src/pages/registration/Confirmation.tsx:23-37 | whatever the draft holds, the record is an object of thirteen entries whose keys are the submission keys in order |
| Confirmation.SubmissionFieldValues | src/pages/registration/Confirmation.tsx:24-36 | for each of the twelve `\|\|` fields, the record carries the draft's step value when it is truthy and the field's default (`''`, `informal`, `not_certified`, `[]`) otherwise, whatever the other steps hold |
| Confirmation.SubmissionKeysDistinct | src/pages/registration/Confirmation.tsx:23-37 | no two submission keys are equal, so each field is read at its own entry |
| Confirmation.SubmissionTotal | src/pages/registration/Confirmation.tsx:23-37 | whatever the draft holds, the record's key list is exactly the thirteen submission keys |
| Confirmation.SubmissionOfEmptyDraft | src/pages/registration/Confirmation.tsx:23-37 | an empty draft gives every default: empty texts, `informal`, 0 years, `not_certified`, no services |
| Confirmation.SubmissionYearsField | src/pages/registration/Confirmation.tsx:33 | the years field is the integer prefix of the typed value, or 0 |
| Confirmation.SubmissionYears | src/pages/registration/Confirmation.tsx:33 | typed digits are submitted as their number; text that is not a number as 0 |
| Confirmation.Inserts | src/pages/registration/Confirmation.tsx:49-68 | one insert per selected program, in order, each with the program's id, the registration id, the record plus the program name and source tag, and status `submitted` |
| Confirmation.CreateProgramApplications | src/pages/registration/Confirmation.tsx:49-68 | the loop attempts exactly those inserts |
| Confirmation.UploadDocuments | src/pages/registration/Confirmation.tsx:71-82 | the loop attempts exactly the uploads of the truthy document entries |
| Confirmation.UploadsExact | src/pages/registration/Confirmation.tsx:73-74 | an entry is uploaded exactly when it is in the draft's step 3 and truthy, in order |
| Confirmation.ApplicationData | src/pages/registration/Confirmation.tsx:85-90 | the stored application has the reference, `Pending Review` and the submission time, and every other key of the draft |
| Confirmation.CompleteSubmission | src/pages/registration/Confirmation.tsx:46-90 | a program list that is not iterable throws before any insert and stores nothing; otherwise the inserts, the uploads and the stored application above |
| Confirmation.ConfirmationPage.constructor | src/pages/registration/Confirmation.tsx:10-11 | no number, not submitting |
| Confirmation.ConfirmationPage.SubmitRegistration | src/pages/registration/Confirmation.tsx:17-98 | a draft that does not parse or a missing insert result alerts with nothing done; otherwise the number is set and the submission completes as above; the draft itself is never removed; submitting ends |
| Confirmation.ConfirmationPage.GoToDashboard | src/pages/registration/Confirmation.tsx:104-108 | removes the draft and goes to the login page |
| AdminAnalytics.Points | src/components/admin/AdminAnalytics.tsx:142-145 | one point per counted bucket, in the same order, with its label and count |
| AdminAnalytics.PointsSumIsSum | src/components/admin/AdminAnalytics.tsx:142-145 | the points carry exactly the counted total |
| AdminAnalytics.BucketKeys | src/components/admin/AdminAnalytics.tsx:125-138 | one bucket label per row, the label the range's bucketing gives that row's date |
| AdminAnalytics.ProcessTimeSeriesData | src/components/admin/AdminAnalytics.tsx:122-146 | the loop's counts are the tally of the rows' bucket labels, in first-seen order |
| AdminAnalytics.TimeSeriesTotals | src/components/admin/AdminAnalytics.tsx:122-146 | the bucket counts add up to the number of rows, and each bucket counts exactly the rows with that label |
| AdminAnalytics.Colored | src/components/admin/AdminAnalytics.tsx:154-157 | each category keeps its count and gets the colour of its first-appearance position, cycling through six |
| AdminAnalytics.ProcessCategoryData | src/components/admin/AdminAnalytics.tsx:148-159 | the result is the first six of the coloured categories sorted by count, highest first |
| AdminAnalytics.TopCategories | src/components/admin/AdminAnalytics.tsx:148-159 | the first six of the sorted categories (all when there are six or fewer), highest count first, each one of the counted categories with its colour, and no dropped category counts more than a kept one |
| AdminAnalytics.CategoryTiesInFirstSeenOrder | src/components/admin/AdminAnalytics.tsx:156-158 | the sort is stable: categories with the same count keep their first-seen order |
| Sorting.SortStable | src/components/admin/AdminAnalytics.tsx:158 | `Array.prototype.sort` with a key comparator is stable: the elements with any one key come out in their input order |
| AdminAnalytics.CategoryTotals | src/components/admin/AdminAnalytics.tsx:149-152 | before the cut the category counts add up to the number of registrations |
| AdminAnalytics.ProgramLabel | src/components/admin/AdminAnalytics.tsx:99 | names of up to 15 UTF-16 code units are kept; longer ones keep a prefix of 14 or 15 code units and gain `...`; on text without characters above U+FFFF that is the first 15 characters |
| Strings.JsLength | src/pages/Login.tsx:65 | `.length` counts UTF-16 code units: between one and two per character, and one per character on text without characters above U+FFFF |
| Strings.EmojiLength | src/pages/Login.tsx:65 | three emoji are three characters but six code units, so they pass a six-character minimum |
| Strings.JsPrefix | src/components/admin/AdminAnalytics.tsx:99 | `substring(0, n)`: a prefix of the text within `n` code units that stops only where the next character would not fit, and the whole text when it fits |
| Strings.JsPrefixBmp | src/components/admin/AdminAnalytics.tsx:99 | on text without characters above U+FFFF the prefix is the first `n` characters |
| AdminAnalytics.ProgramStatOf | src/components/admin/AdminAnalytics.tsx:98-102 | a missing nested count is 0, a present one is kept |
| AdminAnalytics.ProgramStats | src/components/admin/AdminAnalytics.tsx:98-102 | one stat per program, in order |
| AdminAnalytics.GenerateMockRevenueData | src/components/admin/AdminAnalytics.tsx:161-175 | 7, 30, 12 or 12 points by range, oldest first, the last one today, in days for the two short ranges and months otherwise |
| AdminAnalytics.SeriesRows | src/components/admin/AdminAnalytics.tsx:180-181 | one `metric,count,label` row per point, in order |
| AdminAnalytics.ExportRows | src/components/admin/AdminAnalytics.tsx:177-182 | the header, then at position 1 + i the sign-up row of point i, then at 1 + (sign-up count) + j the registration row of point j, each with the metric, the count and the date |
| AdminAnalytics.ExportShape | src/components/admin/AdminAnalytics.tsx:177-182 | the header, the sign-up rows, then the registration rows, each of three cells |
| AdminAnalytics.LabelsPlain | src/components/admin/AdminAnalytics.tsx:179-181 | the header and the two metric names hold no comma or line break |
| AdminAnalytics.SeriesRowsPlain | src/components/admin/AdminAnalytics.tsx:180-181 | rows of plain labels are plain |
| AdminAnalytics.ExportRoundTrip | src/components/admin/AdminAnalytics.tsx:177-182 | when no bucket label holds a comma or a line break, splitting the file gives back the rows |
| AdminAnalytics.CreatedAts | src/components/admin/AdminAnalytics.tsx:96 | the creation times of the registrations, in order |
| AdminAnalytics.Categories | src/components/admin/AdminAnalytics.tsx:151 | the categories of the registrations, in order |
| AdminAnalytics.AnalyticsPage.constructor | src/components/admin/AdminAnalytics.tsx:42-51 | 30 days, loading, every series empty |
| AdminAnalytics.AnalyticsPage.LoadAnalyticsData | src/components/admin/AdminAnalytics.tsx:57-120 | a missing result counts as no rows; each series is the processed data of its rows; the revenue series has its range's length; loading ends |
| AdminSettings.DefaultSections | src/components/admin/AdminSettings.tsx:22-49 | the defaults hold the four sections with their listed values |
| AdminSettings.DefaultIntegrations | src/components/admin/AdminSettings.tsx:43-48 | only the database starts connected |
| AdminSettings.DefaultSecurity | src/components/admin/AdminSettings.tsx:30-36 | sessions of 24 hours, five login attempts, passwords of six characters |
| AdminSettings.UpdateSetting | src/components/admin/AdminSettings.tsx:97-105 | the edited setting reads back the new value |
| AdminSettings.UpdateSettingReads | src/components/admin/AdminSettings.tsx:97-105 | the edited setting reads the new value; every other setting, in any section, reads as before |
| AdminSettings.UpdateSettingSections | src/components/admin/AdminSettings.tsx:97-105 | updating an existing section keeps the sections and their order |
| AdminSettings.ToggleIntegration | src/components/admin/AdminSettings.tsx:429 | the integration reads back the negation of what its indicator showed |
| AdminSettings.ToggleIntegrationFlips | src/components/admin/AdminSettings.tsx:429 | the button stores the negation of what the indicator showed, twice shows the first state, and nothing else moves |
| AdminSettings.ToggleLabel | src/components/admin/AdminSettings.tsx:430-437 | `Disconnect` exactly when the integration shows as connected |
| AdminSettings.LoadedSettings | src/components/admin/AdminSettings.tsx:65-75 | no saved item keeps the current settings, and so does saved text that does not parse |
| AdminSettings.SaveThenLoad | src/components/admin/AdminSettings.tsx:65-91 | what saving writes is what loading reads back, whatever was shown before |
| AdminSettings.TestConnectionAlert | src/components/admin/AdminSettings.tsx:107-126 | `supabase` reports success or the error text after the probe; `email` gets the e-mail placeholder; any other service gets the `would be implemented` alert with its name |
| AdminSettings.ServiceName | src/components/admin/AdminSettings.tsx:421 | a key without `Connected` in it is its own service name |
| AdminSettings.ServiceNameStripsSuffix | src/components/admin/AdminSettings.tsx:421 | a key that is a name without a capital C plus `Connected` gives that name |
| AdminSettings.SupabaseServiceName | src/components/admin/AdminSettings.tsx:421 | the database key gives `supabase` |
| AdminSettings.EmailServiceNameMissesCase | src/components/admin/AdminSettings.tsx:421 | the email key gives `emailService`, which the `email` case never matches, so it gets the generic alert |
| AdminSettings.IntendedServiceNames | src/components/admin/AdminSettings.tsx:107-126 | with the intended names each testable integration reaches its own case |
| AdminSettings.AdminSettingsPage.constructor | src/components/admin/AdminSettings.tsx:22-51 | the defaults, never saved |
| AdminSettings.AdminSettingsPage.LoadSettings | src/components/admin/AdminSettings.tsx:65-75 | the settings become what loading gives |
| AdminSettings.AdminSettingsPage.SaveSettings | src/components/admin/AdminSettings.tsx:77-95 | the settings are stored as JSON, the save time recorded, and the success alert shown; a write the browser refuses is caught: storage and save time unchanged, `Error saving settings` shown |
| AdminSettings.AdminSettingsPage.HandleUpdate | src/components/admin/AdminSettings.tsx:97-105 | one setting changes |
| AdminSettings.AdminSettingsPage.HandleToggle | src/components/admin/AdminSettings.tsx:429 | one integration flips |
| AdminSettings.AdminSettingsPage.HandleTest | src/components/admin/AdminSettings.tsx:107-126 | as written: the database button reaches the Supabase probe, while the e-mail button passes `emailService`, which gets the generic `would be implemented` alert |
| AdminDashboard.CountWithStatus | src/pages/admin/AdminDashboard.tsx:85-86 | a missing result counts 0; otherwise the number of rows carrying exactly that status, at most the number of rows |
| AdminDashboard.CountIsMultiplicity | src/pages/admin/AdminDashboard.tsx:85-86 | the count of rows with a status is how often that status occurs among the rows' statuses |
| AdminDashboard.WindowsDisjoint | src/pages/admin/AdminDashboard.tsx:94-98 | no user is in both the last and the previous 30 days, so the two counts add up to at most the number of users |
| AdminDashboard.UserGrowth | src/pages/admin/AdminDashboard.tsx:100-106 | 0 when nobody joined in the previous window |
| AdminDashboard.UserGrowthAgreesWithHelper | src/pages/admin/AdminDashboard.tsx:100 | with earlier users the figure equals the shared growth helper's; with none but recent ones it shows 0 where the helper shows 100 |
| AdminDashboard.Stats | src/pages/admin/AdminDashboard.tsx:84-109 | total users is the row count, active programs and pending registrations count their statuses, user growth is the growth rate of the last 30 days over the 30 before, and the other two growth figures are the fixed 12.5 and 8.3 |
| AdminDashboard.StatsGrowthZero | src/pages/admin/AdminDashboard.tsx:100 | the overview shows 0 growth whenever nobody joined in the previous window |
| AdminDashboard.ActivityFeed | src/pages/admin/AdminDashboard.tsx:144-160 | every recent registration, then every recent application, each as its activity entry |
| AdminDashboard.ActivityIds | src/pages/admin/AdminDashboard.tsx:146-154 | registration entries have ids starting `reg-`, application entries `app-` |
| AdminDashboard.RecentActivity | src/pages/admin/AdminDashboard.tsx:144-161 | the ten newest entries of the feed (all when there are ten or fewer), newest first: a prefix of the sorted feed; with ten or fewer, exactly the feed |
| AdminDashboard.RecentActivityShape | src/pages/admin/AdminDashboard.tsx:161 | exactly ten entries when the feed has more, else the whole feed; a prefix of the sorted feed, newest first, each from the feed; nothing left out is newer than anything shown |
| AdminDashboard.NoticeFeed | src/pages/admin/AdminDashboard.tsx:188-204 | every pending registration, then every pending application, each as its notification |
| AdminDashboard.Notifications | src/pages/admin/AdminDashboard.tsx:188-205 | newest first, and exactly the entries of the pending feed |
| AdminDashboard.NotificationsShape | src/pages/admin/AdminDashboard.tsx:188-205 | every pending item is kept, newest first; registrations have medium priority and applications high |
| AdminDashboard.AdminDashboardPage.constructor | src/pages/admin/AdminDashboard.tsx:49-59 | zero stats, no activity, no notifications, loading |
| AdminDashboard.AdminDashboardPage.LoadDashboardData | src/pages/admin/AdminDashboard.tsx:66-211 | the stats, the recent activity and the notifications are those of the fetched rows (missing results count as none); loading ends |
| AdminQueries.RequestedWindow | src/lib/adminQueries.ts:35-40 | no truthy limit asks for everything; a limit without a truthy offset asks for the first `limit` rows; with both, an inclusive range of exactly `limit` indices from the offset |
| AdminQueries.Page | src/lib/adminQueries.ts:35-40 | everything is the whole result; the first n is the prefix of length min(n, rows); a range is the slice from its start, as long as the range or as the rows that remain, and empty past the end |
| AdminQueries.PageRows | src/lib/adminQueries.ts:35-40 | no limit returns every row; a limit returns at most that many consecutive rows from the truthy offset, exactly that many when enough remain, and all the rest otherwise |
| AdminQueries.PagesAdjacent | src/lib/adminQueries.ts:35-40 | two requests whose offsets are one limit apart return adjacent pages |
| AdminQueries.FindId | src/lib/adminQueries.ts:219-220 | a found index holds the id; none found means no row holds it |
| AdminQueries.FindFirst | src/lib/adminQueries.ts:219-220 | the row found is the first one holding the id |
| AdminQueries.ReviewApplications | src/lib/adminQueries.ts:214-222 | the rows with the id get the status, review time, reviewing admin and notes; every other row is unchanged |
| AdminQueries.UpdateApplicationStatus | src/lib/adminQueries.ts:208-243 | a returned row is the reviewed application with the new status, reviewer and time; no matching id fails with `Application not found`; enrollments gain nothing, or, only on approval, exactly one row for the application's program and applicant; no table but those two changes |
| AdminQueries.ApplicationUpdateScope | src/lib/adminQueries.ts:208-243 | the review changes only the matching applications, keeping their program, and touches no other table |
| AdminQueries.ApplicationNotFound | src/lib/adminQueries.ts:226-227 | with no matching row the call fails with `Application not found`, creates no enrollment and changes nothing |
| AdminQueries.ApprovalEnrolls | src/lib/adminQueries.ts:229-242 | an approval adds exactly one enrollment with the application's program, applicant and id; a failed enrollment insert is the error and adds none; any other status adds none |
| AdminQueries.ReviewRegistrations | src/lib/adminQueries.ts:277-287 | the rows with the id get the status, review time, reviewing admin and notes; every other row is unchanged |
| AdminQueries.UpdateBusinessRegistrationStatus | src/lib/adminQueries.ts:271-299 | a returned row is the reviewed registration with the new status, reviewer and time; it fails exactly when no registration has the id; only the registrations table changes |
| AdminQueries.RegistrationUpdateScope | src/lib/adminQueries.ts:271-299 | only the matching registrations change, no other table does, approval included; no match gives `Registration not found`; a success is the row with its new status |
| AdminQueries.DeleteUserDataRemovesAll | src/lib/adminQueries.ts:76-101 | when every delete succeeds none of the user's roles, businesses or profile is left, everybody else's rows are kept, and the other tables are untouched |
| AdminQueries.DeleteUserData | src/lib/adminQueries.ts:76-98 | succeeds, with `true`, exactly when no delete fails; then no role, business or profile of the user is left; nothing is added to any table, and applications, enrollments and registrations are untouched |
| AdminQueries.DeleteUserDataOrder | src/lib/adminQueries.ts:79-98 | roles, then businesses, then the profile; the first failure is the error, the later deletes do not run, and the earlier ones stay done |
| AdminQueries.AdminNotifications | src/lib/adminQueries.ts:363-415 | newest first, holding exactly one alert per pending registration and one per pending application |
| AdminQueries.AdminNotificationsAreDashboards | src/lib/adminQueries.ts:363-415 | the list is the dashboard's notification list with every entry unread: every pending item, newest first |
| AdminQueries.UserCsvRow | src/lib/adminQueries.ts:442-452 | nine cells; the roles cell is the roles joined with `, `; the last cell is always `Active` |
| AdminQueries.ExportUsersCsv | src/lib/adminQueries.ts:437-456 | the first line of the export reads back as the nine-column header |
| AdminQueries.TwoRolesShiftColumns | src/lib/adminQueries.ts:449 | a user with roles admin and participant gets a comma inside the roles cell, so when the other cells are plain the line reads back as ten cells, with Joined and Status one column to the right |
| AdminQueries.ProgramCsvRowAsWritten | src/lib/adminQueries.ts:463-472 | eight cells whose two count cells are always 0 |
| AdminQueries.ProgramCountsLost | src/lib/adminQueries.ts:467 | as written, a program with three applications exports 0 |
| AdminQueries.ProgramCsvRow | src/lib/adminQueries.ts:104-136 | eight cells, with the counts the stats query computed |
| AdminQueries.ExportProgramsCsv | src/lib/adminQueries.ts:458-475 | the as-written export, with the count cells of ProgramCsvRowAsWritten; its first line reads back as the eight-column header |
| AdminQueries.ExportProgramsCsvIntended | src/lib/adminQueries.ts:458-475 | the export with the counts `getProgramsWithStats` computed; its first line reads back as the header |
| AdminQueries.ProgramCountsKept | src/lib/adminQueries.ts:128-131 | the corrected count cells read back as the program's counts and hold no comma or line break |
| AdminQueries.ExportWidths | src/lib/adminQueries.ts:437-475 | every line of the user export has nine cells ending in `Active`; every line of the program export as written has eight cells with 0 in both count cells; the intended lines carry the computed counts |
| AdminQueries.Backend.constructor | src/lib/adminQueries.ts:1 | the tables given |
| AdminQueries.Backend.UpdateApplication | src/lib/adminQueries.ts:208-243 | the tables and the result become those the application review gives |
| AdminQueries.Backend.UpdateRegistration | src/lib/adminQueries.ts:271-299 | the tables and the result become those the registration review gives |
| AdminQueries.Backend.DeleteUser | src/lib/adminQueries.ts:76-101 | the three deletes run in turn, each skipped once one has failed, ending in the state and result of the ordered deletion |
| Marketplace.LocationName | src/pages/Marketplace.tsx:22-31 | the display name of the first entry with the id |
| Marketplace.NameIn | src/pages/Marketplace.tsx:22-31 | the name of the first entry with the id; an unknown id stands for itself |
| Marketplace.FilteredProducts | src/pages/Marketplace.tsx:120-126 | the as-written filter; it never lengthens the list (membership in FilteredMember) |
| Marketplace.FilteredProductsIntended | src/pages/Marketplace.tsx:120-126 | the filter with the intended location test; it never lengthens the list (membership in FilteredIntendedMember) |
| Marketplace.FeaturedProducts | src/pages/Marketplace.tsx:128 | never longer than the catalogue (membership in FeaturedMember) |
| Marketplace.FilteredMember | src/pages/Marketplace.tsx:120-126 | as written, a product is shown exactly when it is in the catalogue and passes the search, the category and the location-id test; the list keeps the catalogue's order |
| Marketplace.FilteredMemberAll | src/pages/Marketplace.tsx:120-126 | the same for every product at once |
| Marketplace.FilteredIntendedMember | src/pages/Marketplace.tsx:120-126 | with the location tested by the display name, a product is shown exactly when it passes the three tests; the order is kept |
| Marketplace.NoFilterShowsAll | src/pages/Marketplace.tsx:120-126 | an empty search with both dropdowns on `all` shows the whole catalogue, as written and with the intended location test |
| Marketplace.FeaturedMember | src/pages/Marketplace.tsx:128 | the featured strip holds exactly the featured products, in order |
| Marketplace.FeaturedCatalogue | src/pages/Marketplace.tsx:128 | the strip shows products 1, 3 and 5 |
| Marketplace.MitchellsPlainMissed | src/pages/Marketplace.tsx:124 | as written the `mitchells-plain` choice never matches a product in `Mitchells Plain` |
| Marketplace.MitchellsPlainEmptyAsWritten | src/pages/Marketplace.tsx:124 | as written, choosing Mitchells Plain shows nothing from the catalogue, whatever the search and category |
| Marketplace.LocationHitsItsName | src/pages/Marketplace.tsx:124 | with the intended test every real location shows the products sold there |
| Marketplace.MitchellsPlainFound | src/pages/Marketplace.tsx:124 | with the intended test the Mitchells Plain product is shown under its location |
| Marketplace.MarketplacePage.constructor | src/pages/Marketplace.tsx:5-8 | empty search, all categories, all locations, no add-product dialog |
| Marketplace.MarketplacePage.Shown | src/pages/Marketplace.tsx:120-126 | the page shows exactly the catalogue products that pass the as-written tests for its search, category and location, and nothing when the location is Mitchells Plain |
| Marketplace.MarketplacePage.SetSearchTerm | src/pages/Marketplace.tsx:5 | only the search term changes |
| Marketplace.MarketplacePage.SetSelectedCategory | src/pages/Marketplace.tsx:6 | only the category changes |
| Marketplace.MarketplacePage.SetSelectedLocation | src/pages/Marketplace.tsx:7 | only the location changes |
| Marketplace.MarketplacePage.SetShowAddProduct | src/pages/Marketplace.tsx:8 | only the dialog flag changes |
| PublicApplicationForm.InputChange | src/pages/PublicApplicationForm.tsx:54-56 | the edited field reads the new value |
| PublicApplicationForm.InputChangeScope | src/pages/PublicApplicationForm.tsx:54-56 | the edited field reads the new value, every other field reads as before, and the keys keep their order (a new key goes last) |
| PublicApplicationForm.FileChange | src/pages/PublicApplicationForm.tsx:58-62 | no file leaves the files unchanged; a file is looked up under its field |
| PublicApplicationForm.FileChangeScope | src/pages/PublicApplicationForm.tsx:58-62 | no file leaves the files unchanged; a file is stored under its field, no other field changes, and keys stay unique |
| PublicApplicationForm.Choices | src/pages/PublicApplicationForm.tsx:189-192 | the first choice is the empty `Select <label>`; then every option in order, as its own value |
| PublicApplicationForm.FieldOf | src/pages/PublicApplicationForm.tsx:138 | a field is required exactly when its `required` is truthy, and a text `type` is its kind |
| PublicApplicationForm.FormFields | src/pages/PublicApplicationForm.tsx:279 | the drawn fields are `form_config.fields`, one per descriptor in order; none when that is not an array |
| PublicApplicationForm.RenderField | src/pages/PublicApplicationForm.tsx:137-231 | nothing is drawn exactly for a type outside text, email, tel, textarea, select and file; a control keeps the field's id, label and required flag |
| PublicApplicationForm.RenderFieldDispatch | src/pages/PublicApplicationForm.tsx:137-231 | nothing is rendered exactly for a type outside the six; the control carries the field's id, label and required flag; `text`/`email`/`tel`, `textarea`, `select` and `file` each give their own kind of control, and only they do |
| PublicApplicationForm.SharedTextBranch | src/pages/PublicApplicationForm.tsx:141-159 | `text`, `email` and `tel` render the same input, differing only in its type |
| PublicApplicationForm.EditedFieldShows | src/pages/PublicApplicationForm.tsx:54-56 | after an edit the field's control shows the edited value |
| PublicApplicationForm.ChosenFileShows | src/pages/PublicApplicationForm.tsx:220-221 | after a file is chosen its control shows the file's name |
| PublicApplicationForm.EmptyRequiredFieldBlocks | src/pages/PublicApplicationForm.tsx:149-186 | a required text, email, tel, textarea or select field showing no value keeps the form from submitting |
| PublicApplicationForm.MissingRequiredFileBlocks | src/pages/PublicApplicationForm.tsx:206-210 | a required file field with no file chosen keeps the form from submitting |
| PublicApplicationForm.MalformedEmailBlocks | src/pages/PublicApplicationForm.tsx:149-150 | text in an email field that is not a valid e-mail address keeps the form from submitting, required or not |
| PublicApplicationForm.OptionalFormSubmits | src/pages/PublicApplicationForm.tsx:278 | a form with no required field and no email field always submits |
| PublicApplicationForm.ValidEmailOfParts | src/pages/PublicApplicationForm.tsx:149-150 | an address made of a local part, `@` and dot-joined domain parts passes the email check exactly when the local part is non-empty and every domain part is 1 to 63 letters, digits or hyphens, starting and ending with a letter or digit |
| PublicApplicationForm.DotlessDomainAccepted | src/pages/PublicApplicationForm.tsx:149-150 | the email check accepts `a@b`: the domain needs no dot |
| PublicApplicationForm.HyphenLabelRefused | src/pages/PublicApplicationForm.tsx:149-150 | the email check refuses `a@-b`: a domain part may not start with a hyphen |
| PublicApplicationForm.ContextSignUp | src/pages/PublicApplicationForm.tsx:70-77 | the form's sign-up answer carries the error of the context's `signUp` and the id of the user it created |
| PublicApplicationForm.ShortPasswordStopsSubmission | src/pages/PublicApplicationForm.tsx:70-79 | a typed password under six code units is sent as typed, fails the context's pre-check, and ends the submission after the sign-up call with the short-password message |
| PublicApplicationForm.TempPasswordLongEnough | src/pages/PublicApplicationForm.tsx:72 | without a typed password the temporary one is text of at least six code units |
| PublicApplicationForm.AfterSubmit | src/pages/PublicApplicationForm.tsx:126-131 | the page goes to the login page exactly when the submission went through; a failure stays |
| PublicApplicationForm.SignUpPassword | src/pages/PublicApplicationForm.tsx:72 | a typed password is sent as typed; without one the account gets `temp_` followed by the time |
| PublicApplicationForm.BusinessRow | src/pages/PublicApplicationForm.tsx:87-97 | the row is owned by the new user, and a missing or falsy BEEE level becomes `not_certified` |
| PublicApplicationForm.BusinessRowFields | src/pages/PublicApplicationForm.tsx:87-97 | the row is owned by the new user; typed digits give their number of years and anything else 0; the B-BBEE level defaults to `not_certified` |
| PublicApplicationForm.UploadPathShape | src/pages/PublicApplicationForm.tsx:106 | the path is the user's folder, then `<field>_<time digits>_<file name>` |
| PublicApplicationForm.UploadFoldersSeparate | src/pages/PublicApplicationForm.tsx:106 | two users whose ids differ and hold no `/` never share an upload path |
| PublicApplicationForm.PathOfPrefix | src/pages/PublicApplicationForm.tsx:105-106 | an entry's path does not depend on the entries after it |
| PublicApplicationForm.UploadAll | src/pages/PublicApplicationForm.tsx:105-113 | every call is an upload, at most one per file, and one per file when no upload failed |
| PublicApplicationForm.UploadCalls | src/pages/PublicApplicationForm.tsx:105-113 | the uploads tried are the first entries, in entry order, each at its path; all of them when none failed |
| PublicApplicationForm.UploadsStopAtFirstError | src/pages/PublicApplicationForm.tsx:105-113 | with no failure every file was uploaded; otherwise every upload before the last tried succeeded and the last one is the error |
| PublicApplicationForm.UploadsEnd | src/pages/PublicApplicationForm.tsx:105-113 | when the first k uploads succeed, the loop either completes or ends on the (k+1)th with its error |
| PublicApplicationForm.UploadedFiles | src/pages/PublicApplicationForm.tsx:104-113 | when every upload succeeds the recorded paths are keyed by the file fields, in entry order, each the path storage returned |
| PublicApplicationForm.PutAppends | src/pages/PublicApplicationForm.tsx:112 | recording a path under a new field appends it |
| PublicApplicationForm.ApplicationDataShape | src/pages/PublicApplicationForm.tsx:120-123 | the application data is the form data with `uploaded_files` holding the recorded paths |
| PublicApplicationForm.SignUpFailureStops | src/pages/PublicApplicationForm.tsx:79-82 | a sign-up error, or no user id, ends the submission after the sign-up call alone, with that error |
| PublicApplicationForm.BusinessFailureStops | src/pages/PublicApplicationForm.tsx:85-101 | a failed business insert ends the submission after it, keeping the account and uploading nothing |
| PublicApplicationForm.UploadFailureStops | src/pages/PublicApplicationForm.tsx:105-113 | a failed upload ends the submission right after it: sign-up, business and the earlier uploads stay, nothing later runs, and its error is the outcome |
| PublicApplicationForm.SubmitRun | src/pages/PublicApplicationForm.tsx:64-128 | the first call is always the sign-up; a submitted run had no sign-up, business or submit error, and made the sign-up, the business insert, one upload per file and the application insert last |
| PublicApplicationForm.AllStepsSucceed | src/pages/PublicApplicationForm.tsx:64-128 | when every step succeeds: the sign-up, the business insert, one upload per file in order, then the application with every file field's path; the outcome is success |
| PublicApplicationForm.UploadFiles | src/pages/PublicApplicationForm.tsx:104-113 | the loop makes exactly the calls and records exactly the paths of the upload specification, stopping at the first failure |
| PublicApplicationForm.UploadFailureEnds | src/pages/PublicApplicationForm.tsx:111 | once an upload fails the later entries do not change the result |
| PublicApplicationForm.SubmitApplication | src/pages/PublicApplicationForm.tsx:68-124 | the calls made and the outcome are those of the submission specification |
| PublicApplicationForm.PublicApplicationFormPage.constructor | src/pages/PublicApplicationForm.tsx:13-18 | no program or form, loading, not submitting, empty form data and files |
| PublicApplicationForm.PublicApplicationFormPage.LoadProgramAndForm | src/pages/PublicApplicationForm.tsx:26-52 | the program found is kept and its active form loaded; either lookup failing alerts and goes home; loading ends |
| PublicApplicationForm.PublicApplicationFormPage.HandleInputChange | src/pages/PublicApplicationForm.tsx:54-56 | only the form data changes, by the field edit |
| PublicApplicationForm.PublicApplicationFormPage.HandleFileChange | src/pages/PublicApplicationForm.tsx:58-62 | only the files change, by the file choice |
| PublicApplicationForm.PublicApplicationFormPage.HandleSubmit | src/pages/PublicApplicationForm.tsx:64-135 | when a drawn field fails the browser's checks (a required one empty, an email one malformed) nothing is called, no alert shows and the page stays; otherwise the calls are those of the submission run, the alert and navigation follow its outcome; the form is left as it was |

## Left out

- The backend service (queries, inserts, updates, deletes, file uploads, auth calls) is not code in this repository. Each answer is a parameter, or a table of the `AdminQueries.Backend` object.
- Timeout races, `setTimeout` delays, `AbortController`, the session-fetch ceiling and the realtime subscriptions are asynchronous scheduling. Each awaited step is modelled as taking effect at once and in order.
- `Date.now()`, `new Date()` and the locale date renderings (`toLocaleDateString`, `toLocaleString`, the analytics bucket labels) are parameters or opaque strings.
- The base64-derived development user id is a parameter.
- The `Math.random` amounts of the mock revenue series, `generateReferenceNumber`, `formatCurrency` and `formatFileSize` are floating point, random or locale formatting. The mock series keeps its periods but not its amounts.
- The KPI percentage changes on the analytics screen are floating point display values.
- JSX rendering, styling, alerts as dialogs and navigation are left out. Alerts and navigation targets are returned as strings.
- `WelcomeScreen`, `SplashScreen`, `QuickActions`, `AdminLayout`, `ProgramManagement` and `ProgramDashboard` are left out: they are rendering, or network sequences with sums of the kind the analytics counting already covers.
- `applicationType.queries.ts` and `publicApplicationFormQueries.ts` are thin wrappers over single backend calls.
- `debounce`, `downloadCSV`, the clipboard and the Blob download are timers and DOM. The CSV text itself is modelled.
- The other functions of `adminQueries.ts` are single backend calls with no rule of their own: `updateUserRole`, `updateUserStatus`, `getProgramsWithStats` apart from its counts, `createProgramWithForm`, `updateProgramStatus`, `getProgramApplications`, `getBusinessRegistrationsWithDocuments`, `getAnalyticsData` and `logAdminAction`.
- The unfinished fragment at `src/lib/adminQueries.ts:350-353` does not parse and is not modelled.
- `getUsersWithDetails` searches, sorts and joins inside the database. The model takes the ordered result and models only the paging window.
- `toLowerCase` is modelled on ASCII letters only, with no Unicode case mapping.
- A `File` passed to `JSON.stringify` becomes `{}`, so the wizard's stored documents are empty objects. This is modelled as such.
- Integer-like keys, which JavaScript objects enumerate first, do not occur among the keys the model uses and are not modelled.
- Console logging is left out.
- The `An unexpected error occurred` catch branches of `handleLogin` and `handleSignUp` are left out. The auth context's `signIn` and `signUp` catch their own exceptions, so only failures outside the model reach these branches.
- AdminAnalytics.ProcessTimeSeriesData: does not model the final sort by `new Date(label)`. Parsing a locale label such as `Oct 14` depends on the engine and can give an invalid date, so the series is returned in first-seen order.
- AdminAnalytics.AnalyticsPage.LoadAnalyticsData: the revenue series is stated by its length only, because its amounts are random.
- AdminDashboard.UserGrowth: states only the zero case, because the general figure is floating point rounding.
- AdminHelpers.CalculateGrowthRate: uses exact reals instead of IEEE doubles.
- AdminHelpers.Chunk: requires a positive size. With size 0 the source's loop never ends.
- AdminHelpers.FormatTimeAgo: takes the locale rendering of dates older than 30 days as a parameter. Times are integers of milliseconds, so an unparsable date (`NaN`, rendered `Invalid Date`) is not modelled.
- AdminQueries.UpdateApplicationStatus: does not model an error answered by the update call itself, which the source throws. Only a missing row and a failed enrollment insert are error paths.
- AdminQueries.UpdateBusinessRegistrationStatus: does not model an error answered by the update call itself, which the source throws. Only a missing row is an error path.
- AuthContext.AuthProvider.InitializeAuth: a stored `userRoles` that parses to a truthy value other than an array (an object, a number, a string) restores an empty role list. The source puts that value in context and storage as it is. A falsy value gets the type's default role, as in the source.
- AuthContext.StoredDevType: a `userType` item written with `JSON.stringify` is read as participant, not as its JSON text. The app never writes that key that way.
- AdminAnalytics.ProgramLabel: when the 15th code unit is the first half of a surrogate pair, JavaScript keeps that lone half. A Dafny string cannot hold a lone surrogate, so the model drops it and the label is one code unit shorter.
- JsonValues.Fields: spreading a stored array or string (`{ ...[a, b] }`, `{ ..."ab" }`) copies no properties in the model. JavaScript copies them under the index keys `0`, `1`, … Only tampered storage holds such a draft.
- Confirmation.ProgramApplication: a `null` entry in `selectedPrograms` throws at `program.id`, and the inner catch throws again at `program.name` (src/pages/registration/Confirmation.tsx:52-66), so the outer catch shows the error alert. The model records an insert with a null program id instead. Only tampered storage holds such an entry.
- Lookups in the source's label and colour tables are over own keys only. In JavaScript a prototype key such as `constructor` also reads as truthy (`colorMaps[type]['constructor']`). No status or role the app stores is such a key.
- AdminDashboard.InRecentWindow: the 30- and 60-day windows are fixed multiples of a day in milliseconds. The source's `setDate` moves the calendar date, which is an hour longer or shorter across a daylight-saving change.
- Confirmation.SubmissionData: a stored draft that is `null` is read as an empty draft and gets every default. The source throws at `registrationData.step1` (src/pages/registration/Confirmation.tsx:24) and shows the error alert. Only tampered storage holds such a draft.
- Confirmation.CompleteSubmission: a truthy `step4.selectedPrograms` that is not an array counts as not iterable and ends the submission with the error alert. In JavaScript a non-empty string is iterable, and the loop would insert one application per character. The wizard itself always stores an array there.
- Roles.RolesFromItems: keeps only the stored names that are known roles. The source keeps the parsed array as it is, unknown names included, since the role type has no run-time check.
- AdminQueries.ReviewApplications: updates every row holding the id. `.maybeSingle()` would fail on several matches, but ids are primary keys, so at most one row matches.
- PublicApplicationForm.SubmitApplication: records each backend call by its inputs (the form data, the user id, the path). The payload is stated through `SignUpSent`, `BusinessRow` and `ApplicationSent`.
- PublicApplicationForm.PublicApplicationFormPage.HandleSubmit: models the `submitting` flag only as set for the call and cleared after it, since rendering reads it only to disable the button.
- PublicApplicationForm.UploadFiles: takes the storage service's answer for an upload as a function of its path.
- PublicApplicationForm.SubmitRun: takes the sign-up answer as a parameter. `ContextSignUp` ties it to `AuthContext.SignUp` when the email and the password sent are text. A non-text email makes `signUp` throw at `email.trim()`, and a truthy non-text password skips its length test; neither is tied.
- PublicApplicationForm.FieldOf: an `id`, `type` or `label` that is not text reads as empty text. A non-text `type` draws nothing, as in the source. A non-text `id` or `label` is coerced to text by JavaScript, which the model does not do. Option entries that are not text read as empty too.
- PublicApplicationForm.FormFields: a `form_config.fields` that is not an array makes the render throw. The model draws no fields instead.
- PublicApplicationForm.Submittable: a value counts as filled when it is truthy, which for text is being non-empty. An empty array is truthy but shows as empty text; only typed text reaches the form data. The browser strips surrounding blanks and line breaks from an email input before checking it. The model checks the text as stored, and the browser's own input events already deliver it stripped.
- BusinessInformation.RequiredFilled: checks only that the required fields are non-empty. The years field is a number input with `min="0"` and step 1, so the browser also refuses a negative or fractional entry. The form holds that value as text, and these number checks are not modelled.
- ApplicationType.Program: holds the columns of the source's `Program` type (`src/types/applicationType.types.ts`). A column the `programs` table has beyond these is carried along by `select('*')` in the source but not in the model.

## Findings

| source | as written | input that shows it | evidently intended | confidence | as-written member | corrected member |
|---|---|---|---|---|---|---|
| src/components/admin/AdminSettings.tsx:421 | the Test button passes `key.replace('Connected', '')`, and `testConnection` switches on `supabase` and `email` | the Email Service key `emailServiceConnected` gives `emailService`, which the `email` case never matches, so the generic alert shows | the email integration reaches its own `email` case | high, not executed | AdminSettings.EmailServiceNameMissesCase | AdminSettings.IntendedServiceNames |
| src/lib/adminQueries.ts:467-468 | the program export reads `program_applications?.[0]?.count \|\| 0` and `program_enrollments?.[0]?.count \|\| 0` | a program with three applications: the `!inner(id)` join rows carry only `id`, so the column reads 0 | the export shows the counts `getProgramsWithStats` computed (`applications_count`, `enrollments_count`) | high, not executed | AdminQueries.ProgramCountsLost | AdminQueries.ProgramCountsKept |
| src/pages/Marketplace.tsx:124 | the location test checks that the lower-cased product location contains the lower-cased location id | choosing `mitchells-plain` against the product in `Mitchells Plain`: the hyphen is not a space, so no product is shown | a location matches the products sold under its display name | high, not executed | Marketplace.MitchellsPlainEmptyAsWritten | Marketplace.MitchellsPlainFound |

The pages and exports model the code as written: `Marketplace.FilteredProducts`, `AdminQueries.ExportProgramsCsv` and `AdminSettings.AdminSettingsPage.HandleTest` behave as the rows above describe. The corrected definitions stand beside them, with the intended property proved: `Marketplace.FilteredProductsIntended`, `AdminQueries.ExportProgramsCsvIntended` and `AdminSettings.IntendedServiceName`.
