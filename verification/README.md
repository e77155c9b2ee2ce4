# CareerCrafter client: session, access gate and page logic in Dafny

This project models the browser client of the CareerCrafter job board. It covers:

- the session layer: `login`, `logout`, `hasRole`, and rebuilding the session at startup from the
  four-key local store (`cc_token`, `cc_user`, `cc_jobSeekerId`, `cc_employerId`);
- the route gate and the route table;
- the request interceptor that adds `Authorization: Bearer <token>` (section 2.1 of RFC 6750);
- the pure decisions inside the pages: login redirect-back, password strength and registration,
  job search, application lists and badges, the profile editors, resume handling, the apply chain,
  profile and dashboard dispatch, and the navigation bar.

JavaScript values are modelled explicitly (`Js.Value`), with the language's falsy rules:
`undefined`, `null`, `false`, `0`, `NaN` and `""` are all falsy. `a || b` is `Js.Or`, `===` is
`Js.StrictEq`, `String(v)` is `Js.ToString` and `Number(s)` is `Js.ToNumber`. The store is a map
from key to item. An item is text, or the serialised login payload (`UserJson`). Server calls are
`Http.Request` records (verb, path, body). Their outcomes are inputs to the model, of type
`Http.Reply` (a success with data, or an error). What a handler does at the end — an alert or a
navigation — is an `Http.Effect`. Each page operation is a pure function from its inputs and the
server's replies to the requests it issues, the new page state and the effect.

Some behaviour of the session layer that a reader may not expect:

- At startup the token and the user are read independently. Neither one implies the other (`Auth.Startup`).
- A non-empty `cc_user` text that is not a serialised payload makes `JSON.parse` throw, and startup
  does not recover. The model says `Crashed`; it does not treat the text as absent. The text "null"
  parses to null and reads as no user.
- A login response without a `user` object still passes the first two writes of `login` (`cc_token`,
  and `cc_user` as "undefined" or "null") before `login` throws. The page then alerts "Login failed",
  but the store is already changed (`Auth.LoginCall`, `LoginView.MissingUserStaysOnLogin`).
- A reload does not give back the session `login` built. The user comes back as the raw payload.
  The two id hints go through `String` and then `Number` (`Auth.LoginThenStartup`,
  `Auth.ReloadKeepsRawShape`). A payload without `roles` reloads with no role list at all. That
  still passes exactly the same role checks (`Auth.HasRoleSurvivesReload`).
- The username fallback is `username`, then `name`, then `email`.

## Model

| member | source | states |
|---|---|---|
| Js.Or | src_frontend/context/AuthContext.js:33-35 | `a \|\| b` is truthy iff either side is, and picks the left side exactly when it is truthy |
| Js.NumberRoundTrip | src_frontend/context/AuthContext.js:18-19 | `Number(String(n))` gives back every integer n |
| Js.Lower | src_frontend/pages/JobList.js:22-23 | ASCII lower-casing keeps the length and maps every character to its lower-case form |
| Js.Prefix | src_frontend/pages/JobSeekerDashboard.js:67 | `slice(0, n)` is a prefix of the text, n long when the text is that long, and the whole text when it is not longer than n |
| Storage.GetText | src_frontend/context/AuthContext.js:7-12 | reading a key gives null exactly when it is missing, and its text otherwise |
| Storage.SetValue | src_frontend/context/AuthContext.js:26-29 | writing stores `String(v)` under the key and leaves every other key alone |
| Storage.RemoveKeys | src_frontend/context/AuthContext.js:45-48 | removing keys drops exactly those keys and keeps the rest unchanged |
| Users.RolesOf | src_frontend/pages/Profile.js:8 | `user?.roles \|\| []` contains a tag iff the user holds it; no user or no role list gives nothing |
| Users.Uid | src_frontend/pages/EmployerApplications.js:11 | the user id is `userId` when truthy, else `id`; no user gives undefined |
| Users.ProfileId | src_frontend/pages/EmployerApplications.js:41 | the profile id is the specific id when truthy, else `id`; it is truthy iff either one is |
| Http.MessageOr | src_frontend/pages/Login.js:30 | the alert shows the server's message when truthy, else the fallback text |
| Auth.Normalise | src_frontend/context/AuthContext.js:32-40 | `userId` is userId, else id, else null; `id` is id, else userId, else null; username is username, else name, else email; roles default to empty; hints are kept when truthy, else null; no `name` or `role` |
| Auth.HintText | src_frontend/context/AuthContext.js:28-29 | the stored hint text is empty exactly when the hint is falsy |
| Auth.Login | src_frontend/context/AuthContext.js:25-42 | the session is the token and the normalised user; the store holds the token text, the raw payload and both hint texts; all other keys are unchanged |
| Auth.LoginCall | src_frontend/context/AuthContext.js:25-29 | with a user object `login` completes; without one it writes the token text and "undefined" or "null" under `cc_user`, then throws, leaving the session and the hint keys as they were |
| Auth.Logout | src_frontend/context/AuthContext.js:44-51 | token and user become null, the four session keys are gone, and every other key is kept |
| Auth.AnyHeld | src_frontend/context/AuthContext.js:54 | `roles.some(r => user?.roles?.includes(r))` holds iff some required role is held |
| Auth.HasRole | src_frontend/context/AuthContext.js:53-54 | an empty requirement always passes, even with no user; otherwise it passes iff the user holds one of the required roles |
| Auth.RestoredHint | src_frontend/context/AuthContext.js:11-19 | a missing or empty stored hint reads back as null, and any other text as `Number` of it |
| Auth.Startup | src_frontend/context/AuthContext.js:7-23 | startup crashes iff `cc_user` holds text other than "" and "null"; the token is the stored text or null; there is a user iff a payload is stored |
| Auth.LoginThenStartup | src_frontend/context/AuthContext.js:10-29 | after login and a reload, the token is `String(jwt)` and the user is the raw payload with each hint passed through `String` and `Number` |
| Auth.HintRoundTrip | src_frontend/context/AuthContext.js:18-29 | an absent hint reloads as null and a numeric hint reloads as the same number |
| Auth.TokenRoundTrip | src_frontend/context/AuthContext.js:7-26 | a text token survives a reload unchanged |
| Auth.MissingTokenRevivedByReload | src_frontend/context/AuthContext.js:7-30 | a response without a token leaves the live token falsy, but the reloaded token is the truthy text "undefined" |
| Auth.HasRoleSurvivesReload | src_frontend/context/AuthContext.js:15-54 | the live user and the reloaded user pass exactly the same role checks |
| Auth.ReloadKeepsRawShape | src_frontend/context/AuthContext.js:15-34 | a payload with only `id` gives a live `userId` but no reloaded one |
| Auth.LoginIdempotent | src_frontend/context/AuthContext.js:25-42 | logging in twice with the same token and payload gives the same state as once |
| Auth.LogoutIdempotent | src_frontend/context/AuthContext.js:44-51 | logging out twice equals once, and a reload after logout finds no session |
| Auth.MissingUserThenReload | src_frontend/context/AuthContext.js:7-29 | after a `login` that threw for want of a user, a reload crashes when `user` was missing and gives the token without a user when it was null |
| Auth.NoRolesPassesNoGate | src_frontend/context/AuthContext.js:37-54 | a payload without roles yields a user who fails every non-empty requirement |
| Auth.ExampleLogin | src_frontend/context/AuthContext.js:32-40 | `login("tok123", {id: 7, email: "a@b.com", roles: ["job_seeker"]})` gives userId 7, id 7, username "a@b.com" and null hints |
| Gate.Decide | src_frontend/routes/PrivateRoute.js:4-11 | no token sends the user to /login carrying the current location; rendering needs a token |
| Gate.RenderExactly | src_frontend/routes/PrivateRoute.js:8-11 | the gate renders iff there is a token and the list is empty or a listed role is held; with a token it otherwise goes to / with no state |
| Gate.TokenWithoutUser | src_frontend/routes/PrivateRoute.js:5-9 | a token with no user passes an unrestricted gate and goes to / at any role gate |
| Gate.DefaultAdmitsTokenHolders | src_frontend/routes/PrivateRoute.js:4 | the default empty role list admits every token holder |
| Routes.Lookup | src_frontend/App.js:25-49 | a path falls to the wildcard iff it is none of the declared paths and not `/jobs/:id` |
| Routes.Navigate | src_frontend/App.js:24-49 | an undeclared path goes to / with no state; any redirect that carries state goes to /login with the requested location |
| Routes.RouteTable | src_frontend/App.js:25-47 | each declared path has exactly one requirement: public (five paths), `["employer"]` (five) or `["job_seeker"]` (five) |
| Routes.DeclaredPathsAreNotDetail | src_frontend/App.js:25-47 | no literal declared path is also matched by `/jobs/:id` |
| Routes.PublicPathsOpen | src_frontend/App.js:25-29 | `/`, `/jobs`, `/jobs/:id`, `/login` and `/register` show their page to every session |
| Routes.RestrictedNeedsToken | src_frontend/App.js:32-47 | without a token, every gated path goes to /login carrying the location |
| Routes.EmployerPathsGated | src_frontend/App.js:32-38 | with a token, an employer path shows its page iff the user holds "employer", else goes to / |
| Routes.JobSeekerPathsGated | src_frontend/App.js:41-47 | with a token, a job-seeker path shows its page iff the user holds "job_seeker", else goes to / |
| LoginView.Destination | src_frontend/pages/Login.js:27 | after login the destination is `from.pathname` when present, else / |
| LoginView.Submit | src_frontend/pages/Login.js:21-31 | the login posts email and password; a success with a user object logs in with the response's token and user and then navigates; a success without one leaves the partial writes of `login` and alerts "Login failed"; failure changes nothing and alerts the message |
| LoginView.BounceAndReturn | src_frontend/pages/Login.js:24-28 | a user without a token, bounced from a gated path P to /login, is sent back to P after logging in |
| LoginView.ReturnRenders | src_frontend/pages/Login.js:24-28 | back on P, the page shows when the new token is truthy and the user holds a role P requires |
| LoginView.FailureChangesNothing | src_frontend/pages/Login.js:29-31 | a failed login keeps the state and navigates nowhere |
| LoginView.MissingUserStaysOnLogin | src_frontend/pages/Login.js:24-31 | a success reply without `user` alerts "Login failed" and keeps the session, but the token is stored and the next reload crashes |
| LoginView.RegisteredCredentialsLogIn | src_frontend/pages/Login.js:8-24 | the email and password a valid registration sends pass the login form and are exactly what the login posts |
| ApiClient.Decorate | src_frontend/api/axiosClient.js:7-11 | with a truthy stored token, the header is set to the bearer text; without one the configuration is returned unchanged; all other fields and headers are kept |
| ApiClient.Deliver | src_frontend/api/axiosClient.js:13-16 | responses and errors pass through unchanged, with no retry |
| ApiClient.BearerHeaderRoundTrip | src_frontend/api/axiosClient.js:9 | the header splits back into "Bearer " and exactly the stored token |
| ApiClient.SessionDrivesHeader | src_frontend/api/axiosClient.js:8-9 | after a login every request carries that token; after logout no request is changed |
| ApiClient.MissingTokenSentAsUndefined | src_frontend/api/axiosClient.js:8-9 | after a login response without a token, requests carry "Bearer undefined" |
| Register.Score | src_frontend/pages/Register.js:24-29 | the score counts the five criteria met, so it lies in 0..5 |
| Register.Strength | src_frontend/pages/Register.js:22-31 | an absent or empty password shows the dash; any other shows one of Weak/Fair/OK/Good/Strong |
| Register.NonEmptyScoresAtLeastOne | src_frontend/pages/Register.js:23-30 | a non-empty password meets at least one criterion, so the label index `max(0, s-1)` is `s-1` |
| Register.StrengthMonotone | src_frontend/pages/Register.js:24-30 | meeting more criteria never gives a weaker label |
| Register.StrengthExtremes | src_frontend/pages/Register.js:24-30 | all five criteria give "Strong" and exactly one gives "Weak" |
| Register.Submit | src_frontend/pages/Register.js:33-46 | the body has exactly name, email, password and role (no confirm), each the form's own value, with an allowed role and a password of at least 8; success, and only success, navigates to /login |
| JobList.Keep | src_frontend/pages/JobList.js:21-24 | the filter keeps, in order and with their multiplicities, exactly the jobs that match |
| JobList.Filtered | src_frontend/pages/JobList.js:20-25 | an empty query shows all jobs in order; otherwise an order-preserving subsequence of exactly the matching jobs |
| JobList.EmptyQueryMatchesAll | src_frontend/pages/JobList.js:20-25 | the empty query would match every job anyway |
| JobList.QueryCaseIgnored | src_frontend/pages/JobList.js:22-23 | the query's case does not change the result |
| JobList.FieldCaseIgnored | src_frontend/pages/JobList.js:22-23 | the case of the title and location does not change whether a job matches |
| JobList.NoLocationTitleOnly | src_frontend/pages/JobList.js:23 | a job with no location matches only through its title |
| EmployerApplications.Load | src_frontend/pages/EmployerApplications.js:33-56 | no user id means no request; otherwise the profile lookup by user, then the list by `employerId \|\| id`; at most these two requests, and the employer id stays null unless the lookup succeeded; after both requests an array response is the list; an error or a non-array response leaves it empty |
| EmployerApplications.LoadThenDecide | src_frontend/pages/EmployerApplications.js:40-66 | after a successful load, a successful update of a loaded application sets that entry's status and leaves entries with other ids as loaded |
| EmployerApplications.WithStatus | src_frontend/pages/EmployerApplications.js:62-66 | length and order are kept; entries with the matching id get the new status; every other entry and every other field is unchanged |
| EmployerApplications.UpdateStatus | src_frontend/pages/EmployerApplications.js:58-72 | the update PUTs the status; only success changes the list, with the lower-cased status in the alert; failure keeps the list |
| EmployerApplications.WithStatusIdempotent | src_frontend/pages/EmployerApplications.js:62-66 | applying the same update twice equals once |
| EmployerApplications.WithStatusAbsentId | src_frontend/pages/EmployerApplications.js:63-65 | an id no entry carries leaves the list unchanged |
| EmployerApplications.StatusBadge | src_frontend/pages/EmployerApplications.js:100-106 | warning iff the lower-cased status is "pending", success iff "approved", danger otherwise |
| EmployerApplications.Actions | src_frontend/pages/EmployerApplications.js:113-128 | Approve and Reject, sending "APPROVED" and "REJECTED", are offered iff the lower-cased status is "pending" |
| EmployerApplications.StatusBadgeIgnoresCase | src_frontend/pages/EmployerApplications.js:101-105 | the badge of a status equals the badge of its lower-cased form |
| EmployerApplications.DecisionIsFinal | src_frontend/pages/EmployerApplications.js:113-123 | after approving or rejecting, the entry offers no actions and is no longer shown as pending |
| EmployerApplications.ViewResume | src_frontend/pages/EmployerApplications.js:14-30 | an empty path gives an alert and no request; otherwise one download request, and a failure alerts |
| Applications.ToRow | src_frontend/pages/Applications.js:16-21 | the id and date are copied; the title is the listing's title, else "N/A"; the status is the response's, else "Applied" |
| Applications.ToRows | src_frontend/pages/Applications.js:16-22 | the mapped list has the same length and order, and each row is the row of the record at the same position: ids and dates copied, title or "N/A", status or "Applied" |
| Applications.FetchRequest | src_frontend/pages/Applications.js:11-15 | as written: the list is fetched iff `user.userId` is truthy |
| Applications.FetchRequestFixed | src_frontend/pages/Applications.js:11-15 | corrected: the list is fetched iff `userId \|\| id` is truthy, by that id |
| Applications.ReloadedIdOnlyUserNeverFetches | src_frontend/pages/Applications.js:10-15 | for a payload with only `id`, the live session fetches but the reloaded one does not; the corrected guard fetches the same request after the reload |
| Applications.FixedAgreesWhenUserIdSet | src_frontend/pages/Applications.js:11-15 | the corrected guard changes nothing when `userId` is set |
| Applications.Load | src_frontend/pages/Applications.js:10-34 | as written: without a truthy `userId` there is no fetch and the page stays loading with no rows; otherwise one fetch, loading ends, and the rows are the mapped array response |
| Applications.LoadFixed | src_frontend/pages/Applications.js:10-31 | with the corrected guard: no user id means no fetch and the page stays loading; otherwise one fetch by `userId \|\| id`, loading ends, and the rows are the mapped array response |
| Applications.ReloadedIdOnlyUserStaysLoading | src_frontend/pages/Applications.js:10-34 | after a reload with an id-only payload the page as written makes no request and stays on "Loading applications...", while the corrected page fetches by the id and stops loading |
| Applications.LoadFixedAgreesWhenUserIdSet | src_frontend/pages/Applications.js:10-31 | the corrected page behaves exactly like the page as written whenever `userId` is set |
| Applications.RowBadge | src_frontend/pages/Applications.js:46-49 | as written: warning iff the status is exactly "pending", success iff exactly "approved", secondary otherwise |
| Applications.EmployerDecisionShownNeutral | src_frontend/pages/Applications.js:46-49 | the "APPROVED" the employer writes is a success badge for the employer but a neutral badge for the job seeker |
| Applications.RowBadgeFixed | src_frontend/pages/Applications.js:46-49 | corrected: warning iff the lower-cased status is "pending", success iff "approved" |
| Applications.FixedBadgeAgreesWithEmployer | src_frontend/pages/Applications.js:46-49 | the corrected badge marks pending and approved exactly when the employer's badge does |
| Forms.WithUserId | src_frontend/pages/JobSeekerProfile.js:81 | the payload is the form values plus `userId`, which overrides any form field of that name |
| JobSeekerProfile.MatchPhone | src_frontend/pages/JobSeekerProfile.js:16-19 | the scan accepts iff the text is an optional single "+" followed by 7 to 15 ASCII digits and nothing else |
| JobSeekerProfile.PhoneExamples | src_frontend/pages/JobSeekerProfile.js:19 | "+14155550123" and "0123456" pass; six digits, a double "+" and sixteen digits fail |
| JobSeekerProfile.BeforeT | src_frontend/pages/JobSeekerProfile.js:65 | `split("T")[0]` is a prefix with no "T", followed in the input by a "T" unless it is the whole input |
| JobSeekerProfile.BeforeFirstT | src_frontend/pages/JobSeekerProfile.js:65 | the result is the input up to its first "T", or all of it when there is none |
| JobSeekerProfile.IsoDateKept | src_frontend/pages/JobSeekerProfile.js:65 | "1990-05-01T00:00:00Z" loads as "1990-05-01" |
| JobSeekerProfile.LoadedDate | src_frontend/pages/JobSeekerProfile.js:65 | an absent date loads as ""; a text date as its part before "T"; a truthy non-text value makes the load fail |
| JobSeekerProfile.FormOf | src_frontend/pages/JobSeekerProfile.js:62-72 | the reset form has exactly the nine profile fields: the date as loaded, full name, education, experience and skills as they come, and gender, email, phone and address defaulting to "" |
| JobSeekerProfile.Load | src_frontend/pages/JobSeekerProfile.js:53-78 | no user id means no request; success sets the id to `jobSeekerId \|\| id` and resets the form; failure is ignored |
| JobSeekerProfile.Submit | src_frontend/pages/JobSeekerProfile.js:80-97 | with an id, a PUT to the update path; otherwise a POST to create; the payload is the values plus userId; only a successful create learns the id |
| JobSeekerProfile.LoadThenSaveUpdates | src_frontend/pages/JobSeekerProfile.js:58-97 | a loaded profile saves as an update of the loaded id, sending back the loaded fields with the date as loaded into the form (cut at T), plus the user id |
| JobSeekerProfile.CreateThenUpdate | src_frontend/pages/JobSeekerProfile.js:82-89 | a successful create with an id turns the next save into an update of that id |
| EmployerProfile.Load | src_frontend/pages/EmployerProfile.js:31-50 | no user id means no request; success sets the id to `employerId \|\| id` and resets the three company fields; failure is ignored |
| EmployerProfile.Submit | src_frontend/pages/EmployerProfile.js:52-73 | with an id, a PUT to the update path; otherwise a POST to create; the payload is the values plus userId; only a successful create learns the id; each path has its own messages |
| EmployerProfile.CreateThenUpdate | src_frontend/pages/EmployerProfile.js:55-67 | a successful create with an id turns the next save into an update of that id |
| EmployerProfile.FailedCreateRetriesCreate | src_frontend/pages/EmployerProfile.js:62-71 | after a failed create the next save creates again |
| EmployerProfile.LoadThenSaveUpdates | src_frontend/pages/EmployerProfile.js:36-57 | a loaded profile saves as an update of the loaded id with the loaded fields and the user id |
| ResumeUpload.FileName | src_frontend/pages/ResumeUpload.js:75 | the name is the longest suffix of the path with no "/" or "\", preceded by a separator unless it is the whole path |
| ResumeUpload.WholePathWithoutSeparator | src_frontend/pages/ResumeUpload.js:75 | a path with no separator is its own name |
| ResumeUpload.NameAfterDirectory | src_frontend/pages/ResumeUpload.js:75 | any directory text, then a separator, then a separator-free name, gives back that name |
| ResumeUpload.FileNameIdempotent | src_frontend/pages/ResumeUpload.js:75 | taking the name of a name changes nothing |
| ResumeUpload.AfterLookupError | src_frontend/pages/ResumeUpload.js:26-31 | a 404 makes the resume absent; any other error leaves it unchanged |
| ResumeUpload.Load | src_frontend/pages/ResumeUpload.js:14-34 | no user id means no request; the resume lookup uses `jobSeekerId \|\| id` from the profile response; at most these two requests, and a failed profile lookup leaves the page as it was except that a 404 clears the resume |
| ResumeUpload.LoadThenUpload | src_frontend/pages/ResumeUpload.js:14-55 | after a successful profile lookup a selected file is posted under the found profile id; after a failed lookup on a page without an id the upload reports the missing id |
| ResumeUpload.Upload | src_frontend/pages/ResumeUpload.js:40-59 | no file, then no profile id, each stops with its own alert and no request; success shows the returned resume and clears the selection; failure keeps the page and alerts the error body, "[object Object]" for an object body |
| ResumeUpload.FileCheckFirst | src_frontend/pages/ResumeUpload.js:42-43 | with neither a file nor a profile id, the file message is the one shown |
| ResumeUpload.DownloadResume | src_frontend/pages/ResumeUpload.js:61-88 | without a path, nothing happens; otherwise one request, and the saved name is the path's file name; a failure or a non-text path alerts |
| ResumeUpload.DeleteResume | src_frontend/pages/ResumeUpload.js:90-99 | without an id, nothing happens; otherwise a DELETE, and success makes the resume absent |
| ResumeUpload.UploadThenDelete | src_frontend/pages/ResumeUpload.js:49-99 | deleting a just-uploaded resume deletes it by its id, and a second delete does nothing |
| ResumeUpload.DownloadNameOfStoredFile | src_frontend/pages/ResumeUpload.js:61-76 | a resume stored as `dir/name` downloads under `name` |
| ResumeUpload.SameDownloadBothSides | src_frontend/pages/ResumeUpload.js:65-68 | the job seeker's download and the employer's view request the same file |
| JobSeekerDashboard.LookupProfile | src_frontend/pages/JobSeekerDashboard.js:24-43 | no user means no request; the lookup is by `userId \|\| id`; failure leaves the id null |
| JobSeekerDashboard.FailureText | src_frontend/pages/JobSeekerDashboard.js:73-78 | a 404 asks for a resume; other errors show the server's message, else the default |
| JobSeekerDashboard.Apply | src_frontend/pages/JobSeekerDashboard.js:46-80 | no profile id means no request; no resume path means no post and nothing beyond the resume lookup; the post carries the ids, "pending", the date part of the timestamp and the resume path |
| JobSeekerDashboard.StopsAtFirstGuard | src_frontend/pages/JobSeekerDashboard.js:46-60 | once a guard stops the chain, the later replies make no difference |
| JobSeekerDashboard.LookupThenApply | src_frontend/pages/JobSeekerDashboard.js:20-60 | after a failed profile lookup applying only asks to complete the profile; after a successful one the resume is looked up by the found profile id |
| JobSeekerDashboard.PostedApplicationIsPending | src_frontend/pages/JobSeekerDashboard.js:63-69 | a posted application is dated by its first ten characters, and both application pages show it as pending; the employer can decide it |
| Profile.ChooseEditor | src_frontend/pages/Profile.js:6-17 | job_seeker gives the job-seeker editor even when employer is also held; employer alone gives the employer editor; neither gives the login message |
| Profile.ProfilePathGivesJobSeekerEditor | src_frontend/pages/Profile.js:10-12 | whoever the gate lets onto /profile gets the job-seeker editor |
| Profile.EmployerProfilePath | src_frontend/pages/Profile.js:10-15 | an employer with a token reaches /employer/profile, and gets the employer editor iff it does not also hold job_seeker |
| Profile.NoUserNoEditor | src_frontend/pages/Profile.js:8-16 | without a user neither profile path shows the page, and the dispatch gives the login message |
| Dashboard.Choose | src_frontend/pages/Dashboard.js:5-17 | no user gives the login prompt; `role === "employer"` or `"job_seeker"` selects that dashboard; anything else is unknown |
| Dashboard.LoggedInUserIsUnknown | src_frontend/pages/Dashboard.js:10-15 | right after login the user has roles but no `role`, so the page says "Unknown role" |
| Dashboard.ReloadRevealsPayloadRole | src_frontend/pages/Dashboard.js:10-11 | a payload with `role: "employer"` is unknown right after login but selects the employer dashboard after a reload |
| AppNavbar.Navbar | src_frontend/components/AppNavbar.js:21-87 | each group is shown iff that role is held; there is a greeting `name \|\| username` iff there is a user, and Login and Register otherwise |
| AppNavbar.LinksPassTheGate | src_frontend/components/AppNavbar.js:10-54 | with a token, every link the bar shows opens its page |
| AppNavbar.LogoutShowsGuestBar | src_frontend/components/AppNavbar.js:58-87 | after logout the bar shows only Jobs, Login and Register |
| AppNavbar.GreetingBeforeAndAfterReload | src_frontend/components/AppNavbar.js:62 | with both a name and a username in the payload, the greeting is the username after login and the name after a reload |

## Left out

- Rendering, CSS classes other than the badges, and React hooks, effects and re-render timing are not modelled. Loading flags appear only where they decide behaviour.
- The HTTP transport is not modelled: base URL, headers other than Authorization, multipart encoding and network timing. Replies are inputs to the model.
- `JSON.stringify` and `JSON.parse` are not modelled. A stored payload is kept as a value; of the other `cc_user` texts, "" and "null" read as no user and every other one counts as unparseable.
- `Number(text)` is modelled for optional-sign decimal integers and the empty text. Any other text gives NaN. Decimals, exponents, hexadecimal and surrounding blanks are not modelled, because the hints written by `login` are ids.
- `String(v)` of a non-integer number is not modelled. Numbers are integers here.
- Router details are not modelled: case-insensitive matching, trailing slashes and `replace` history entries. Paths match exactly.
- The form library's email check and the "date of birth not in the future" check are not modelled. Both are function parameters. The date library's parsing of the date field is not modelled either.
- Blob, object-URL, `window.open` and anchor-click download mechanics are not modelled, and neither is `encodeURIComponent`. The download is a request with the path as a parameter.
- Stale in-flight requests completing after logout, and other async interleavings, are not modelled. Cross-tab storage sharing is not modelled either.
- A selected file is represented by its name; file contents are not modelled.
- The job seeker dashboard's job list fetch and its rendering are not modelled. They are plain fetch-and-display with no decision.
- A success response whose body is not an object is not modelled. Such a body would make `data.jobSeekerId` throw inside the profile editors' success handlers.
- Unicode case mapping is not modelled; lower-casing is ASCII only.
- JobList.Keep: a listing's title is assumed to be text. A listing without a title makes `j.title.toLowerCase()` throw while the list renders; that failure is not modelled.
- EmployerApplications.StatusBadge: an application's status is assumed to be text. An application without a status makes `application.status.toLowerCase()` throw while the list renders; that failure is not modelled, and the same holds for EmployerApplications.Actions.
- JobSeekerProfile.LoadThenSaveUpdates: the form resolver hands the submit handler the values the schema has cast, and `dateOfBirth` is a date field, so the program sends a date object (serialised as a full timestamp), not the loaded text. The lemma states the value held in the form; the cast is not modelled. JobSeekerProfile.Submit takes its `values` as the submit handler receives them. The other profile fields are plain text and are sent unchanged.
- Register.Criteria, Register.SchemaValid, LoginView.FormValid, JobSeekerProfile.SchemaValid, EmployerProfile.SchemaValid and Js.Prefix: lengths count Unicode scalar values, while JavaScript's `length` and `slice` count UTF-16 code units. Text outside the Basic Multilingual Plane differs: "😀😀😀😀" is 4 long here and 8 long in JavaScript.
- A login response whose `user` is neither an object, `undefined` nor `null` (a number or a text) is not modelled.
- The pages for job details, recommendations, the employer dashboard, posting and managing jobs, and the home page are not part of this model. They hold form and fetch wiring and static markup.
- ApiClient.Deliver: the response interceptor is the identity, so its contract can only say that the reply is returned unchanged.

## Findings

| source | as written | input that shows it | evidently intended | confidence | as-written member | corrected member |
|---|---|---|---|---|---|---|
| src_frontend/pages/Applications.js:11 | the fetch is guarded by `user?.userId` alone | a login payload `{id: 7, roles: ["job_seeker"]}`, then a page reload: the reloaded user is the raw payload, which has no `userId`, so the page never fetches and stays on "Loading applications..." | guard and fetch by `user?.userId \|\| user?.id`, as every other page does | medium, not executed | Applications.Load with Applications.ReloadedIdOnlyUserStaysLoading | Applications.LoadFixed with Applications.LoadFixedAgreesWhenUserIdSet |
| src_frontend/pages/Applications.js:46-48 | the job seeker's badge compares the status case-sensitively with "pending" and "approved" | the employer approves, which stores "APPROVED"; the employer page shows a success badge, the job seeker's page a neutral one | compare the lower-cased status, as the employer page does | medium, not executed | Applications.RowBadge with Applications.EmployerDecisionShownNeutral | Applications.RowBadgeFixed with Applications.FixedBadgeAgreesWithEmployer |
