# Job-board client: state rules of the pages, in Dafny

This project models the client side of a small job board, a Next.js
application. Candidates browse jobs, apply with a cover letter and a resume,
and manage their applications and profile. Employers post jobs, review and
decide on applicants, and keep a company profile. The model covers the
rules by which each page changes its own state:

- which user the session resolves to, and which navigation controls follow;
- how the search box and the page URL stay in step;
- how list pages load, and how they change after a status update or a delete;
- how forms validate their drafts and build their request bodies;
- the create-or-update decision for profiles;
- the chain of requests a candidate profile submits;
- the login redirect table.

Network answers, the stored token and user events are inputs. Each page
with state is a `class`; its fields are the page's state variables, and its
methods are the page's handlers and effects. Every request a handler sends is
appended to a `requests` field, alerts go to `alerts`, and navigation is a
recorded target. The pure decisions behind the handlers are functions, and
lemmas about those functions give the properties the pages rely on.

Shared modules:

- `Common` holds the outcome of a `fetch` (`Answered(ok, body)` or `Threw`), the token and its two header forms, files, and the PUT/POST choice.
- `Text` holds JavaScript's `trim`.
- `Collection` holds filter-by-id.
- `Multipart` holds the `FormData` parts, including a loop that appends one part per value.
- `SearchBinder` holds the search/URL decisions.
- `Browser` holds `localStorage` and `window.location`.

Behaviour is modelled as the code has it, including behaviour that looks
unintended:

- A failed login returns with `loading` still set.
- A rejected job fetch leaves the job list loading.
- The candidate page never clears an image error.
- An employer whose profile check answers 404 is sent to the dashboard, and one whose check answers 200 to the create page.

## Model

| member | source | states |
|---|---|---|
| Common.AuthHeader | components/JobApplicationForm.tsx:41-47 | the Authorization header is present exactly when a non-empty token is stored, and is then "Bearer " + token |
| Common.BearerOf | app/applications/page.tsx:49 | the template header renders the token, or the text "null" when none is stored |
| Common.FirstFile | components/JobApplicationForm.tsx:52-60 | a file input yields its first file when any was chosen, and nothing otherwise |
| Common.ProfileVerb | app/profile/candidate/create/page.tsx:118 | a profile is PUT exactly when it exists and POSTed otherwise |
| Text.Trim | app/jobs/page.tsx:67 | `trim` gives the empty string exactly for all-whitespace input, and otherwise a result that neither starts nor ends with whitespace |
| Text.TrimIsSlice | app/profile/candidate/create/page.tsx:90 | the trimmed value is one contiguous slice of the input with only whitespace before and after it; with the boundary clauses of `Trim` this fixes the value |
| Text.TrimEmptyIffBlank | app/profile/candidate/create/page.tsx:89 | the range `trim` keeps is empty exactly when every character is whitespace, which is what the `!s.trim()` test asks |
| Text.TrimIdempotent | app/profile/candidate/create/page.tsx:90 | trimming twice is trimming once |
| Text.StartsWith | components/Navbar.tsx:11 | `startsWith` holds exactly when the first characters of the string are the prefix |
| Collection.Without | app/applications/page.tsx:86-88 | the filter keeps exactly the elements whose id differs, and never adds one |
| Collection.WithoutAppend | app/employer/applicants/page.tsx:149-151 | the filter distributes over concatenation, so it keeps list order |
| Collection.WithoutAbsent | app/employer/applicants/page.tsx:149-151 | filtering an id that is not in the list leaves the list unchanged |
| Collection.WithoutIdempotent | app/applications/page.tsx:86-88 | deleting the same id twice is deleting it once |
| Collection.WithoutDropsMatch | app/profile/candidate/create/page.tsx:94-96 | removing a value from the middle of a list joins the filtered parts on either side |
| SearchBinder.QueryFor | app/jobs/page.tsx:64-74 | an edit clears the URL query exactly when the value is blank, and otherwise writes the raw, untrimmed value |
| SearchBinder.SearchFromUrl | app/jobs/page.tsx:24 | a missing search parameter reads back as "" |
| SearchBinder.RequestSearch | app/jobs/page.tsx:46-48 | the list request carries `search` exactly when the URL value is non-empty |
| SearchBinder.Resync | app/jobs/page.tsx:29-31 | a changed URL value overwrites the box, and an unchanged one keeps it |
| SearchBinder.EditSettles | app/employer/applicants/page.tsx:46-60 | after an edit reaches the URL, the box keeps the text unless it was blank and the URL had held a search |
| SearchBinder.EditDrivesRequest | app/jobs/page.tsx:33-74 | an edit leads to a request with `search` exactly when the edit was not blank, and then carries it verbatim |
| Multipart.AppendAll | app/profile/candidate/create/page.tsx:114 | the `forEach` loop leaves the earlier parts followed by one text part per value, in order |
| Multipart.TextsNamedConcat | components/UpdateProfileForm.tsx:133-140 | reading parts back by name distributes over concatenation |
| Multipart.TextsNamedOfTextParts | components/UpdateProfileForm.tsx:138 | values appended under a name read back as exactly those values, in order |
| Multipart.TextsNamedOfOthers | app/profile/candidate/create/page.tsx:110-113 | parts under another name do not read back under this one |
| Multipart.TextsNamedOfFile | app/profile/candidate/create/page.tsx:115-116 | file parts never read back as text values |
| Multipart.TextsNamedNone | app/profile/employer/create/page.tsx:67-75 | a form with no text value under a name reads back nothing under it |
| Multipart.TextsNamedUnique | app/profile/employer/create/page.tsx:67-72 | a name appended exactly once reads back exactly that one value |
| Browser.Window.SetItem | app/login/page.tsx:44-45 | `setItem` updates that key only and does not navigate |
| Browser.Window.RemoveItem | components/Navbar.tsx:14 | `removeItem` removes that key only |
| Browser.Window.Navigate | components/Navbar.tsx:15 | assigning `href` sets the location and leaves storage alone |
| Browser.Window.constructor | app/context/UserContext.tsx:25 | a window starts with the given storage and no navigation |
| UserContext.ResolvedUser | app/context/UserContext.tsx:27-45 | a user exists exactly when a token is stored and the role request answered ok, and it is the decoded body |
| UserContext.UserProvider.constructor | app/context/UserContext.tsx:14-21 | before the effect: no user, loading, no request |
| UserContext.UserProvider.FetchUserRole | app/context/UserContext.tsx:23-52 | the effect runs once, sends the role request only with a token, settles on `ResolvedUser`, and always ends loading |
| Navbar.Controls | components/Navbar.tsx:38-125 | visitor, candidate and employer each get exactly their group of controls, and an unknown role gets none |
| Navbar.ControlsGated | components/Navbar.tsx:61-125 | a candidate never sees employer controls, an employer never sees candidate ones, and a visitor sees neither and no Logout |
| Navbar.LoadingShowsAnonymous | components/Navbar.tsx:9 | while the session is resolving, the bar shows the visitor's controls |
| Navbar.IsEmployerDashboard | components/Navbar.tsx:11 | the dashboard test is a prefix test on "/employer" |
| Navbar.EmployerDashboardIsPrefixTest | components/Navbar.tsx:11 | "/employers" counts as a dashboard path and "/profile/employer" does not |
| Navbar.LogOut | components/Navbar.tsx:13-16 | logging out removes only the token and navigates to /login |
| EmployerApplicants.LoadedApplications | app/employer/applicants/page.tsx:63-94 | a load settles on the body for an ok array answer, and on the empty list for anything else |
| EmployerApplicants.SetStatus | app/employer/applicants/page.tsx:117-121 | the map rewrites the status of exactly the entries with that id, keeping length and order |
| EmployerApplicants.SetStatusKeepsShape | app/employer/applicants/page.tsx:32-121 | ids are kept, and every status afterwards is the old one or the decision, never another |
| EmployerApplicants.SetStatusLastWins | app/employer/applicants/page.tsx:117-121 | of two updates to one id, the later wins |
| EmployerApplicants.SetStatusAbsent | app/employer/applicants/page.tsx:117-121 | updating an id that is not listed changes nothing |
| EmployerApplicants.DeleteAfterUpdate | app/employer/applicants/page.tsx:117-151 | deleting after an update gives the same list as deleting straight away |
| EmployerApplicants.ApplicantsPage.constructor | app/employer/applicants/page.tsx:38-43 | the page starts loading, with the URL's search value in the box, and sends the list request |
| EmployerApplicants.ApplicantsPage.HandleSearchChange | app/employer/applicants/page.tsx:46-56 | the box takes the raw value and the URL gets `QueryFor(value)`; nothing else changes |
| EmployerApplicants.ApplicantsPage.UrlChanged | app/employer/applicants/page.tsx:58-94 | a changed URL value resets the box and starts a new list request with loading set; an unchanged one does nothing |
| EmployerApplicants.ApplicantsPage.SettleLoad | app/employer/applicants/page.tsx:63-94 | the list becomes `LoadedApplications(response)` and loading ends in every outcome |
| EmployerApplicants.ApplicantsPage.UpdateApplicationStatus | app/employer/applicants/page.tsx:97-129 | without a token nothing is sent; with one the list changes, by `SetStatus`, only after an ok answer |
| EmployerApplicants.ApplicantsPage.HandleDeleteApplication | app/employer/applicants/page.tsx:132-155 | without a token nothing is sent; with one the entries with that id are dropped only after an ok answer |
| CandidateApplications.ViewOf | app/applications/page.tsx:92-115 | the skeleton shows exactly while loading, the empty state exactly for a loaded empty list, and otherwise the list itself |
| CandidateApplications.AfterDelete | app/applications/page.tsx:68-90 | an ok withdrawal removes exactly the entries with that id, and anything else keeps the list |
| CandidateApplications.WithdrawnNeverListed | app/applications/page.tsx:86-115 | a withdrawn id is never rendered again, and an emptied list shows the empty state |
| CandidateApplications.ApplicationsPage.constructor | app/applications/page.tsx:33-66 | the page starts loading and sends the list request |
| CandidateApplications.ApplicationsPage.SettleLoad | app/applications/page.tsx:37-66 | only an ok answer replaces the list, and loading ends in every outcome |
| CandidateApplications.ApplicationsPage.DeleteApplication | app/applications/page.tsx:68-90 | the DELETE is always sent; the list and `deleted` change only after an ok answer |
| JobsPage.DisplayedCount | app/jobs/page.tsx:156 | the count is the array length, or 0 for no body or a non-array body |
| JobsPage.ViewOf | app/jobs/page.tsx:168-188 | the skeleton shows exactly while loading, and cards exactly for a non-empty loaded array |
| JobsPage.CountMatchesView | app/jobs/page.tsx:156-188 | once loaded, cards show exactly when the count is positive, with one card per counted job |
| JobsPage.JobsContent.constructor | app/jobs/page.tsx:24-62 | the page starts loading, with the URL value in the box, and sends the list request |
| JobsPage.JobsContent.HandleSearchChange | app/jobs/page.tsx:64-74 | the box takes the raw value and the URL gets `QueryFor(value)` |
| JobsPage.JobsContent.UrlChanged | app/jobs/page.tsx:29-62 | a changed URL value resets the box and starts a new fetch with loading set |
| JobsPage.JobsContent.SettleFetch | app/jobs/page.tsx:49-58 | any answered body is stored whatever the status and ends loading; a rejection leaves it loading |
| JobApplicationForm.Issues | components/JobApplicationForm.tsx:20-26 | the draft passes exactly when the cover letter has at least 30 characters and a resume is set; each rule fails exactly in its own case, cover letter first |
| JobApplicationForm.FirstIssue | components/JobApplicationForm.tsx:66-71 | only the first issue is shown, and it is the cover-letter message whenever that rule fails |
| JobApplicationForm.ApplyChange | components/JobApplicationForm.tsx:49-61 | each input updates only its own field; the file input keeps its first file or nothing |
| JobApplicationForm.ApplicationForm.constructor | components/JobApplicationForm.tsx:30-36 | the form starts with an empty draft, no error and no request |
| JobApplicationForm.ApplicationForm.HandleChange | components/JobApplicationForm.tsx:49-61 | the draft becomes `ApplyChange(draft, change)` and nothing else changes |
| JobApplicationForm.ApplicationForm.SetDragging | components/JobApplicationForm.tsx:133-137 | drag-over and drag-leave set the dragging flag only |
| JobApplicationForm.ApplicationForm.HandleDrop | components/JobApplicationForm.tsx:138-143 | a drop ends dragging and keeps the first dropped file, if any |
| JobApplicationForm.ApplicationForm.HandleSubmit | components/JobApplicationForm.tsx:63-100 | a rejected draft shows its first issue and sends nothing; a passing one clears the error, posts, and then redirects to /jobs on ok or shows "Failed to submit application" |
| CandidateProfileCreate.EducationPayload | app/profile/candidate/create/page.tsx:144-149 | the end year is sent as null exactly when the education is current |
| CandidateProfileCreate.ExperiencePayload | app/profile/candidate/create/page.tsx:166-173 | the end date is sent as null exactly when the experience is current; company, role, description, start date and the current flag are sent as entered |
| CandidateProfileCreate.AddSkill | app/profile/candidate/create/page.tsx:88-92 | blank input is a no-op; otherwise the trimmed input is appended and the input cleared |
| CandidateProfileCreate.RemoveSkill | app/profile/candidate/create/page.tsx:94-96 | every occurrence of the skill is removed and all other skills stay |
| CandidateProfileCreate.RemoveUndoesAdd | app/profile/candidate/create/page.tsx:88-96 | removing a freshly added new skill restores the list |
| CandidateProfileCreate.RunChain | app/profile/candidate/create/page.tsx:120-183 | requests are sent while answers are ok; the chain completes exactly when all answer ok, and otherwise stops at the first non-ok answer |
| CandidateProfileCreate.ExperienceOnlyAfterSuccess | app/profile/candidate/create/page.tsx:129-181 | the experience request is sent exactly when the section is shown and profile and education both succeeded |
| CandidateProfileCreate.RunChainCases | app/profile/candidate/create/page.tsx:129-183 | the chain's outcome for each branch of the handler |
| CandidateProfileCreate.PlannedRequests | app/profile/candidate/create/page.tsx:118-175 | the plan has one request per failure alert: two, or three when the experience section is shown |
| CandidateProfileCreate.PlannedRequestsShape | app/profile/candidate/create/page.tsx:118-175 | every planned request carries `Bearer ${token}`; the profile goes first with the PUT/POST verb and the form, then the education payload, and an experience request is planned exactly when that section is shown |
| CandidateProfileCreate.FailureAlerts | app/profile/candidate/create/page.tsx:132-177 | one alert per step: two, or three with the experience section |
| CandidateProfileCreate.FailureAlertsDistinct | app/profile/candidate/create/page.tsx:132-177 | no two steps share an alert text, so the alert names the step that failed |
| CandidateProfileCreate.ProfileParts | app/profile/candidate/create/page.tsx:109-116 | four text fields and one part per skill, all text, followed only by file parts: one for the image and one for the resume when set |
| CandidateProfileCreate.ProfilePartsReadBack | app/profile/candidate/create/page.tsx:109-113 | the server reads full_name, bio, portfolio_link and linkedin_link back exactly once each, with their own values |
| CandidateProfileCreate.ProfilePartsCarrySkills | app/profile/candidate/create/page.tsx:109-116 | the server reads the skills back exactly as listed, in order |
| CandidateProfileCreate.CreateCandidateProfile.constructor | app/profile/candidate/create/page.tsx:9-59 | every field starts empty and unset, and the mount effect's existence probe is sent with `Bearer ${token}` |
| CandidateProfileCreate.CreateCandidateProfile.ProbeSettled | app/profile/candidate/create/page.tsx:50-59 | only an ok probe marks the profile as existing |
| CandidateProfileCreate.CreateCandidateProfile.SetSkillInput | app/profile/candidate/create/page.tsx:272 | the skill input takes the typed text |
| CandidateProfileCreate.CreateCandidateProfile.AddSkillClicked | app/profile/candidate/create/page.tsx:88-92 | skills and input become `AddSkill` of their old values |
| CandidateProfileCreate.CreateCandidateProfile.RemoveSkillClicked | app/profile/candidate/create/page.tsx:94-96 | skills become `RemoveSkill` of the old list |
| CandidateProfileCreate.CreateCandidateProfile.HandleImageChange | app/profile/candidate/create/page.tsx:62-70 | no file is a no-op, a non-image sets the error and keeps the image, an image is kept; an existing error is never cleared |
| CandidateProfileCreate.CreateCandidateProfile.HandleResumeChange | app/profile/candidate/create/page.tsx:72-86 | the error is cleared first; a PDF is kept and anything else sets the error |
| CandidateProfileCreate.CreateCandidateProfile.SetFullName | app/profile/candidate/create/page.tsx:248 | the name input sets only the name |
| CandidateProfileCreate.CreateCandidateProfile.SetBio | app/profile/candidate/create/page.tsx:259 | the bio input sets only the bio |
| CandidateProfileCreate.CreateCandidateProfile.SetPortfolioLink | app/profile/candidate/create/page.tsx:302 | the portfolio input sets only that link |
| CandidateProfileCreate.CreateCandidateProfile.SetLinkedinLink | app/profile/candidate/create/page.tsx:314 | the LinkedIn input sets only that link |
| CandidateProfileCreate.CreateCandidateProfile.SetEducation | app/profile/candidate/create/page.tsx:333-374 | the education inputs replace the education draft |
| CandidateProfileCreate.CreateCandidateProfile.SetExperience | app/profile/candidate/create/page.tsx:396-453 | the experience inputs replace the experience draft |
| CandidateProfileCreate.CreateCandidateProfile.ToggleExperience | app/profile/candidate/create/page.tsx:382 | the button flips whether the experience section is shown |
| CandidateProfileCreate.CreateCandidateProfile.BuildForm | app/profile/candidate/create/page.tsx:109-116 | the form holds the four text fields, one part per skill, then the image and the resume when set |
| CandidateProfileCreate.CreateCandidateProfile.Send | app/profile/candidate/create/page.tsx:129-135 | one step sends its request; a non-ok answer alerts and resets `submitting`; the chain goes on only after ok |
| CandidateProfileCreate.CreateCandidateProfile.SendChain | app/profile/candidate/create/page.tsx:105-183 | `submitting` is set; the requests sent are the `RunChain` prefix of the plan, a non-ok step raises its own alert and resets `submitting`, and navigation happens only when the chain completes |
| CandidateProfileCreate.CreateCandidateProfile.SubmitChain | app/profile/candidate/create/page.tsx:105-183 | after the guard, the requests sent are the `RunChain` prefix of `PlannedRequests` over the built form, with the failing step's alert |
| CandidateProfileCreate.CreateCandidateProfile.HandleSubmit | app/profile/candidate/create/page.tsx:99-184 | with an image or resume error it alerts and sends nothing; otherwise it sends the planned requests as `RunChain` decides, and `submitting` stays set unless a step answered non-ok |
| UpdateProfileForm.Set | components/UpdateProfileForm.tsx:56-59 | a change writes the named field and keeps every other field |
| UpdateProfileForm.SetLaws | components/UpdateProfileForm.tsx:56-59 | writing a field's own value changes nothing, and the later of two writes wins |
| UpdateProfileForm.SetExperience | components/UpdateProfileForm.tsx:88-92 | `entry[field] = value` changes only that field |
| UpdateProfileForm.SetEducation | components/UpdateProfileForm.tsx:105-109 | `entry[field] = value` changes only that field |
| UpdateProfileForm.InitialProfile | components/UpdateProfileForm.tsx:16-32 | state starts from the `profile` prop, or from empty fields without one |
| UpdateProfileForm.SpliceOne | components/UpdateProfileForm.tsx:71-75 | `splice(i, 1)` removes exactly the element at a valid index, counts a negative index from the end, and ignores one past the end |
| UpdateProfileForm.SpliceOneKeepsOrder | components/UpdateProfileForm.tsx:71-75 | the elements before the index stay in place and those after move down by one |
| UpdateProfileForm.AddSkill | components/UpdateProfileForm.tsx:62-69 | blank input is a no-op; otherwise `{name: input}` is appended untrimmed and the input cleared |
| UpdateProfileForm.RemoveUndoesAdd | components/UpdateProfileForm.tsx:62-75 | removing the just-added skill by its index restores the list |
| UpdateProfileForm.FillNewExperience | components/UpdateProfileForm.tsx:78-92 | filling in a freshly added entry keeps the earlier entries and leaves the new one blank except for that field |
| UpdateProfileForm.Names | components/UpdateProfileForm.tsx:138 | the skill names, one per skill, in list order |
| UpdateProfileForm.UpdateParts | components/UpdateProfileForm.tsx:131-140 | four text fields and one part per skill, all text, then the resume as the last part when one is selected |
| UpdateProfileForm.UpdatePartsContents | components/UpdateProfileForm.tsx:131-140 | skill names are sent in list order, and a file part is present exactly when a resume is selected |
| UpdateProfileForm.UpdateProfileCard.constructor | components/UpdateProfileForm.tsx:16-54 | both copies start from the prop, the card is closed and idle, and the profile load is sent |
| UpdateProfileForm.UpdateProfileCard.ProfileLoaded | components/UpdateProfileForm.tsx:41-54 | any answered body replaces the current data, whatever the status |
| UpdateProfileForm.UpdateProfileCard.HandleChange | components/UpdateProfileForm.tsx:56-59 | the named field is written into both copies and nothing else changes |
| UpdateProfileForm.UpdateProfileCard.SetSkillInput | components/UpdateProfileForm.tsx:34 | the skill input takes the typed text |
| UpdateProfileForm.UpdateProfileCard.AddSkillClicked | components/UpdateProfileForm.tsx:62-69 | skills and input become `AddSkill` of their old values; the rest of the profile is kept |
| UpdateProfileForm.UpdateProfileCard.RemoveSkill | components/UpdateProfileForm.tsx:71-75 | skills become `SpliceOne(skills, index)`; the rest of the profile is kept |
| UpdateProfileForm.UpdateProfileCard.AddExperience | components/UpdateProfileForm.tsx:78-86 | exactly one blank experience is appended |
| UpdateProfileForm.UpdateProfileCard.UpdateExperience | components/UpdateProfileForm.tsx:88-92 | only the given field of entry `i` changes; an index with no entry changes nothing |
| UpdateProfileForm.UpdateProfileCard.AddEducation | components/UpdateProfileForm.tsx:95-103 | exactly one blank education is appended |
| UpdateProfileForm.UpdateProfileCard.UpdateEducation | components/UpdateProfileForm.tsx:105-109 | only the given field of entry `i` changes; an index with no entry changes nothing |
| UpdateProfileForm.UpdateProfileCard.HandleDrag | components/UpdateProfileForm.tsx:111-115 | the drop zone is active exactly for dragenter and dragover |
| UpdateProfileForm.UpdateProfileCard.HandleDrop | components/UpdateProfileForm.tsx:117-122 | a drop deactivates the zone and keeps the first dropped file, if any |
| UpdateProfileForm.UpdateProfileCard.HandleFileSelect | components/UpdateProfileForm.tsx:124-126 | the first chosen file, if any, becomes the resume |
| UpdateProfileForm.UpdateProfileCard.SetOpen | components/UpdateProfileForm.tsx:351-353 | the toggle and the close buttons set whether the card is open |
| UpdateProfileForm.UpdateProfileCard.HandleSubmit | components/UpdateProfileForm.tsx:128-160 | the form is PUT; non-ok ends loading and alerts without `onUpdated`; ok hands the body to `onUpdated`, ends loading and closes the card |
| EmployerProfileCreate.Set | app/profile/employer/create/page.tsx:154-221 | each input sets its own field and keeps the others |
| EmployerProfileCreate.ProfileParts | app/profile/employer/create/page.tsx:66-75 | the body has the six text fields, and a logo part exactly when a logo is set |
| EmployerProfileCreate.ProfilePartsReadBack | app/profile/employer/create/page.tsx:67-72 | the server reads each of the six text fields back exactly once, under its own name and with its own value |
| EmployerProfileCreate.CreateEmployerProfile.constructor | app/profile/employer/create/page.tsx:18-42 | every field starts empty and the existence probe is sent |
| EmployerProfileCreate.CreateEmployerProfile.ProbeSettled | app/profile/employer/create/page.tsx:39-41 | only an ok probe marks the profile as existing |
| EmployerProfileCreate.CreateEmployerProfile.HandleTextChange | app/profile/employer/create/page.tsx:154-221 | the text becomes `Set(text, field, value)` |
| EmployerProfileCreate.CreateEmployerProfile.HandleLogoChange | app/profile/employer/create/page.tsx:44-56 | no file is a no-op; a non-image sets the error and keeps the logo; an image clears the error and becomes the logo |
| EmployerProfileCreate.CreateEmployerProfile.HandleSubmit | app/profile/employer/create/page.tsx:58-97 | with a logo error it alerts and sends nothing; otherwise it PUTs or POSTs by existence; failure alerts and resets `submitting`, and success resets it and shows the dialog |
| EmployerProfileCreate.CreateEmployerProfile.ConfirmSuccess | app/profile/employer/create/page.tsx:253-256 | the dialog action hides the dialog and navigates to /profile/employer |
| PostJob.Set | app/employer/postjob/page.tsx:29-33 | a change writes one key of the draft and keeps the others |
| PostJob.DefaultDraftValues | app/employer/postjob/page.tsx:15-23 | the default draft is entry / remote / full-time with empty text fields |
| PostJob.DraftsAgreeEverywhere | app/employer/postjob/page.tsx:15-23 | drafts that agree on every key are equal |
| PostJob.PostJobPage.constructor | app/employer/postjob/page.tsx:15-27 | the page starts with the default draft, idle, with no error and no success |
| PostJob.PostJobPage.SetField | app/employer/postjob/page.tsx:129-131 | each input and select updates exactly one key |
| PostJob.PostJobPage.Reset | app/employer/postjob/page.tsx:237-247 | Reset restores exactly the default draft |
| PostJob.PostJobPage.HandleSubmit | app/employer/postjob/page.tsx:35-78 | without a token it reports that and sends nothing; ok sets success and resets the draft; any failure reports it and keeps the draft; loading always ends |
| Login.Set | app/login/page.tsx:15-22 | a change writes only the named field |
| Login.JsText | app/login/page.tsx:44-45 | a missing value is written as "undefined" |
| Login.FailureMessage | app/login/page.tsx:40 | the error is the server's detail, or "Login failed" when that is missing or empty |
| Login.CheckUrl | app/login/page.tsx:47-50 | the employer check URL is used exactly for the role "employer" |
| Login.Redirect | app/login/page.tsx:61-69 | the browser goes to one of the four pages, and any status other than 404 and 200, or any role other than candidate and employer, leads to the candidate create page |
| Login.RedirectTable | app/login/page.tsx:61-69 | each destination is reached by exactly its rows of the table |
| Login.LoginPage.constructor | app/login/page.tsx:7-13 | the form starts empty, with no error, not loading |
| Login.LoginPage.HandleChange | app/login/page.tsx:15-22 | credentials become `Set(credentials, field, value)` |
| Login.LoginPage.HandleSubmit | app/login/page.tsx:24-72 | failure shows the detail, stores nothing and leaves loading set; success stores token and role, requests the role's check, and navigates as the table says |

## Left out

- Network, storage and navigation are not executed. Answers, the stored token, files and check statuses are inputs; requests, alerts and navigation are recorded. The `multipart/form-data` and JSON encodings are not modelled: a body is its list of parts or its record.
- URL encoding is taken to round-trip: `encodeURIComponent` and the search-parameter decoding are not modelled.
- Async interleaving is not modelled. Each handler runs to completion with the answers given, and overlapping requests are not modelled.
- Rendering is not modelled beyond the view choice of the list pages. Animations, previews (`URL.createObjectURL`, `resumePreview`, `logoPreview`), `console` output and date formatting are left out.
- String length is counted in Unicode characters, not UTF-16 code units. This affects the 30-character cover-letter rule only for characters outside the Basic Multilingual Plane.
- zod's internals are not modelled. Only the two rules of the application schema are.
- UpdateProfileForm.UpdateProfileCard.UpdateExperience: the source writes into the shared entry object, which the old state still references. Nothing reads that old state, so only the resulting value is modelled. Entries keep only the fields the card edits.
- UpdateProfileForm.UpdateProfileCard.ProfileLoaded: a body that is not a profile (an error object, say) is not modelled; any answer is taken to decode to a profile.
- CandidateApplications.ApplicationsPage.SettleLoad: the body of an ok answer is taken to be an array.
- CandidateProfileCreate.CreateCandidateProfile.SetEducation: the per-field setters of the education and experience drafts are modelled as one replacement of the whole draft. The unused `linkError` state is left out.
- The fetch-and-render pages are not part of this model: the home page, the profile pages, the employer dashboard, the job detail page, the sidebar and the cards. Neither are the job editing form and the registration page, which copy fields into one request.
