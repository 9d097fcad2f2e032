# JobScout front end — a verified model of its core rules

JobScout is a job board. Its Next.js front end signs users and admins in against
an authentication service, and lets a user search vagas (job openings), keep a
CV and follow their applications. Admins use it to manage jobs and companies and
to see who applied where. This project models in Dafny the rules behind those
screens and proves what they guarantee:

- **Session store** (`Auth`, `UseAuth`): the `"currentUser"` entry of
  `localStorage`; `login` as three backend replies (token, verify, profile)
  assembled into one stored user; `register` and its role-dependent payload; and
  the `useAuth` hook with its `user` / `isLoading` / `mounted` state and the
  "auth-change" event that keeps every mounted hook in step.
- **Registration form** (`RegisterForm`): which optional fields each account type
  forwards, and the toast shown after submitting.
- **Job search** (`JobSearch`): the vaga→job transform, the applied-job ids, the
  company lookup with its fallback text, and the order-preserving filter made of
  a case-insensitive search and a type match with an `"all"` wildcard.
- **List editors** (`Tags`, `Records`, `CvForm`, `JobForm`, `CompanyForm`,
  `AdminJobsPage`, `AdminCompaniesPage`, over the mock lists of `MockStore`):
  - adding a trimmed, non-blank, new tag, and removing a tag by value;
  - updating and removing CV entries by index;
  - the forms' in-place upsert into the shared mock arrays;
  - the admin pages' rebuilt lists, and their deletes.
- **API normalisers** (`MyApplications`, `CvPage`, `AdminApplications`):
  - `competencias` arriving as an array, a comma-separated text or anything else;
  - snake_case/Portuguese field names with fallbacks ending in `"-"`;
  - the applicant total, as a fold;
  - the token guard in front of the admin applications request.

JavaScript values are `Js.Value` (undefined, null, booleans, integers, strings,
arrays, objects), with JavaScript truthiness, `||`, `String(x)` and `Number(x)`
written out. Backend replies, `confirm()` answers, `Date.now()` and ISO
timestamps are parameters. Objects whose state the source changes in place are
classes:
- the browser's storage and its event channel;
- each `useAuth` instance;
- the shared mock arrays;
- the admin pages' React state;
- the job-search component state.

## Model

| member | source | states |
|---|---|---|
| Auth.StorageAfterSet | lib/auth.ts:16-24 | outside a browser storage is untouched; a user is stored under "currentUser", `null` removes that key; no other key changes |
| Auth.GetStoredUser | lib/auth.ts:9-14 | returns the user under "currentUser", and null outside a browser or when the key is absent |
| Auth.SetStoredUser | lib/auth.ts:16-24 | the new storage is `StorageAfterSet` of the old one; afterwards `getStoredUser()` returns what was set (null outside a browser) |
| Auth.Logout | lib/auth.ts:78-80 | clears the "currentUser" entry; afterwards no user is stored |
| Auth.LogoutIdempotent | lib/auth.ts:78-80 | clearing the session twice leaves the same storage as clearing it once |
| Auth.ErrorMessage | lib/auth.ts:37-40 | the thrown message is `String(detail)` when `detail` is truthy, else the fallback text |
| Auth.AssembleUser | lib/auth.ts:68-72 | the stored user has the profile's keys plus `role` and `token`; those two take the verified role and the access token, overriding same-named profile fields; every other field is the profile's |
| Auth.LoginSucceedsIff | lib/auth.ts:26-76 | login succeeds exactly when a token is issued and the profile endpoint of the verified role answers |
| Auth.LoginUserIsProfileWithToken | lib/auth.ts:42-75 | a logged-in user is the profile fetched from the role's endpoint with the issued token, with that token and that role laid over it |
| Auth.LoginFailureMessages | lib/auth.ts:37-64 | a rejected token request fails with `detail` or "Erro ao efetuar login"; a failed profile request fails with "Erro ao carregar perfil do usuário" |
| Auth.LoginExample | lib/auth.ts:26-76 | a concrete run: token "T", role "user" and profile {id: 1, name: "A"} give {id: 1, name: "A", role: "user", token: "T"} |
| Auth.Login | lib/auth.ts:26-76 | the result is `LoginOutcome`; on success the returned user is the stored user; on failure storage is untouched |
| Auth.RegisterPayload | lib/auth.ts:99-116 | an admin payload has exactly nome, email, cpf, telefone and password; a user payload also has area_trabalho and nivel_educacao; name, e-mail, CPF and password are sent as given |
| Auth.RegisterPayloadOptionalFields | lib/auth.ts:105-114 | each optional field is forwarded when given (even as "") and sent as "" when not given |
| Auth.RegisterOutcomeSpec | lib/auth.ts:118-129 | registration succeeds exactly when the account is created and the follow-up login succeeds, and then yields that login's user; a rejected account fails with `detail` or "Erro ao registrar usuário" |
| Auth.Register | lib/auth.ts:82-130 | the result is `RegisterOutcome`; on success the returned user is the stored user; on any failure storage is untouched |
| UseAuth.AuthEvents.Emit | hooks/use-auth.ts:10-14 | in a browser, one event is counted and every listening hook re-reads the stored user; outside a browser nothing happens |
| UseAuth.AuthHook.constructor | hooks/use-auth.ts:17-19 | the first render has no user, is loading and not mounted, so the exposed `isLoading` is true and the user is neither authenticated nor admin |
| UseAuth.AuthHook.Mount | hooks/use-auth.ts:21-39 | after mount, `user` is the stored user, loading is over and the hook listens for "auth-change" |
| UseAuth.AuthHook.Unmount | hooks/use-auth.ts:37-38 | the clean-up removes this hook's listener and only it |
| UseAuth.AuthHook.Login | hooks/use-auth.ts:41-53 | on success `user` is the result, storage holds it and exactly one event reaches every listener; on failure `user`, storage, listeners and the event count are untouched; loading is over either way |
| UseAuth.AuthHook.Register | hooks/use-auth.ts:55-78 | the same as `Login`, for `register` |
| UseAuth.AuthHook.Logout | hooks/use-auth.ts:80-84 | storage cleared, `user` null here and in every listening hook, exactly one event sent, loading flags untouched |
| UseAuth.AdminIsAuthenticated | hooks/use-auth.ts:92-93 | `isAdmin` implies `isAuthenticated` |
| RegisterForm.AdditionalFieldsFor | components/auth/register-form.tsx:34-38 | the phone is forwarded only for admin accounts; work area and education level only for user accounts |
| RegisterForm.PayloadByAccountType | components/auth/register-form.tsx:35-37 | whatever phone was typed, a user account registers with `telefone` ""; an admin account sends the phone and neither area_trabalho nor nivel_educacao |
| RegisterForm.HandleSubmit | components/auth/register-form.tsx:30-50 | success shows "Conta criada com sucesso!" naming the account type and sets the hook's user; failure shows "Erro no cadastro" with the thrown message and leaves the user as it was |
| JobSearch.RequirementsOf | components/user/job-search.tsx:49 | absent competencias give no requirement; present ones give their names, one per competencia, in order |
| JobSearch.TransformJobs | components/user/job-search.tsx:42-50 | one job per vaga, in order, carrying its id, texts, salary, type, `Number(empresa_id)` and competencia names |
| JobSearch.CompanyIdFromNumberOrText | components/user/job-search.tsx:48 | a company id sent as a number or as its decimal text becomes the same number |
| JobSearch.AppliedJobs | components/user/job-search.tsx:36-38 | an order-preserving subsequence of the applications' `vaga?.id`s keeping every truthy id as often as it occurs and no falsy one; a value is in it exactly when it is truthy and some application refers to it |
| JobSearch.AppliedIff | components/user/job-search.tsx:36-38 | a job shows as applied exactly when its id is not 0 and some application refers to it |
| JobSearch.CompanyName | components/user/job-search.tsx:61-63 | never blank; "Empresa não encontrada" when the id is NaN or unknown; when the first company with that id has a non-empty `nome`, exactly that `nome`, and the fallback text when its `nome` is empty |
| JobSearch.FilteredJobs | components/user/job-search.tsx:65-78 | an order-preserving subsequence of the jobs in which every job matching both the search and the type keeps all its copies and no other job is left |
| JobSearch.NoFilterKeepsAll | components/user/job-search.tsx:68-74 | an empty term with type "all" lists every job, in order |
| JobSearch.TypeFilterIsExact | components/user/job-search.tsx:74 | any type filter other than "all" lists only jobs of exactly that type |
| JobSearch.SearchIgnoresTermCase | components/user/job-search.tsx:69-72 | every term, the empty one included, and its lower-case form match the same jobs |
| JobSearch.TitleOccurrenceMatches | components/user/job-search.tsx:69 | a title containing the term, ignoring case, matches |
| JobSearch.FallbackNameIsSearched | components/user/job-search.tsx:62-72 | a job whose company is unknown is found by searching "EMPRESA", because the fallback text is searched like a name |
| JobSearch.RequirementBadges | components/user/job-search.tsx:174-175 | the first six requirements, in order, each highlighted exactly when the user has that competencia |
| JobSearch.JobSearchView.constructor | components/user/job-search.tsx:18-23 | an empty term, type "all", nothing loaded, nothing listed |
| JobSearch.JobSearchView.FetchJobs | components/user/job-search.tsx:25-54 | stores the applied ids, the skill names, the transformed jobs and the companies; the search inputs are kept, and with none set every fetched job is listed |
| JobSearch.JobSearchView.SetSearchTerm | components/user/job-search.tsx:65-72 | every listed job then matches the new term |
| JobSearch.JobSearchView.SetTypeFilter | components/user/job-search.tsx:74 | with a type other than "all", every listed job then has that type |
| Tags.Add | components/user/cv-form.tsx:87-95 | the trimmed text is appended and the box cleared exactly when it is non-blank and not listed; otherwise list and box stay as they were |
| Tags.AddKeepsValid | components/user/cv-form.tsx:87-95 | adding never introduces a blank, padded or duplicate text |
| Tags.Remove | components/user/cv-form.tsx:97-102 | an order-preserving subsequence in which every text other than the removed one keeps all its copies and the removed one has none |
| Tags.RemoveKeepsValid | components/user/cv-form.tsx:97-102 | removing keeps the list free of blanks and duplicates |
| Tags.RemoveAbsent | components/admin/job-form.tsx:96-101 | removing a text that is not listed changes nothing |
| Tags.RemoveUndoesAdd | components/admin/job-form.tsx:86-101 | removing the text just added gives back the list as it was |
| Tags.AddTwiceAddsOnce | components/admin/job-form.tsx:86-94 | pressing Add twice with the same content adds it once |
| Records.Upsert | components/user/cv-form.tsx:62-69 | with an original record, the first record with its id is replaced in place (nothing when absent); without one, the record is appended |
| Records.UpsertGrowsByAtMostOne | components/admin/job-form.tsx:59-68 | the list grows by at most one record |
| Records.Save | app/admin/jobs/page.tsx:34-41 | while editing, every record with the saved id is replaced and length and order are kept; otherwise the record is appended |
| Records.UpsertKeepsUniqueIds | components/admin/company-form.tsx:46-55 | a write keeps ids unique when the edit keeps the id or a new record's id is unused |
| Records.UpsertOnlyAdds | components/admin/company-form.tsx:46-55 | after a write every record is an earlier one or the one written |
| Records.SaveMatchesUpsert | app/admin/jobs/page.tsx:34-41 | with unique ids, the page's rebuilt list equals the mock list after the form's write |
| Records.DeleteAll | app/admin/jobs/page.tsx:53 | an order-preserving subsequence in which every record with another id keeps all its copies and none with the deleted id is left |
| Records.DeleteFirst | app/admin/jobs/page.tsx:54-57 | the first record with the id is spliced out, or nothing when none has it |
| Records.DeletesAgree | app/admin/companies/page.tsx:39-43 | with unique ids both deletes give the same list, and ids stay unique |
| CvForm.InitialState | components/user/cv-form.tsx:28-38 | the CV's values, else the user's name and e-mail, else blanks; an empty skill box |
| CvForm.AddSkill | components/user/cv-form.tsx:87-95 | skills and box change as `Tags.Add` says; nothing else in the form changes |
| CvForm.RemoveSkill | components/user/cv-form.tsx:97-102 | skills become `Tags.Remove`; nothing else changes |
| CvForm.SetExperienceValue | components/user/cv-form.tsx:121 | the named field takes the value, every other field keeps its own |
| CvForm.AddExperience | components/user/cv-form.tsx:104-117 | one entry is appended, with id `String(now)` and blank texts; earlier entries and the rest of the form are kept |
| CvForm.UpdateExperience | components/user/cv-form.tsx:119-123 | only the named field of the entry at the index changes; length and every other entry are kept |
| CvForm.RemoveExperience | components/user/cv-form.tsx:125-130 | exactly the entry at the index goes; an index off the list changes nothing |
| CvForm.RemoveUndoesAddExperience | components/user/cv-form.tsx:104-130 | removing the entry just added gives back the form |
| CvForm.UpdateExperienceWithSameValue | components/user/cv-form.tsx:119-123 | writing back a field's current value changes nothing |
| CvForm.SetEducationValue | components/user/cv-form.tsx:149 | the named field takes the value, every other field keeps its own |
| CvForm.AddEducation | components/user/cv-form.tsx:132-145 | one entry is appended, with id `String(now)` and blank texts; earlier entries and the rest of the form are kept |
| CvForm.UpdateEducation | components/user/cv-form.tsx:147-151 | only the named field of the entry at the index changes; length and every other entry are kept |
| CvForm.RemoveEducation | components/user/cv-form.tsx:153-158 | exactly the entry at the index goes; an index off the list changes nothing |
| CvForm.RemoveUndoesAddEducation | components/user/cv-form.tsx:132-158 | removing the entry just added gives back the form |
| CvForm.UpdateEducationWithSameValue | components/user/cv-form.tsx:147-151 | writing back a field's current value changes nothing |
| CvForm.NewCv | components/user/cv-form.tsx:49-60 | the edited CV's id when it has one, else `String(now)`; the user's id; the form's contents; the timestamp |
| CvForm.HandleSubmit | components/user/cv-form.tsx:40-71 | without a user nothing happens; otherwise `mockCVs` receives the upsert of the new CV, which is what `onSave` gets |
| CvForm.SubmitKeepsIdsUnique | components/user/cv-form.tsx:49-69 | saving keeps CV ids unique when a new CV's time-based id is unused |
| JobForm.InitialState | components/admin/job-form.tsx:25-34 | a fresh form is blank with type "full-time" and no requirement; an edited job's values otherwise |
| JobForm.AddRequirement | components/admin/job-form.tsx:86-94 | requirements and box change as `Tags.Add` says; nothing else changes |
| JobForm.RemoveRequirement | components/admin/job-form.tsx:96-101 | requirements become `Tags.Remove`; nothing else changes |
| Js.TextOrUndefined | components/admin/job-form.tsx:51 | an empty salary is saved as undefined, any other as typed; the company form treats its website the same way (components/admin/company-form.tsx:42) |
| JobForm.NewJob | components/admin/job-form.tsx:46-57 | editing keeps id, creation time and `isActive` (even false); a new job gets `String(now)`, the timestamp and `isActive` true; the rest comes from the form |
| JobForm.ResaveUnchanged | components/admin/job-form.tsx:25-57 | re-saving a job through an untouched form gives back the same job |
| JobForm.HandleSubmit | components/admin/job-form.tsx:46-70 | `mockJobs` receives the upsert of the new job, which is what `onSave` gets |
| CompanyForm.InitialForm | components/admin/company-form.tsx:22-26 | the edited company's values, else blanks |
| CompanyForm.NewCompany | components/admin/company-form.tsx:38-44 | editing keeps id and creation time; name and description are copied unchanged |
| CompanyForm.ResaveUnchanged | components/admin/company-form.tsx:22-44 | re-saving a company through an untouched form gives back the same company |
| CompanyForm.HandleSubmit | components/admin/company-form.tsx:38-57 | `mockCompanies` receives the upsert of the new company, which is what `onSave` gets; a new one ends the list |
| AdminJobsPage.CompanyName | app/admin/jobs/page.tsx:20-22 | never blank; "Empresa não encontrada" when no company has the id; when the first company with that id has a non-empty name, exactly that name, and the fallback text when its name is empty |
| AdminJobsPage.JobTypeLabel | app/admin/jobs/page.tsx:24-32 | the four known types get their Portuguese labels; any other type is returned unchanged |
| AdminJobsPage.KnownLabelsAreDistinct | app/admin/jobs/page.tsx:25-30 | different known types get different labels, none of which is a type name |
| AdminJobsPage.AliasedCreateListsTwice | app/admin/jobs/page.tsx:15-41 | as written, the first creation after mount lists the new job twice and the list no longer matches the store |
| AdminJobsPage.JobsPage.constructor | app/admin/jobs/page.tsx:15-17 | the list as stored, the form closed, nothing being edited |
| AdminJobsPage.JobsPage.OpenNewForm | app/admin/jobs/page.tsx:88 | "Nova Vaga" opens the form |
| AdminJobsPage.JobsPage.HandleEdit | app/admin/jobs/page.tsx:46-49 | the form opens on the job |
| AdminJobsPage.JobsPage.HandleCancel | app/admin/jobs/page.tsx:65-68 | the form closes and nothing is being edited |
| AdminJobsPage.JobsPage.HandleSave | app/admin/jobs/page.tsx:34-44 | the list becomes `Records.Save` of the old one; the form closes and nothing is being edited |
| AdminJobsPage.JobsPage.HandleDelete | app/admin/jobs/page.tsx:51-63 | confirmed: every listed job with the id goes and the first stored one is spliced out; declined: nothing changes; list and store stay in step |
| AdminJobsPage.JobsPage.SubmitForm | app/admin/jobs/page.tsx:34-44 | the form's write followed by `handleSave` leaves the page's list equal to `mockJobs`, with unique ids |
| AdminCompaniesPage.AliasedCreateListsTwice | app/admin/companies/page.tsx:15-27 | as written, the first creation after mount lists the new company twice and the list no longer matches the store |
| AdminCompaniesPage.CompaniesPage.constructor | app/admin/companies/page.tsx:15-17 | the list as stored, the form closed, nothing being edited |
| AdminCompaniesPage.CompaniesPage.OpenNewForm | app/admin/companies/page.tsx:74-76 | "Nova Empresa" opens the form |
| AdminCompaniesPage.CompaniesPage.HandleEdit | app/admin/companies/page.tsx:32-35 | the form opens on the company |
| AdminCompaniesPage.CompaniesPage.HandleCancel | app/admin/companies/page.tsx:51-54 | the form closes and nothing is being edited |
| AdminCompaniesPage.CompaniesPage.HandleSave | app/admin/companies/page.tsx:20-30 | the list becomes `Records.Save` of the old one; the form closes and nothing is being edited |
| AdminCompaniesPage.CompaniesPage.HandleDelete | app/admin/companies/page.tsx:37-49 | confirmed: every listed company with the id goes and the first stored one is spliced out; declined: nothing changes; list and store stay in step |
| AdminCompaniesPage.CompaniesPage.SubmitForm | app/admin/companies/page.tsx:20-30 | the form's write followed by `handleSave` leaves the page's list equal to `mockCompanies`, with unique ids |
| MyApplications.Requirements | app/dashboard/applications/page.tsx:55-59 | an array is passed through; a text gives, in order, the trim of each piece `split(",")` yields (one per comma plus one), each without commas or surrounding white space; anything else gives none |
| MyApplications.TextRequirementsJoinBack | app/dashboard/applications/page.tsx:57-58 | for a text without white space the requirements are exactly the comma-separated pieces, and joining them with "," gives the text back |
| MyApplications.MapJob | app/dashboard/applications/page.tsx:47-60 | exactly the eight job keys, each taken from its Portuguese field |
| MyApplications.WithJob | app/dashboard/applications/page.tsx:62 | every field of the application, and the mapped job under "job" |
| MyApplications.MapApplications | app/dashboard/applications/page.tsx:45-63 | one entry per element of the reply, in order |
| MyApplications.Plural | app/dashboard/applications/page.tsx:107-109 | "s" exactly when the count is not 1 |
| MyApplications.CountLine | app/dashboard/applications/page.tsx:106-110 | for every count: the number as `String(n)` prints it, then "candidatura encontrada" for exactly one and "candidaturas encontradas" otherwise |
| MyApplications.CountLineOne | app/dashboard/applications/page.tsx:106-110 | a single application reads "1 candidatura encontrada", in the singular |
| MyApplications.CountLineThree | app/dashboard/applications/page.tsx:106-110 | three applications read "3 candidaturas encontradas", in the plural |
| MyApplications.RequirementBadges | app/dashboard/applications/page.tsx:137-144 | up to four requirements shown, plus "+(n-4) mais" when there are more |
| MyApplications.BadgesCoverAll | app/dashboard/applications/page.tsx:137-144 | the badges show the first requirements in order, with an extra badge exactly when some are not shown, counting them |
| MyApplications.FetchData | app/dashboard/applications/page.tsx:36-74 | without a user nothing happens; otherwise loading ends, and a reply replaces the list while a failure keeps it |
| MyApplications.Render | app/dashboard/applications/page.tsx:76-110 | signed out, loading, no applications or the list with its count line, checked in the order the page checks them |
| MyApplications.ReplyIsListed | app/dashboard/applications/page.tsx:45-110 | a signed-in user whose reply arrived sees one card per application, with the mapped job, under the matching count line |
| CvPage.FirstTruthy | app/dashboard/cv/page.tsx:31-36 | a chain of JavaScript "or" over the candidates and a last value gives the first truthy candidate whenever there is one, and the last value only when every candidate is falsy; the result is always truthy |
| CvPage.Normalize | app/dashboard/cv/page.tsx:28-37 | id and token copied; name, phone, work area and education level from the English name, else the Portuguese one, else "-"; e-mail and CPF else "-" |
| CvPage.DisplayedFieldsNeverBlank | app/dashboard/cv/page.tsx:31-36 | every displayed field is truthy, never the empty text |
| CvPage.PortugueseNamesShown | app/dashboard/cv/page.tsx:31-33 | a user with only `nome` and `telefone` shows those |
| CvPage.EmptyEnglishFieldFallsThrough | app/dashboard/cv/page.tsx:35 | an empty `workArea` does not hide `area_trabalho` |
| CvPage.Render | app/dashboard/cv/page.tsx:11-37 | loading first, then signed out, then the normalised user |
| AdminApplications.TotalAdds | app/admin/applications/page.tsx:39 | the total over two lists is the sum of their totals |
| AdminApplications.TotalCountsEveryVaga | app/admin/applications/page.tsx:39 | the total is 0 exactly when no vaga has an applicant, and at least any one vaga's count |
| AdminApplications.PageStats | app/admin/applications/page.tsx:64-76 | "Total de Vagas" is the number of vagas and "Total de Candidaturas" the total; both 0 for no data |
| AdminApplications.FetchApplications | app/admin/applications/page.tsx:18-37 | without a truthy token it throws "No token available", makes no request and leaves the state as it was; otherwise it sends "Bearer <token>", ends loading, and keeps the reply's data or, on failure, the old data |
| AdminApplications.SignedOutStaysLoading | app/admin/applications/page.tsx:19-21 | signed out, the first fetch makes no request and leaves the page loading |
| AdminApplications.BadgeCounts | app/admin/applications/page.tsx:99 | one "n candidatos" count per vaga, in order |
| AdminApplications.BadgesAddUpToTotal | app/admin/applications/page.tsx:39 | the per-vaga counts add up to the total |
| AdminApplications.Render | app/admin/applications/page.tsx:41-99 | loading, the stats with "Nenhuma candidatura encontrada", or the stats with one badge per vaga |
| Js.NumberOfStringOfNumber | components/user/job-search.tsx:48 | `Number(String(n))` is `n` for every integer |

## Left out

- Network I/O. Every `fetch`, the `URLSearchParams` form body and JSON parsing are left out. Backend replies are parameters: arrow functions in `Auth.Backend`, and explicit reply values elsewhere. Reply bodies are taken as already parsed. In lib/auth.ts (lines 42, 47 and 66) a successful reply whose body is not JSON makes `res.json()` reject with the parser's own error, and a token reply without `access_token` sends `undefined` on; neither is modelled, since the token reply always carries a text. A failed login reply whose body is not JSON reads as an empty body (line 38), which the model admits. `JSON.parse`/`JSON.stringify` of the stored user are the identity, so a malformed stored entry is not modelled.
- lib/auth.ts has no in-place update of the stored user, and hooks/use-auth.ts returns no unsubscribe handle, so neither is modelled; a malformed stored entry makes `JSON.parse` throw, which is not modelled (see above).
- JobSearch.JobSearchView.FetchJobs, AdminApplications.FetchApplications, MyApplications.FetchData: none of the three requests checks `res.ok` (components/user/job-search.tsx:26-34, app/admin/applications/page.tsx:24-31, app/dashboard/applications/page.tsx:36-41), so an error status with a JSON object body is used as the data. The model assumes every reply that arrives has the success shape (an array), so it does not capture the `.map` that then throws part-way through `fetchJobs` after `setAppliedJobs` has run, nor the `data.reduce` that throws on the admin page's next render.
- Auth.Register: the default `role = "user"` of lib/auth.ts:87 is not modelled, because the only caller (components/auth/register-form.tsx:34) always passes the role.
- Rendering and browser mechanics are left out: JSX, toasts, routing, `console`, the `setTimeout` delays, and the forms' `isLoading` flags. The "auth-change" DOM event is modelled as `UseAuth.AuthEvents`: a dispatch counter plus the set of mounted hooks that listen. `confirm()` is a boolean input. `Date.now()` and `new Date().toISOString()` are the inputs `now` and `timestamp`.
- Numbers are integers. `Number(x)` handles an optional sign and decimal digits; fractions, exponents, hexadecimal, `Infinity` and signed zero are not modelled, and NaN is `None`.
- `trim` and `toLowerCase` are ASCII only: six white-space characters, and A–Z folding.
- Job search: vaga titles and descriptions are texts and vaga ids are integers. Other JSON shapes for them are not modelled.
- CvForm.InitialState: `user?.name` and `user?.email` are taken only when they are texts; other values count as "".
- CvForm.UpdateExperience, CvForm.UpdateEducation: require an index inside the list. The form only passes the index of an entry on screen. JavaScript's behaviour for other indices (a sparse array with a new entry) is not modelled.
- AdminJobsPage.JobTypeLabel: a type named like an inherited `Object.prototype` member (`"toString"` and similar) is not modelled.
- AdminJobsPage.JobsPage.SubmitForm, AdminCompaniesPage.CompaniesPage.SubmitForm, CvForm.SubmitKeepsIdsUnique: require that a new record's `Date.now()` id is not already in use. Without that, ids could collide and uniqueness would not hold.
- The admin pages keep their list as their own copy. The aliased behaviour of the source appears only through the `AliasedCreate` members listed under Findings.
- RegisterForm.FailureDescription: the "Erro desconhecido" branch is kept in the definition. It cannot arise in the model, because `register` only ever fails with an `Error`.
- The toasts after saving a CV, job or company, and after deleting, are not modelled; they carry no state.
- Inconsistent imports and types are not reconciled: `@/hooks/useAuth` versus hooks/use-auth.ts, the `user` prop that the CV page passes to a form that does not declare it, and lib/types.ts versus the mock data. Each module uses the fields its own file uses.
- The role-guard layouts, the landing, auth, jobs and profile pages, the admin dashboard, and the seed data of lib/mock-data.ts are not part of this model.

## Findings

| source | as written | input that shows it | evidently intended | confidence | as-written member | corrected member |
|---|---|---|---|---|---|---|
| app/admin/jobs/page.tsx:15 | `useState(mockJobs)` keeps the very array that the job form `push`es onto (components/admin/job-form.tsx:67); `handleSave` then appends `[...prev, job]` to it | open the page, press "Nova Vaga" and save a job before any other save or delete | the page lists the new job once, as `mockJobs` holds it | high; not executed | AdminJobsPage.AliasedCreateListsTwice | AdminJobsPage.JobsPage.SubmitForm |
| app/admin/companies/page.tsx:15 | `useState(mockCompanies)` keeps the very array that the company form `push`es onto (components/admin/company-form.tsx:54); `handleSave` then appends `[...prev, company]` to it | open the page, press "Nova Empresa" and save a company before any other save or delete | the page lists the new company once, as `mockCompanies` holds it | high; not executed | AdminCompaniesPage.AliasedCreateListsTwice | AdminCompaniesPage.CompaniesPage.SubmitForm |
