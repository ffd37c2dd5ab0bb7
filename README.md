# MyJobSearchAgent: a verified model of the dashboard logic

MyJobSearchAgent is a React/TypeScript web application. A job seeker uses it to search job listings, keep a list of job applications, maintain a Supabase-backed profile, and practise interviews with an AI video coach (Tavus). Most of the code is presentation. This project models the parts that hold logic, and proves what that logic promises:

- **The application store of the two dashboards.**
  - `DashboardMain` keeps remote applications next to an ephemeral list of listings. Listings are jobs handed over by the workflow page or saved from a search. Its counters are derived from both lists. A status change can promote a listing to a stored application.
  - `DashboardMainNew` writes to the remote store first and then patches its local list and its stored counters in place. Its batch save is a loop with two counters.
- **The shared list view of the applications carousel and table.** This covers the search/status filter, the status badge and label, the bounded scroll index, the page indicators, quick apply, the previews, and the per-component action buttons.
- **The environment validator.** It reads the Firebase and JSearch settings, then names every blank one.
- **The API error classifier.** It covers the enhanced error object, the message precedence for a failed response, and the routing of everything a fetch can throw.
- **The two profile services.**
  - `getUserProfile` with its "no row" code.
  - `createProfile`'s row.
  - Skill add and remove.
  - Both get-or-create flows.
  - The upsert payload.
  - The conversion to the profile form.
- **The Tavus call state.** It covers the shared context with its reset and getters, and the call panel's create, join, end, leave, toggles and settings updaters.
- **Phone-code validation.**

How the model is built:

- Every remote call (Supabase, Tavus, fetch) is a parameter of type `Remote<T>`: either `Done(value)` or `Failed(message)`, where `message` is `err.message` and "" stands for a falsy message.
- Clocks, `Date.now()`, `Math.random()` and local storage are parameters or fields.
- A React component becomes a `class` whose fields are its state variables. Its handlers are methods that reassign those fields. Each handler's `ensures` states the whole new state.
- A pure helper becomes a function. The lemmas beside it state what the code promises, and also where it falls short of what it seems to promise (the key without a separator, the upper-case 'APPLIED' that the pending counter ignores, the indicator dot that selects index k rather than 3k).

Modules: `Wrappers`, `JsStrings` (JavaScript string built-ins on `seq<char>`), `Applications`, `ListView`, `ApplicationsCarousel`, `ApplicationsTable`, `DashboardMain`, `DashboardMainNew`, `EnvironmentValidator`, `ApiErrorUtils`, `Profiles`, `SupabaseProfileService`, `ProfileService`, `TavusContext`, `TavusConversation`, `VerifyPhone`.

## Model

| member | source | states |
|---|---|---|
| Applications.Keys | src/components/dashboard/DashboardMain.tsx:189 | the key set holds exactly the `company_name + position` of some entry |
| Applications.KeyHasNoSeparator | src/components/dashboard/DashboardMain.tsx:189-190 | two different (company, position) pairs can share one de-duplication key |
| Applications.KeyIsCaseSensitive | src/components/dashboard/DashboardMain.tsx:189-190 | keys differing only in letter case count as different jobs |
| Applications.IndexOfId | src/components/dashboard/DashboardMain.tsx:281 | the first index whose record has the id, or -1 exactly when none has it |
| Applications.FindById | src/components/dashboard/DashboardMain.tsx:281 | `find` returns a record of the list with that id, and nothing exactly when no record has it |
| Applications.WithoutIdSpec | src/components/dashboard/DashboardMain.tsx:299 | removal by id keeps every other record in its order and drops every record with that id |
| Applications.WithoutAbsentId | src/components/dashboard/DashboardMainNew.tsx:341 | removing an id no record has leaves the list unchanged |
| Applications.CountId | src/components/dashboard/DashboardMainNew.tsx:341 | the number of records with an id is zero exactly when no record carries it |
| Applications.WithoutIdLength | src/components/dashboard/DashboardMainNew.tsx:341 | removal shortens the list by the number of records with that id |
| Applications.CountStatus | src/components/dashboard/DashboardMain.tsx:92-94 | a status count never exceeds the list length |
| Applications.CountStatusConcat | src/components/dashboard/DashboardMain.tsx:90-94 | counting over two lists side by side is the sum of the two counts |
| Applications.StatsOfConcat | src/components/dashboard/DashboardMain.tsx:89-102 | every counter of the combined list is the sum of the counters of the two lists |
| Applications.CountersWithinTotal | src/components/dashboard/DashboardMain.tsx:91-101 | interviews + offers + pending never exceeds the total |
| Applications.StatsExample | src/components/dashboard/DashboardMain.tsx:96-101 | one record each of applied, interview, offer and not_applied gives total 4 and 1 per counter |
| ListView.FilterSpec | src/components/dashboard/ApplicationsCarousel.tsx:76-81 | the filter keeps exactly the records matching both the case-insensitive search and the status filter, each as often as it occurs, in their order |
| ListView.Filter | src/components/dashboard/ApplicationsTable.tsx:77-82 | the filtered list is never longer than the input |
| ListView.FilterEmptyTermAll | src/components/dashboard/ApplicationsCarousel.tsx:76-81 | an empty term with filter 'all' shows the whole list unchanged |
| ListView.FilterCountsStatus | src/components/dashboard/ApplicationsCarousel.tsx:76-81 | with an empty term, filtering by a status shows as many cards as there are records with that status |
| ListView.FilterIgnoresTermCase | src/components/dashboard/ApplicationsCarousel.tsx:77-79 | upper- and lower-casing the search term do not change the result |
| ListView.FilterSameLowerTerm | src/components/dashboard/ApplicationsTable.tsx:78-80 | two terms with the same lower-case form filter alike |
| ListView.EmptyStateMessage | src/components/dashboard/ApplicationsCarousel.tsx:486 | the "no match" message appears exactly when a term or a status filter is active |
| ListView.StatusColor | src/components/dashboard/ApplicationsCarousel.tsx:82-95 | the gray badge is used exactly for statuses other than applied, interview, offer and rejected |
| ListView.StatusLabelSpec | src/components/dashboard/ApplicationsCarousel.tsx:201-202 | only the first underscore becomes a space, and the whole label is upper-cased |
| ListView.StatusLabelNotApplied | src/components/dashboard/ApplicationsTable.tsx:193-194 | a missing status and 'not_applied' show the same label NOT APPLIED |
| ListView.StatusLabelSecondUnderscoreKept | src/components/dashboard/ApplicationsCarousel.tsx:201-202 | a second underscore survives in the label |
| ListView.StepRightBounded | src/components/dashboard/ApplicationsCarousel.tsx:64-74 | scrolling right stays within max(0, n-3), moves at most one, and stops at the end |
| ListView.StepsAreInverse | src/components/dashboard/ApplicationsCarousel.tsx:53-74 | inside the range one step left undoes one step right and vice versa; left is disabled exactly where it cannot move |
| ListView.IndicatorCount | src/components/dashboard/ApplicationsCarousel.tsx:460 | the number of dots is the ceiling of n/3 |
| ListView.ActiveIndicator | src/components/dashboard/ApplicationsCarousel.tsx:458-476 | the active dot is the group of three holding the index |
| ListView.ActiveIndicatorDrawn | src/components/dashboard/ApplicationsTable.tsx:327-345 | while the index is in range, the active dot is one of those drawn |
| ListView.IndicatorClick | src/components/dashboard/ApplicationsCarousel.tsx:458-476 | clicking dot k sets the index to k, which stays in range, but for k >= 1 the highlighted dot becomes k/3 |
| ListView.ScrollPosition.ScrollLeft | src/components/dashboard/ApplicationsCarousel.tsx:53-62 | the index steps left only when the container is mounted, and stays in range |
| ListView.ScrollPosition.ScrollRight | src/components/dashboard/ApplicationsTable.tsx:65-75 | the index steps right only when the container is mounted, and is then in range |
| ListView.ScrollPosition.SelectIndicator | src/components/dashboard/ApplicationsCarousel.tsx:463-464 | a dot click sets the index to the dot's number, within range |
| ListView.QuickApply | src/components/dashboard/ApplicationsCarousel.tsx:37-51 | the posting opens exactly when there is a url; the status request 'applied' is made exactly for a url, the status 'not_applied' and a handler |
| ListView.Preview | src/components/dashboard/ApplicationsCarousel.tsx:229-240 | an empty text shows nothing; otherwise the first min(n, length) characters of the text followed by exactly "..." |
| ApplicationsCarousel.ActionButtons | src/components/dashboard/ApplicationsCarousel.tsx:249-268 | "Apply Now" and "View Job" never show together, on desktop or mobile cards; a desktop card with any status other than not_applied, missing or applied shows neither |
| ApplicationsCarousel.MobileApplyNowDiffers | src/components/dashboard/ApplicationsCarousel.tsx:366-374 | every mobile "Apply Now" is also a desktop one, and the two differ exactly on cards with a posting url and no status |
| ApplicationsCarousel.ApplyNowWithoutStatus | src/components/dashboard/ApplicationsCarousel.tsx:37-51 | a card without a status shows "Apply Now" on desktop but not on mobile, and clicking it only opens the posting |
| ApplicationsCarousel.ApplyNowMarksApplied | src/components/dashboard/ApplicationsCarousel.tsx:249-256 | "Apply Now" on a not_applied card asks to mark exactly that card 'applied' |
| ApplicationsCarousel.DescriptionPreview | src/components/dashboard/ApplicationsCarousel.tsx:229-233 | the description preview is the first 100 characters of the description (all of a shorter one) followed by "...", and appears only for a description |
| ApplicationsCarousel.NotesPreview | src/components/dashboard/ApplicationsCarousel.tsx:236-240 | the notes preview is a double quote, the first 50 characters of the notes, "..." and a closing quote, and appears only for notes |
| ApplicationsCarousel.MobileCards | src/components/dashboard/ApplicationsCarousel.tsx:338 | the mobile stack shows the first min(10, n) filtered cards |
| ApplicationsCarousel.MobileNoticeIffHidden | src/components/dashboard/ApplicationsCarousel.tsx:446-452 | the "showing 10 of n" notice appears exactly when cards are hidden |
| ApplicationsTable.ActionButtons | src/components/dashboard/ApplicationsTable.tsx:244-262 | with a posting url exactly one of "Apply Now" and "View Job" shows; without one, neither |
| ApplicationsTable.ApplyNowRequestsStatus | src/components/dashboard/ApplicationsTable.tsx:36-52 | "Apply Now" shows exactly when quick apply would request a status change |
| ApplicationsTable.DescriptionPreview | src/components/dashboard/ApplicationsTable.tsx:223 | the description preview is the first 120 characters of the description (all of a shorter one) followed by "...", and appears only for a description |
| ApplicationsTable.NotesPreview | src/components/dashboard/ApplicationsTable.tsx:232 | the notes preview is a double quote, the first 60 characters of the notes, "..." and a closing quote, and appears only for notes |
| DashboardMain.WorkflowListings | src/components/dashboard/DashboardMain.tsx:63-77 | each job of the hand-off becomes the listing built from it with its own position as index |
| DashboardMain.WorkflowIdInjective | src/components/dashboard/DashboardMain.tsx:64 | two indexes at one time stamp give different ids |
| DashboardMain.WorkflowListingsSpec | src/components/dashboard/DashboardMain.tsx:63-77 | the listings of one hand-off have distinct ids, all promotable, all not_applied, dated without a time part |
| DashboardMain.TempIdsAreNotListings | src/components/dashboard/DashboardMain.tsx:174 | an id starting with 'temp-' is never a promotable listing id |
| DashboardMain.AppendIfNew | src/components/dashboard/DashboardMain.tsx:188-194 | a present key leaves the list unchanged, a new key appends exactly the listing at the end; the key set gains the key and unique keys stay unique |
| DashboardMain.NewByKey | src/components/dashboard/DashboardMain.tsx:216-218 | exactly the batch entries whose key is not yet present survive, each as often as it occurs in the batch |
| DashboardMain.NewByKeyOrder | src/components/dashboard/DashboardMain.tsx:216-218 | the survivors keep their order, and a batch without repeated keys yields survivors without repeated keys |
| DashboardMain.AppendNew | src/components/dashboard/DashboardMain.tsx:214-220 | the old listings are a prefix and the tail is exactly `NewByKey` of the batch: a subsequence of the batch holding each entry whose key was absent as often as the batch does, and nothing else |
| DashboardMain.AppendNewKeepsKeysUnique | src/components/dashboard/DashboardMain.tsx:214-220 | with unique keys before and within the batch, keys stay unique |
| DashboardMain.BatchKeepsInnerDuplicates | src/components/dashboard/DashboardMain.tsx:214-220 | the same job twice in one batch is added twice, breaking key uniqueness |
| DashboardMain.BatchListings | src/components/dashboard/DashboardMain.tsx:199-212 | each job becomes a 'temp-' listing built from it with its own random draw |
| DashboardMain.StatusCallFor | src/components/dashboard/DashboardMain.tsx:278-306 | a promotion happens exactly for a listing id found in the listings, a signed-in user and the status 'APPLIED'; everything else is a status update |
| DashboardMain.PromotionKeepsListing | src/components/dashboard/DashboardMain.tsx:284-294 | the promoted application carries the listing's company, position, description, notes and url, with a status the pending counter ignores |
| DashboardMain.QuickApplyNeverPromotes | src/components/dashboard/DashboardMain.tsx:282 | quick apply's lower-case 'applied' never promotes a listing |
| DashboardMain.Dashboard.Stats | src/components/dashboard/DashboardMain.tsx:89-102 | the counters are sums over applications and listings |
| DashboardMain.Dashboard.LoadApplications | src/components/dashboard/DashboardMain.tsx:103-122 | no user changes nothing; when both fetches of the `Promise.all` resolve the applications are replaced and the error cleared; when either rejects they are kept and the message shown; loading ends false |
| DashboardMain.Dashboard.LoadSelectedJobsFromWorkflow | src/components/dashboard/DashboardMain.tsx:57-87 | the handed-over jobs are appended once and the entry cleared; an absent or unparsable entry changes nothing |
| DashboardMain.Dashboard.SaveJobFromSearch | src/components/dashboard/DashboardMain.tsx:170-195 | the listings become the append-if-new of the saved job; unique keys stay unique |
| DashboardMain.Dashboard.SaveMultipleJobsFromSearch | src/components/dashboard/DashboardMain.tsx:197-223 | the listings gain the batch entries whose key was absent |
| DashboardMain.Dashboard.AddApplicationClicked | src/components/dashboard/DashboardMain.tsx:122-125 | the modal opens with nothing being edited |
| DashboardMain.Dashboard.EditApplication | src/components/dashboard/DashboardMain.tsx:237-240 | the modal opens on the chosen application |
| DashboardMain.Dashboard.SaveApplication | src/components/dashboard/DashboardMain.tsx:242-259 | an update while editing, else an add; on success the modal closes and the list reloads; on failure the error shows and the modal stays |
| DashboardMain.Dashboard.DeleteApplication | src/components/dashboard/DashboardMain.tsx:261-274 | nothing without confirmation; the id is sent; a failed delete shows its error; a successful one reloads, with both reload outcomes, the no-user case and the final loading flag stated; listings are untouched |
| DashboardMain.Dashboard.UpdateApplicationStatus | src/components/dashboard/DashboardMain.tsx:274-312 | the call issued is the one `StatusCallFor` chooses; a successful promotion removes the listing; a failure keeps both lists; both reload outcomes, the no-user case and the loading flag are stated |
| DashboardMainNew.MergeSpec | src/components/dashboard/DashboardMainNew.tsx:299-301 | the spread keeps what the patch omits, takes what it carries, and is idempotent |
| DashboardMainNew.MergeEdited | src/components/dashboard/DashboardMainNew.tsx:299-301 | records with the edited id are merged, all others kept, and the length is unchanged |
| DashboardMainNew.MergeEditedAbsent | src/components/dashboard/DashboardMainNew.tsx:299-301 | editing an id no record has leaves the list unchanged |
| DashboardMainNew.CityWithoutStateFallsBack | src/components/dashboard/DashboardMainNew.tsx:195 | a city without a state is dropped from the location in favour of the country |
| DashboardMainNew.NotesDiffer | src/components/dashboard/DashboardMainNew.tsx:194-196 | the batch notes are a proper prefix of the single-save notes |
| DashboardMainNew.SuccessesFromDone | src/components/dashboard/DashboardMainNew.tsx:252-257 | every saved record comes from a resolved call; no resolved call, no saved record |
| DashboardMainNew.SaveEach | src/components/dashboard/DashboardMainNew.tsx:234-259 | one call per job in order with the batch notes; the saved records are the resolved ones in order; saved + errors = jobs |
| DashboardMainNew.DeleteAbsentIdDrifts | src/components/dashboard/DashboardMainNew.tsx:341-345 | deleting an absent id keeps the list but still lowers the total, so the two drift apart |
| DashboardMainNew.DeleteUniqueIdTracks | src/components/dashboard/DashboardMainNew.tsx:341-345 | deleting the one record with an id keeps total and list length equal |
| DashboardMainNew.Dashboard.LoadApplications | src/components/dashboard/DashboardMainNew.tsx:75-95 | success replaces list and counters; failure keeps both and shows the message; loading ends false |
| DashboardMainNew.Dashboard.SaveJobFromSearch | src/components/dashboard/DashboardMainNew.tsx:171-220 | nothing without a user; the data sent; success puts the record first and raises the total by one; total and length stay in step |
| DashboardMainNew.Dashboard.SaveMultipleJobsFromSearch | src/components/dashboard/DashboardMainNew.tsx:220-281 | the resolved records go in front in call order, the total grows by their number, and total and length stay in step |
| DashboardMainNew.Dashboard.AddApplicationClicked | src/components/dashboard/DashboardMainNew.tsx:96-99 | the modal opens with nothing being edited |
| DashboardMainNew.Dashboard.EditApplication | src/components/dashboard/DashboardMainNew.tsx:283-286 | the modal opens on the chosen application |
| DashboardMainNew.Dashboard.SaveApplication | src/components/dashboard/DashboardMainNew.tsx:288-324 | the call issued is the update of the edited id or the add for the user, with the form data; an edit merges the returned fields into the edited records; an add goes first and raises the total; a failure changes only the error |
| DashboardMainNew.Dashboard.DeleteApplicationClicked | src/components/dashboard/DashboardMainNew.tsx:326-333 | only the confirmation dialog opens, targeting the id |
| DashboardMainNew.Dashboard.ConfirmDeleteApplication | src/components/dashboard/DashboardMainNew.tsx:335-355 | the id deleted is the one the dialog was opened for; the dialog closes either way; success removes that id and lowers the total floored at 0 |
| DashboardMainNew.Dashboard.UpdateApplicationStatus | src/components/dashboard/DashboardMainNew.tsx:360-378 | nothing without a user; the update is sent; a failed send keeps list, counters and loading and shows the error; otherwise a reload replaces list and counters, or keeps them with its error, and loading ends false |
| EnvironmentValidator.IsMissingIff | src/utils/environmentValidator.ts:44 | a value counts as missing exactly when it is all whitespace |
| EnvironmentValidator.MissingFirebase | src/utils/environmentValidator.ts:43-45 | a name is reported exactly when some Firebase entry with that key is missing |
| EnvironmentValidator.MissingSplit | src/utils/environmentValidator.ts:43-50 | both reports of a concatenation are the concatenation of the reports, so names come in entry order |
| EnvironmentValidator.MissingSingle | src/utils/environmentValidator.ts:43-50 | a single entry is reported, under its Firebase or JSearch name, exactly when it is missing |
| EnvironmentValidator.MissingJSearch | src/utils/environmentValidator.ts:48-50 | a name is reported exactly when some JSearch entry with that key is missing |
| EnvironmentValidator.ValidateEnvironment | src/utils/environmentValidator.ts:28-61 | success exactly when nothing is missing, returning the configuration; otherwise the message listing the missing names |
| EnvironmentValidator.NoneMissingIff | src/utils/environmentValidator.ts:43-52 | no name is reported exactly when no entry is missing |
| EnvironmentValidator.ValidateOkIff | src/utils/environmentValidator.ts:28-61 | validation succeeds exactly when none of the nine settings is blank |
| EnvironmentValidator.HostDefault | src/utils/environmentValidator.ts:38-50 | an unset or empty host falls back to the default, which is never missing; any non-empty whitespace-only host is kept and reported |
| EnvironmentValidator.FirebaseNamesDifferFromRead | src/utils/environmentValidator.ts:30-45 | the reported Firebase names (e.g. VITE_FIREBASE_APIKEY) are not the variables read (VITE_FIREBASE_API_KEY) |
| EnvironmentValidator.MissingMessage | src/utils/environmentValidator.ts:54-58 | the error message starts with "Missing required environment variables: " |
| EnvironmentValidator.MessageListsMissing | src/utils/environmentValidator.ts:54-58 | the message contains every missing name and ends with the advice suffix; one name stands alone between prefix and suffix, and each further one follows ", " |
| JsStrings.JoinAppend | src/utils/environmentValidator.ts:56 | joining one more part adds the separator and that part at the end |
| JsStrings.JoinHoldsParts | src/utils/environmentValidator.ts:56 | every part occurs in the joined string |
| EnvironmentValidator.LogEnvironmentStatus | src/utils/environmentValidator.ts:67-82 | the status reports an error exactly when validation fails, with its message |
| EnvironmentValidator.StatusNeverShowsMissingKey | src/utils/environmentValidator.ts:67-82 | a configured status never shows the "MISSING" key marker |
| ApiErrorUtils.CreateApiError | src/utils/apiErrorUtils.ts:8-21 | the error carries the message, endpoint, parameters, status and data it was given |
| ApiErrorUtils.HandleApiError | src/utils/apiErrorUtils.ts:26-70 | the thrown error is the one the precedence CORS, JSON message, JSON error, text, default selects |
| ApiErrorUtils.MessagePrecedence | src/utils/apiErrorUtils.ts:31-69 | each rung of the precedence, and the status code of a non-CORS error |
| ApiErrorUtils.CorsIgnoresBody | src/utils/apiErrorUtils.ts:34-43 | a CORS failure is reported with status 0 whatever the body says |
| ApiErrorUtils.DefaultMessageNamesStatus | src/utils/apiErrorUtils.ts:31 | different statuses give different default messages |
| ApiErrorUtils.Route | src/utils/apiErrorUtils.ts:88-111 | a TypeError mentioning NetworkError becomes the network error with status 0 |
| ApiErrorUtils.FetchWithErrorHandling | src/utils/apiErrorUtils.ts:75-112 | a successful JSON response is returned; every error raised names the endpoint and parameters |
| ApiErrorUtils.FailedResponseRethrown | src/utils/apiErrorUtils.ts:83-103 | with a non-empty endpoint, a failed response reaches the caller as the error the classifier built |
| ApiErrorUtils.EmptyEndpointLosesStatus | src/utils/apiErrorUtils.ts:100-110 | with an empty endpoint the error is wrapped again and loses its status and data |
| ApiErrorUtils.NetworkErrorClassification | src/utils/apiErrorUtils.ts:89-110 | only a TypeError mentioning NetworkError is a network error; any other is wrapped with its message |
| Profiles.GetUserProfile | src/services/supabaseProfileService.ts:32-49 | null exactly for the "no row" code, the row when there is one, and one generic error otherwise (profileService.ts:116-144 is the same code) |
| Profiles.NonEmptyTexts | src/services/supabaseProfileService.ts:57-78 | exactly the non-empty text fields are kept, with their values |
| Profiles.TextOr | src/services/profileService.ts:299-312 | a non-empty column's text, otherwise the fallback |
| SupabaseProfileService.CreateProfileRow | src/services/supabaseProfileService.ts:54-80 | id and email as given, falsy text fields and job preferences null, years defaulting to 0, willingness true only when given true |
| SupabaseProfileService.CreateProfile | src/services/supabaseProfileService.ts:52-94 | the row inserted is `CreateProfileRow` of the arguments; the call returns the inserted row on success and 'Failed to create user profile' on failure |
| SupabaseProfileService.WithoutSkillSpec | src/services/supabaseProfileService.ts:212 | removal drops every occurrence, keeps the rest, and keeps a duplicate-free list so |
| SupabaseProfileService.WithoutSkillCount | src/services/supabaseProfileService.ts:212 | every other skill is kept as often as it occurs, and the removed one is gone |
| SupabaseProfileService.WithoutSkillSplit | src/services/supabaseProfileService.ts:212 | filtering a concatenation filters each part, so the kept skills stay in order |
| SupabaseProfileService.RemoveAfterAdd | src/services/supabaseProfileService.ts:193-212 | adding a new skill and then removing it gives back the original list |
| SupabaseProfileService.RemoveIsIdempotent | src/services/supabaseProfileService.ts:212 | removing a skill twice is removing it once |
| SupabaseProfileService.AppendKeepsNoDuplicates | src/services/supabaseProfileService.ts:194-195 | pushing an absent skill keeps the list free of duplicates |
| SupabaseProfileService.AddSkill | src/services/supabaseProfileService.ts:188-203 | a present skill returns the profile with no write; a new one is appended and the list sent; every failure reads 'Failed to add skill' |
| SupabaseProfileService.RemoveSkill | src/services/supabaseProfileService.ts:206-218 | the filtered list is always sent; failures read 'Failed to remove skill' |
| SupabaseProfileService.RemoveAbsentSkillStillWrites | src/services/supabaseProfileService.ts:206-218 | removing an absent skill still writes the unchanged list |
| SupabaseProfileService.GetOrCreateProfile | src/services/supabaseProfileService.ts:221-236 | an existing profile is returned without a write; only "no row" creates one with the given name; other errors are the load error |
| SupabaseProfileService.NamelessProfileHasNullName | src/services/supabaseProfileService.ts:226-228 | without a name the `\|\| ''` default is undone and the row's full name is null |
| ProfileService.DefaultProfileData | src/services/profileService.ts:163-187 | the default record: the display name or null, years 0, willingness false, everything else null |
| ProfileService.SaveUserProfile | src/services/profileService.ts:197-223 | the upsert carries id, data and time stamp; failure reads 'Failed to save user profile' |
| ProfileService.GetOrCreateProfile | src/services/profileService.ts:147-194 | an existing profile is returned without a write; only "no row" upserts the default; every failure reads 'Failed to get or create user profile' |
| ProfileService.ConvertSpec | src/services/profileService.ts:299-312 | each of the eight text fields of the form (full name, phone, location, LinkedIn url, street address, visa type, expected salary, availability) holds its column's text, or "" for a null column; the location fills both location and street address; willingness is copied |
| ProfileService.DefaultProfileShowsName | src/services/profileService.ts:163-164 | a default profile made with a display name shows that name in the form |
| TavusContext.TavusState.ConversationUrl | src/contexts/TavusContext.tsx:61-63 | the url, or null when there is no conversation or the url is empty |
| TavusContext.TavusState.ConversationId | src/contexts/TavusContext.tsx:65-67 | the id, or null when there is no conversation or the id is empty |
| TavusContext.TavusState.ResetConversation | src/contexts/TavusContext.tsx:69-75 | the five call fields return to their initial values; settings and caller name are kept |
| TavusContext.UseTavus | src/contexts/TavusContext.tsx:104-110 | the context inside a provider, and the error 'useTavus must be used within a TavusProvider' outside one |
| TavusContext.DefaultSettingsValues | src/contexts/TavusContext.tsx:45-59 | default settings: 30-minute calls, 60 s and 300 s timeouts, no recording, captions on |
| TavusConversation.TransitionsKeepConsistent | src/components/dashboard/TavusConversation.tsx:48-106 | every transition keeps "in a call implies a conversation exists" |
| TavusConversation.JoinSpec | src/components/dashboard/TavusConversation.tsx:72-77 | joining enters the call exactly with a non-empty url; otherwise nothing changes; joining twice is joining once |
| TavusConversation.TogglesAreInvolutions | src/components/dashboard/TavusConversation.tsx:79-85 | each toggle undoes itself and always changes its flag; mute and video commute |
| TavusConversation.EndSpec | src/components/dashboard/TavusConversation.tsx:58-70 | ending leaves no conversation and no call, keeps mute and video, and cannot be rejoined |
| TavusConversation.CreateJoinLeave | src/components/dashboard/TavusConversation.tsx:37-123 | a created conversation with a url can be joined, and leaving then gives the pre-creation state minus its conversation |
| TavusConversation.UpdaterChangesOneField | src/components/dashboard/TavusConversation.tsx:88-106 | each settings updater sets its own field and copies the rest |
| TavusConversation.ConversationPanel.CreateConversation | src/components/dashboard/TavusConversation.tsx:37-56 | no API key: only the error set; otherwise the settings sent, success stores the conversation, failure shows the message; isCreating ends false |
| TavusConversation.ConversationPanel.EndConversation | src/components/dashboard/TavusConversation.tsx:58-70 | no conversation: no-op; success ends the call; failure sets only the error |
| TavusConversation.ConversationPanel.JoinConversation | src/components/dashboard/TavusConversation.tsx:72-77 | the join transition on the shared state |
| TavusConversation.ConversationPanel.ToggleVideo | src/components/dashboard/TavusConversation.tsx:79-81 | only the video flag flips |
| TavusConversation.ConversationPanel.ToggleMute | src/components/dashboard/TavusConversation.tsx:83-85 | only the mute flag flips |
| TavusConversation.ConversationPanel.ToggleControls | src/components/dashboard/TavusConversation.tsx:225 | only the controls flag flips |
| TavusConversation.ConversationPanel.UpdateSettings | src/components/dashboard/TavusConversation.tsx:88-106 | the settings become the updated settings; the call state is untouched |
| TavusConversation.ConversationPanel.LeaveCall | src/components/dashboard/TavusConversation.tsx:108-123 | the end request only for a conversation; whatever it returns, the call is ended |
| VerifyPhone.SubmissionError | src/components/auth/VerifyPhone.tsx:19-24 | no user: 'No user found'; with a user, accepted exactly when the code has 6 characters |
| VerifyPhone.AnySixCharactersAccepted | src/components/auth/VerifyPhone.tsx:21-27 | "abcdef" passes as well as "123456"; 5 or 7 characters fail |
| VerifyPhone.VerifyPhoneForm.HandleSubmit | src/components/auth/VerifyPhone.tsx:13-34 | the error ends as the failed check's message or empty; loading ends false; the code is kept |

## Left out

- Browser effects, which are not state the model reasons about: `alert`, toasts, `window.open` (modelled only as the url it would open), `scrollTo`, `confirm` (modelled as a boolean parameter), the iframe `src`, console logging, and navigation to the login page.
- Local storage is a field (`handoff`), and JSON parsing collapses into `Unparsable`; the shape of the stored JSON is not modelled.
- Case conversion covers ASCII letters only. JavaScript's Unicode case mapping and UTF-16 string lengths are not modelled.
- DashboardMain's fetched statistics value is not modelled: the effect at DashboardMain.tsx:89-102 recomputes the counters from both lists after every change, so `Stats()` is derived and the fetched value is never visible. Whether that fetch fails still matters: `LoadApplications` takes one outcome for the `Promise.all` of both fetches, `Failed` when either rejects, so a rejected statistics fetch keeps the list and shows its message as the source does.
- The search, search-form and clear-search handlers and the profile/preferences modal toggles of both dashboards: they only set UI fields or call the job-search service.
- The text `<<<<<<<`/`>>>>>>>` merge-conflict fragment in DashboardMain.tsx:132-137 is not modelled; the model assumes the handler it encloses.
- `updateProfile`, `uploadResume` and `deleteProfile` in profileService.ts, and the corresponding update/delete/upload calls of supabaseProfileService.ts other than skills: they forward to the store without logic of their own.
- The resume and cover-letter urls, `last_updated`, and `job_preferences` (an opaque value carried unchanged) are not tracked.
- The profile form fields the conversion leaves undefined.
- `ApiErrorUtils.HandleApiError`: a real response body can be read only once, so `text()` after a failed `json()` would itself fail. The model takes the outcome of `text()` as a parameter and does not model the consumed body.
- The date formatting of the table and carousel, and the `toISOString` clock, are parameters.
- `VerifyPhone.VerifyPhoneForm.HandleSubmit`: the resend-code handler and the auth hook are not modelled; whether a user is signed in is a parameter.
- `CreateConversation`: the create button is disabled while `isCreating` or with an empty conversation name (TavusConversation.tsx:392); the handler itself does not check the name, and the model accepts an empty one as the handler does.
- `WorkflowListings` and `BatchListings` take one clock value for the whole hand-off or batch, while the source reads `Date.now()` and `new Date()` again for each job; ids and time stamps within one call may differ in the source by the milliseconds that pass.
- `ProfileData`: an explicit `null` and an absent key are one value, so the difference they make to `{ ...profileData }` in an upsert or update is not modelled.
- `TavusConversation.ConversationPanel`: the ready screen (`isReady`) and the effect that sets the iframe source are not modelled.
- App.tsx routing, the marketing pages, the mock-interview pages and the Tavus, JSearch and job-preferences services (outside this model; their outcomes are parameters).
