# PR-Tracker core, modelled in Dafny

PR-Tracker is a Next.js application for tracking pull requests on a Kanban
board. This project models its core and proves properties of the model:

- **Server side.**
  - The data-access layer for PRs, with its 60-second read cache (`lib/queries.ts`).
  - Request authentication (`lib/auth.ts`).
  - The route handlers for sign-up, log-in and session (`app/api/auth`).
  - PR create, read, update and delete (`app/api/prs`).
  - Workspaces (`app/api/workspaces`).
  - Shareable board links (`app/api/share`).
  - The form defaults (`app/api/defaults`).
- **Client side.**
  - The reminder scheduler (`lib/scheduler.ts`).
  - The board's local copy in browser storage (`lib/data.ts`).
  - The board's filtering, counting and drag-and-drop (`components/board/Board.tsx`).
  - The browser JSON cache (`lib/clientCache.ts`).
  - The "Add Pull Request" dialog (`components/pr/PRModal.tsx`).
  - The settings page's defaults and workspace manager (`app/settings/page.tsx`).
  - The priority badge (`components/ui/PriorityTag.tsx`).

There is one module per source file. Each module is in a `.dfy` file of the
same name, and `common.dfy` holds the shared types (`lib/types.ts`) plus the
JavaScript built-ins the code relies on. Stored collections are `seq` fields
of classes whose methods update them, as the handlers update the database:

- `PRRepository` holds the PR documents and the read cache.
- `UserCollection`, `WorkspaceCollection`, `ShareLinks` and `DefaultsStore`
  hold the other collections.

Client state is a class too: `SchedulerService`, `BrowserStore`, `JsonCache`,
`PRModal` and `SettingsPage` keep the fields or component state the source
updates. Parameters stand in for everything outside the program:

- the clock;
- random ids and tokens;
- the bcrypt and JWT functions;
- the answers of network requests;
- the statuses the pages receive.

A handler's caller is the result of `Auth.VerifyAuth`.

A few answers of the code that the contracts state as they are:

- DELETE `/api/prs` answers 200 `{ success: true }`.
- PATCH `/api/prs` on an id the caller does not own answers 200 `{ pr: null }`.
- Sign-up answers 200.
- The dialog's reset after a submit clears the project and the author; it does not restore "General" and "Shubham".

## Model

| member | source | states |
|---|---|---|
| Common.SkipSpace | app/api/prs/route.ts:46 | The first index at or after `i` that is not white space, or the length when there is none; everything skipped is white space. |
| Common.SkipSpaceBack | app/api/prs/route.ts:46 | The index just after the last non-space character before `j`, or 0; everything skipped is white space. |
| Common.Trim | app/api/prs/route.ts:46 | The trimmed string is empty or starts and ends with a non-space character. |
| Common.TrimIsInnerSlice | app/api/prs/route.ts:46 | `s.trim()` is a slice of `s` with only white space before and after it. |
| Common.TrimEmptyIffAllSpace | components/pr/PRModal.tsx:221 | `s.trim()` is empty exactly when every character of `s` is white space. |
| Common.FindIndex | components/board/Board.tsx:32 | The first index whose element satisfies the predicate, or -1 when none does. |
| Common.Dedup | app/settings/page.tsx:380 | `Array.from(new Set(s))` has no duplicates and the same members as `s`. |
| Common.DedupSnoc | app/settings/page.tsx:380-381 | Adding through a Set to a duplicate-free list appends the name, or keeps the list when the name is already there. |
| Common.DedupOfDistinct | app/settings/page.tsx:380 | A duplicate-free list passes through the Set unchanged. |
| Auth.FindUserById | lib/auth.ts:32-36 | `User.findById` finds a stored user with that id, or None exactly when no user has it. |
| Auth.IdentityOf | lib/auth.ts:38-44 | The authenticated user carries the id, email, name, avatar and preferences of the stored user, and nothing else. |
| Auth.VerifyAuth | lib/auth.ts:20-49 | An identity is returned exactly when the cookie is present and non-empty, its token verifies, and a user with the token's id exists; it is that user's identity. |
| Auth.CreateAuthResponse | lib/auth.ts:51-59 | An `{ error }` response with the message and the status, 401 unless another status is given. |
| AuthRoute.FindByEmail | app/api/auth/route.ts:32 | -1 exactly when no user has the email; otherwise the position of a user that has it. |
| AuthRoute.NewUser | app/api/auth/route.ts:41-48 | The stored user has the hashed password, the trimmed name, is verified, has no avatar or last login, and has the default preferences (models/User.ts). |
| AuthRoute.Authenticate | app/api/auth/route.ts:81-96 | The user a log-in accepts has the email and a password that matches. |
| AuthRoute.AuthenticateFailsOnlyWithoutMatch | app/api/auth/route.ts:81-96 | With unique emails, a log-in fails exactly when no user has both that email and a matching password. |
| AuthRoute.SignupThenLogin | app/api/auth/route.ts:40-96 | A user who signed up logs in with the same password. |
| AuthRoute.Session | app/api/auth/route.ts:149-192 | GET answers 401 "No authentication token found" without a cookie and 401 "Invalid or expired token" when the token does not verify; it only ever answers 200 or 401. |
| AuthRoute.SessionAgreesWithVerifyAuth | app/api/auth/route.ts:149-192 | GET succeeds exactly when request authentication does, and reports the same user. |
| AuthRoute.Logout | app/api/auth/route.ts:195-210 | DELETE answers 200 and sets an empty cookie with max-age 0. |
| AuthRoute.UserCollection.Post | app/api/auth/route.ts:9-146 | Covers every branch: a missing email or password gets 400; sign-up gets 400 without a name, 409 when the email is taken, 500 on schema failure, and otherwise one new user plus a 7-day cookie; log-in gets the same 401 for an unknown email and a wrong password, and otherwise sets lastLogin and a cookie; any other action gets 400. Unique ids and emails are kept. |
| Queries.MapDoc | lib/queries.ts:30-47 | The API record uses the document's `id`, or its `_id` when `id` is empty, and carries status and content field for field. |
| Queries.MapDocs | lib/queries.ts:66 | Maps each document in order. |
| Queries.Sanitize | lib/queries.ts:52-55 | A filter field enters the query condition exactly when it is truthy, and with its value. |
| Queries.Matches | lib/queries.ts:53-55 | A document satisfies the condition when it equals each field the condition holds: project, status name and owner. |
| Queries.Select | lib/queries.ts:63 | `PR.find(cond)` returns exactly the stored documents that match the condition. |
| Queries.SelectAppend | lib/queries.ts:63 | Selection distributes over concatenation, so the listing keeps the collection order. |
| Queries.EmptyFilterSelectsAll | lib/queries.ts:51-55 | An empty filter lists the whole collection. |
| Queries.OwnerScopedSelect | lib/queries.ts:55 | A listing filtered by an owner holds only that owner's documents. |
| Queries.NewDoc | lib/queries.ts:71-79 | The inserted document has the supplied id, or else the generated one; the supplied status, or else `initial`; the owner only when truthy; and the body's content. |
| Queries.InsertableAsWritten | models/PR.ts:11-26 | The schema as written: title, project and author are required for every PR, each link needs a url (models/PR.ts:5), and the id must be new. |
| Queries.Insertable | models/PR.ts:11-26 | The corrected schema the store uses: title and author are required, a project only for a project-type PR, each link needs a url, and the id must be new. |
| Queries.ApplyPatch | lib/queries.ts:92 | Each of the thirteen fields the update supplies (status and the twelve content fields) replaces the stored one, and each it leaves out keeps its stored value; id, `_id` and owner stay. |
| Queries.EmptyPatchIsIdentity | lib/queries.ts:92 | An update that sets nothing changes nothing. |
| Queries.IdOwnerMatch | lib/queries.ts:91 | The query `{ id, userId }` when a user is given, `{ id }` otherwise (also lib/queries.ts:109). |
| Queries.FindTarget | lib/queries.ts:91-92 | The document matched by `{ id, userId }` (or by `{ id }` alone when there is no user), or -1 when none matches. |
| Queries.MoveToFrontKeepsIdsUnique | lib/queries.ts:92 | Moving the updated document to the front keeps the unique `id` index. |
| Queries.RemoveKeepsIdsUnique | lib/queries.ts:110 | Removing a document keeps the unique `id` index. |
| Queries.CreatedPRIsListedFirst | lib/queries.ts:69-86 | After a create, the owner's listing starts with the new PR. |
| Queries.PRRepository.GetPRs | lib/queries.ts:49-67 | The listing is always the current store result for the sanitized filter, whether served from the cache or read; a miss or stale entry stores the fresh result stamped `now`. |
| Queries.PRRepository.CreatePR | lib/queries.ts:69-86 | The new document goes in front and the cache is cleared, or the insert fails (`Insertable` does not hold: title or author empty, a project-type PR without a project, a link without a url, a taken id) and nothing changes. |
| Queries.PRRepository.UpdatePR | lib/queries.ts:88-97 | The matched document is patched and moved to the front, and the cache is cleared; null and no change when nothing matches. |
| Queries.PRRepository.UpdatePRStatus | lib/queries.ts:99-104 | Sets the status of the document with that id, whoever owns it; the cache is cleared. |
| Queries.PRRepository.DeletePR | lib/queries.ts:106-112 | Removes the matched document, if any; every other document stays; the cache is cleared. |
| PrsRoute.CategoryError | app/api/prs/route.ts:46-52 | 400 for a project-type PR whose project trims to empty, and for a service-type PR whose service is missing or trims to empty; otherwise none. |
| PrsRoute.Stamped | app/api/prs/route.ts:55 | `{ ...body, userId: user.id }` replaces the owner with the caller and keeps the rest. |
| PrsRoute.StoredOwnerIsCaller | app/api/prs/route.ts:55-59 | Whatever owner the body names, the stored PR belongs to the caller. |
| PrsRoute.Get | app/api/prs/route.ts:9-32 | 401 without a caller; otherwise the caller's PRs narrowed by project and status, and every listed PR is one of the caller's. |
| PrsRoute.ServicePRRefusedAsWritten | app/api/prs/route.ts:54-66 | As written, a service-type PR with a non-blank service and an empty project passes the category check and the schema refuses it. |
| PrsRoute.ValidatedPRInsertable | app/api/prs/route.ts:45-66 | With the corrected schema, a PR that passes the category check is refused only for an empty title or author, a link without a url, or a taken id. |
| PrsRoute.Post | app/api/prs/route.ts:34-68 | 401 without a caller, 400 on a category error, 201 with the created PR, or 500 when the store refuses it. |
| PrsRoute.Patch | app/api/prs/route.ts:70-93 | 401 without a caller; otherwise the caller's PR with that id is updated (200 with it), or 200 with null when the caller has none; only the caller's PR can change. |
| PrsRoute.Delete | app/api/prs/route.ts:95-118 | 401 without a caller, 400 without an id; otherwise the caller's PR is removed, if any, with 200 `{ success: true }`; other users' PRs stay. |
| WorkspacesRoute.NameLeTotal | app/api/workspaces/route.ts:29 | The name order is total. |
| WorkspacesRoute.Insert | app/api/workspaces/route.ts:29 | Inserting into a name-sorted list keeps it sorted and adds exactly that workspace. |
| WorkspacesRoute.SortByName | app/api/workspaces/route.ts:29 | `.sort({ name: 1 })` returns a name-sorted permutation. |
| WorkspacesRoute.OwnedOf | app/api/workspaces/route.ts:24-29 | Exactly the workspaces of the user, and of the kind when one is given. |
| WorkspacesRoute.InUseCount | app/api/workspaces/route.ts:78-81 | The count of referencing PRs is at most the number of PRs. |
| WorkspacesRoute.InUseIffReferenced | app/api/workspaces/route.ts:78-82 | The in-use guard fires exactly when one of the user's PRs names the workspace, by project or by service according to its kind. |
| WorkspacesRoute.AppendKeepsTriplesUnique | models/Workspace.ts:13 | Adding a new workspace keeps the unique (user, type, name) index. |
| WorkspacesRoute.WorkspaceCollection.Get | app/api/workspaces/route.ts:9-32 | 401 without a caller; otherwise exactly the caller's workspaces of the kind, sorted by name. |
| WorkspacesRoute.WorkspaceCollection.Post | app/api/workspaces/route.ts:34-59 | 401 without a caller, 400 on a missing field, 500 for an unknown kind or a blank name, 409 for an existing triple, or 201 with the trimmed workspace appended; the index stays unique. |
| WorkspacesRoute.WorkspaceCollection.Delete | app/api/workspaces/route.ts:61-91 | 401 without a caller, 400 on a missing field, 409 while a PR references it, 404 when absent, or 204 with exactly that workspace removed. |
| ShareRoute.NewLink | app/api/share/route.ts:33-45 | The link has the token, the caller as owner, expiry seven days after creation, the title "<name>'s PR Board Report", zero accesses, and is active. |
| ShareRoute.ShareUrl | app/api/share/route.ts:51 | The configured application URL, or `http://localhost:3000` when there is none, followed by `/share/<token>`. |
| ShareRoute.Live | app/api/share/route.ts:73-77 | A link resolves when its token matches, it is active, and it expires after now. |
| ShareRoute.NewLinkLiveForSevenDays | app/api/share/route.ts:36-37 | A new link resolves exactly until seven days have passed. |
| ShareRoute.Touched | app/api/share/route.ts:85-87 | Each access adds one to the counter and records its time; nothing else of the link changes. |
| ShareRoute.ShareLinks.Post | app/api/share/route.ts:22-60 | 401 without a caller, 500 when the token is taken, or one new link with its URL, token and expiry; tokens stay unique. |
| ShareRoute.ShareLinks.Get | app/api/share/route.ts:62-109 | 400 without a token, 404 when no link is live; otherwise the first live link's access is counted, then 500 if its owner is gone, or the report with all of the owner's PRs and the new count. |
| DefaultsRoute.UpdateOf | app/api/defaults/route.ts:15-20 | The update defines a field exactly when the body defines it, and then carries the body's value. |
| DefaultsRoute.OtherKeysIgnored | app/api/defaults/route.ts:15-20 | Keys other than the four defaults have no effect. |
| DefaultsRoute.BuildUpdate | app/api/defaults/route.ts:16-20 | Building the update field by field gives `UpdateOf(body)`. |
| DefaultsRoute.Merge | app/api/defaults/route.ts:21 | Each field the update defines replaces the stored one; the others stay. |
| DefaultsRoute.MergeIdempotent | app/api/defaults/route.ts:21 | Posting the same body twice equals posting it once. |
| DefaultsRoute.EmptyBodyChangesNothing | app/api/defaults/route.ts:15-21 | An empty body leaves the document as it was. |
| DefaultsRoute.DefaultsStore.Get | app/api/defaults/route.ts:6-10 | `{ defaults: doc }`, or `{ defaults: {} }` when there is no document. |
| DefaultsRoute.DefaultsStore.Post | app/api/defaults/route.ts:12-24 | The document becomes the old one (or an empty one, upserted) merged with the update, and is answered with 201. |
| Scheduler.DecimalString | lib/scheduler.ts:85 | `String(n)` is a non-empty string of digits. |
| Scheduler.ParseDecimalString | lib/scheduler.ts:85 | The decimal form of a clock reading reads back as that reading. |
| Scheduler.IdsOfDistinctTimesDiffer | lib/scheduler.ts:85 | Ids minted at different milliseconds differ. |
| Scheduler.PendingOf | lib/scheduler.ts:143-149 | Exactly the PRs with status initial, in review or approved. |
| Scheduler.GetPendingPRs | lib/scheduler.ts:142-161 | Exactly the pending PRs of the fetched list when the fetch is ok, else exactly those of the stored board, else none. |
| Scheduler.InWindow | lib/scheduler.ts:206 | The clock is at a reminder time: the same hour and at most five minutes away. |
| Scheduler.Due | lib/scheduler.ts:202-211 | A reminder is due when it is active, one of its times is in window, and it has not gone out today. |
| Scheduler.Step | lib/scheduler.ts:211-214 | A due reminder is marked as sent today; any other reminder is unchanged. |
| Scheduler.StepAll | lib/scheduler.ts:201-218 | Every reminder takes one step. |
| Scheduler.OneSend | lib/scheduler.ts:211-212 | One email with the pending PRs when the reminder is due and there are pending PRs, none otherwise. |
| Scheduler.SendsOf | lib/scheduler.ts:201-214 | The emails of one check, reminder by reminder, in order. |
| Scheduler.SendsOnlyToDue | lib/scheduler.ts:201-235 | A check sends at most one email per reminder, each to a due reminder's address and team, listing the pending PRs. |
| Scheduler.DueAtMostOncePerDay | lib/scheduler.ts:206-215 | However often the check runs in one day, a reminder is sent at most once, and not at all when it already went out that day. |
| Scheduler.NewReminder | lib/scheduler.ts:104-117 | The new reminder has id `daily_<ms>`, team "Team" by default, is active, was last sent today, and has the three daily times. |
| Scheduler.NotDueOnSetupDay | lib/scheduler.ts:111 | A new reminder never goes out on the day it was set up. |
| Scheduler.DailyWindowsDisjoint | lib/scheduler.ts:112-116 | The windows of the three daily times, five minutes either side, never overlap. |
| Scheduler.SchedulerService.ScheduleEmail | lib/scheduler.ts:84-102 | Appends one unsent schedule with id `schedule_<ms>` and returns that id. |
| Scheduler.SchedulerService.SetupDailyReminders | lib/scheduler.ts:104-126 | Appends the new reminder and returns its id. |
| Scheduler.SchedulerService.SendDailyReminder | lib/scheduler.ts:221-243 | Sends one email with the pending PRs, or none when there are none. |
| Scheduler.SchedulerService.CheckReminder | lib/scheduler.ts:202-217 | A reminder's turn makes one step and sends at most once, even when several of its times are in window. |
| Scheduler.SchedulerService.CheckAndSendDailyReminders | lib/scheduler.ts:196-219 | Every reminder steps in list order and the outbox gains exactly the due reminders' emails, in that order. |
| Scheduler.SchedulerService.GetSchedules | lib/scheduler.ts:255-257 | The current schedules. |
| Scheduler.SchedulerService.GetDailyReminders | lib/scheduler.ts:259-261 | The current daily reminders. |
| Scheduler.SchedulerService.DeleteSchedule | lib/scheduler.ts:263-271 | True exactly when a schedule has the id, and then the first one is removed; otherwise nothing changes. |
| Scheduler.SchedulerService.DeleteDailyReminder | lib/scheduler.ts:273-281 | True exactly when a reminder has the id, and then the first one is removed; otherwise nothing changes. |
| Scheduler.SchedulerService.ToggleDailyReminder | lib/scheduler.ts:283-291 | Flips `active` on the first reminder with the id and answers the new value; false and no change when there is none. |
| BoardData.DefaultColumnsCoverStatuses | lib/data.ts:5-11 | Every status has exactly one column, whose id is that status. |
| BoardData.ProjectNames | lib/data.ts:33 | The project of each PR, in order. |
| BoardData.Refs | lib/data.ts:34 | `{ name }` for each name, in order. |
| BoardData.ProjectsOf | lib/data.ts:33-34 | The saved project list has no duplicates and names exactly the projects of the PRs. |
| BoardData.Persisted | lib/data.ts:35 | The payload keeps columns and PRs and replaces the project list with the derived one. |
| BoardData.PersistedIgnoresProjects | lib/data.ts:33-35 | Saving ignores the project list it is given, and saving a saved payload stores the same thing. |
| BoardData.Upserted | lib/data.ts:41-43 | The PR replaces the first one with its id, or goes in front when none has it. |
| BoardData.UpsertKeepsIdsUnique | lib/data.ts:39-45 | On a list with unique ids an upsert keeps them unique, the upserted PR is the only one with its id, and every other PR stays. |
| BoardData.BrowserStore.LoadData | lib/data.ts:19-29 | The saved data set, or the shared empty one outside a browser or when nothing usable is stored. |
| BoardData.BrowserStore.SaveData | lib/data.ts:31-37 | Stores the payload in a browser; does nothing elsewhere. |
| BoardData.BrowserStore.UpsertPRAsWritten | lib/data.ts:39-45 | Stores the upserted data set; on the fallback path the shared empty data set is edited too. |
| BoardData.BrowserStore.UpsertPR | lib/data.ts:39-45 | Stores the same upserted data set and leaves the shared empty data set alone. |
| BoardData.EmptyDataSetLeak | lib/data.ts:13-27 | As written, after an upsert with nothing stored, a fallback load returns the upserted PR. |
| BoardData.EmptyDataSetStaysEmpty | lib/data.ts:13-27 | With the copy, the same sequence loads an empty board. |
| Board.Filtered | components/board/Board.tsx:18-21 | All PRs when there is no filter; otherwise exactly those of the filter project. |
| Board.FilteredKeepsOrder | components/board/Board.tsx:19 | Filtering distributes over concatenation, so it keeps the relative order. |
| Board.Count | components/board/Board.tsx:47 | A column count is zero exactly when no PR has that status. |
| Board.CountsCoverBoard | components/board/Board.tsx:45-47 | The five column counts add up to the number of PRs shown. |
| Board.CountAfterReplace | components/board/Board.tsx:36-38 | Replacing one PR moves its contribution from its old column to its new one. |
| Board.HandleDragEnd | components/board/Board.tsx:23-40 | No change when dropped outside, dropped in place, or when no PR has the id. Otherwise the first PR with the id takes the destination status, every other PR stays, the columns are kept and the project list is empty. |
| Board.DragMovesOneCard | components/board/Board.tsx:23-40 | Counted over all PRs, a move lowers its source column's count by one, raises the destination's by one, and leaves the rest. |
| ClientCache.StorageKey | lib/clientCache.ts:7 | The storage key is the prefix followed by the cache key. |
| ClientCache.StorageKeyInjective | lib/clientCache.ts:16 | Distinct cache keys never share a storage key. |
| ClientCache.Read | lib/clientCache.ts:13-22 | Outside a browser, an entry exactly when the map has the key, and then the map's entry; in a browser, exactly when the prefixed slot holds parsable text, and then the entry it holds. |
| ClientCache.ReadAfterWrite | lib/clientCache.ts:24-34 | A written entry reads back unchanged and every other key reads as before. |
| ClientCache.ReadAfterInvalidate | lib/clientCache.ts:36-46 | An invalidated key reads as absent and every other key reads as before. |
| ClientCache.JsonCache.ReadStorage | lib/clientCache.ts:13-22 | The entry under the key, as `Read` defines it. |
| ClientCache.JsonCache.WriteStorage | lib/clientCache.ts:24-34 | Writes the map outside a browser and the prefixed slot in one. |
| ClientCache.JsonCache.InvalidateCache | lib/clientCache.ts:36-46 | Removes the one key from where entries live. |
| ClientCache.Fresh | lib/clientCache.ts:50-53 | An entry is served when it is younger than the time-to-live. |
| ClientCache.JsonCache.CachedFetchJSON | lib/clientCache.ts:48-60 | A fresh entry answers without change. Otherwise a non-ok reply throws and writes nothing, and an ok reply is answered and stored, stamped with the time read before the fetch: exactly the url's map entry outside a browser, or exactly its storage slot in one, changes, so every other storage slot and every other key stay as they were. |
| WorkspaceLists.NonEmptyNames | components/pr/PRModal.tsx:45 | Exactly the non-empty names of the items. |
| WorkspaceLists.ServiceOptions | components/pr/PRModal.tsx:46-48 | The distinct non-empty names, without "". |
| WorkspaceLists.ProjectOptions | components/pr/PRModal.tsx:45-47 | "General" first, then the service-style list of project names. |
| WorkspaceLists.ProjectOptionsDistinctIff | components/pr/PRModal.tsx:47 | The project list repeats an entry exactly when a workspace is itself named "General". |
| PRModal.Blank | components/pr/PRModal.tsx:75-76 | `value \|\| undefined`: absent exactly for "". |
| PRModal.CanCreate | components/pr/PRModal.tsx:199 | The Create button is enabled when there is a title, and the project or service that the category needs. |
| PRModal.NewPR | components/pr/PRModal.tsx:63-79 | The PR has the new id and the form's fields. The project is set only for category project and the service only for category service (else ''). The author is the form's or "Shubham". The status is initial. There is one "PR Link" link exactly when a link is given. Blank dates are absent. |
| PRModal.CreatablePRNamesItsWorkspace | components/pr/PRModal.tsx:199 | A PR the Create button lets through has a title and names the project or service of its category. |
| PRModal.ClearedFormCannotCreate | components/pr/PRModal.tsx:83-94 | Neither the initial nor the reset form enables Create. |
| PRModal.PRModal.Open | components/pr/PRModal.tsx:26-59 | The set defaults prefill project, service and author. A successful listing replaces both lists, and the project resets to "General" when the project held before the prefill is not listed. |
| PRModal.PRModal.Submit | components/pr/PRModal.tsx:63-95 | Hands on `NewPR` of the form, then clears the form. |
| PRModal.PRModal.StartAddWorkspace | components/pr/PRModal.tsx:140 | Opens the add dialog for the kind with an empty name. |
| PRModal.PRModal.SaveWorkspace | components/pr/PRModal.tsx:219-252 | Closes the dialog. A failure other than 409 changes nothing else. Otherwise both lists are rebuilt and the trimmed name is selected for the kind. |
| PRModal.AddedNameIsOffered | components/pr/PRModal.tsx:226-246 | After a save, a name that the fresh listing holds is offered in the picker. |
| PRModal.ReopenAfterSubmitSelectsGeneral | components/pr/PRModal.tsx:84 | The cleared project is in no project list, so reopening after a submit selects "General" even when a default project is stored. |
| Settings.MergeDefaults | app/settings/page.tsx:20 | Each field the stored defaults carry replaces the form's value; the others stay. |
| Settings.BodyOf | app/settings/page.tsx:289 | Save Defaults sends all four fields. |
| Settings.MergeAgreesWithEndpoint | app/settings/page.tsx:20 | The page merges stored defaults the way the endpoint merges an update. |
| Settings.SaveThenLoadRoundTrip | app/settings/page.tsx:282-299 | Saving the form and reloading the page prefills the same form, whatever the document and the form held before. |
| Settings.Without | app/settings/page.tsx:322 | `filter(x => x !== name)` keeps exactly the other entries. |
| Settings.DeletableProjects | app/settings/page.tsx:314 | Every project but "General" gets a Delete button. |
| Settings.SettingsPage.Load | app/settings/page.tsx:14-36 | Stored defaults are merged into the form when the request succeeds, and both lists are rebuilt from the listings. |
| Settings.SettingsPage.DeleteProject | app/settings/page.tsx:315-326 | 409 alerts "in use" and keeps the list; another failure alerts "Delete failed"; success drops the name. "General" is never removed. |
| Settings.SettingsPage.DeleteService | app/settings/page.tsx:341-352 | Same outcomes as a project delete, for the service list. |
| Settings.SettingsPage.AddWorkspace | app/settings/page.tsx:372-385 | A failure other than 409 alerts and changes nothing. Otherwise the trimmed name joins the selected kind's list through a Set and the name field is cleared. |
| Settings.AddKeepsListDistinct | app/settings/page.tsx:380-381 | Adding through the Set keeps what was there, adds the name and leaves no duplicates. |
| Settings.AddBlankNameRefused | app/settings/page.tsx:372-385 | Against the workspace endpoint, a blank name is refused, alerts "Add failed", and lists nothing new. |
| PriorityTag.Parse | components/ui/PriorityTag.tsx:3-8 | The priority an own key of the configuration names, in both directions. |
| PriorityTag.ConfigHas | components/ui/PriorityTag.tsx:12 | The lookup finds a value: one of the four own keys, or a member every object inherits. |
| PriorityTag.ClassAttribute | components/ui/PriorityTag.tsx:16 | The badge's class: the fixed classes followed by the colour, or "undefined". |
| PriorityTag.ColorAsWritten | components/ui/PriorityTag.tsx:13 | `config.color` is defined exactly for the four own keys. |
| PriorityTag.SafePriorityAsWritten | components/ui/PriorityTag.tsx:12 | A missing or empty priority, or one the lookup does not find, becomes "medium". A priority the lookup finds, an inherited member included, is kept. |
| PriorityTag.Upper | components/ui/PriorityTag.tsx:17 | `toUpperCase` on one ASCII letter. |
| PriorityTag.LowerChar | components/ui/PriorityTag.tsx:17 | The inverse on ASCII capitals. |
| PriorityTag.Label | components/ui/PriorityTag.tsx:17 | The label is the priority with its first character upper-cased. |
| PriorityTag.LabelRoundTrip | components/ui/PriorityTag.tsx:17 | Lower-casing the label's first letter gives back the name. |
| PriorityTag.SafePriority | components/ui/PriorityTag.tsx:12 | The intended fallback: a configured priority is kept, anything else shows as medium. |
| PriorityTag.BadgeAlwaysConfigured | components/ui/PriorityTag.tsx:12-17 | With the intended fallback every badge has a configured colour and one of the four labels. |
| PriorityTag.AsWrittenAgreesOffInherited | components/ui/PriorityTag.tsx:12 | Off the inherited member names, the code and the intended fallback agree. |
| PriorityTag.InheritedKeyEscapesFallback | components/ui/PriorityTag.tsx:12-17 | As written, "toString" is kept: the badge reads "ToString" and its class ends in "undefined". |

## Left out

- Network, database and storage I/O become parameters or fields, as described above. A request that rejects at the network level is modelled like a non-ok answer. In two places the source treats a rejection differently: in `Settings.SettingsPage.Load` a rejected `/api/defaults` request jumps to the catch at app/settings/page.tsx:34 and skips both listings, where the model still rebuilds them; in `PRModal.PRModal.SaveWorkspace` a rejected listing request keeps the lists and the selection (components/pr/PRModal.tsx:249-251), where the model resets the lists to "General" and none and selects the name.
- Database connection failures, and the catch-all 500 paths that only they reach, are not modelled.
- Next.js `revalidate` and `revalidatePath`, and logging, are not modelled.
- Concurrency and interleaving of async handlers are not modelled: each operation runs to completion. The `cancelled` flag of the dialog's effect is left out for the same reason.
- `setInterval` and `setTimeout` in the scheduler are not modelled. `scheduleEmailReminder` and `sendEmailReminder` (`lib/scheduler.ts:163-193`) only run on a timer through the mailer, so they are left out.
- The mailer and the calendar are not modelled. The scheduler records what it would send in `outbox`. Whether delivery succeeded plays no part: a due reminder is marked sent either way, as in the source.
- Scheduler.SchedulerService.CheckAndSendDailyReminders: computes one pending-PR list per check. The source fetches it again for each due reminder, and those lists could differ.
- Calendar days are day numbers. Time zones, daylight saving and the ISO-string form of `lastSent` are not modelled.
- ShareRoute.NewLink: the expiry is a fixed seven days of milliseconds; the source's `setDate(getDate() + 7)` adds seven local calendar days, one hour more or less across a daylight-saving change.
- Saving the scheduler's lists to local storage after each change is not modelled.
- bcrypt hashing and comparison, JWT signing and verification, and random tokens are parameters. Token expiry is folded into `verify`.
- The email regex of models/User.ts is not modelled.
- The lower-casing and trimming of the email on save are not modelled: the stored email is the one sent. The name limit and the password minimum are checked in `SignupValid`.
- JSON `null` values and non-string field values are not modelled.
- PATCH bodies that carry fields outside the PR type (such as `userId`) are not modelled.
- The PR store keeps every field that createPR and updatePR are given, and keeps the owner as the caller's id string. Mongoose's strict mode, which drops the fields models/PR.ts does not declare (`userId`, `service`, `category`, `priority`, the scheduling fields), is not modelled. Neither is the ObjectId cast of the owner at lib/queries.ts:78, which the string filters at lib/queries.ts:55, 91 and 109 do not match. The owner scoping proved in `Queries.OwnerScopedSelect`, `PrsRoute.Get`, `PrsRoute.Patch`, `PrsRoute.Delete` and `WorkspacesRoute.InUseIffReferenced` holds for this store, not for what those two effects make of it.
- Documents whose status is outside the five columns are not modelled.
- Stored board data that parses to something other than a data set is not modelled.
- The settings page copies extra keys of the stored document (`_id`, `key`, timestamps) into its form state. These are not modelled; the endpoint ignores them (`DefaultsRoute.OtherKeysIgnored`).
- String order in `.sort({ name: 1 })` is code-point order; collation is not modelled.
- PriorityTag.Upper: only ASCII letters are upper-cased; Unicode case mapping beyond ASCII is not modelled.
- Local-storage quota errors, and `setItem` throwing (which the source ignores), are not modelled.
- `invalidateCache` is never called by the application. The dialog therefore keeps serving cached listings and defaults for five minutes after a change. `CachedFetchJSON`'s freshness rule states this; the pages' calls to it are not modelled.
- A PR created in the dialog is handed to the page's `onCreate`, which is not part of this model. `upsertPR` has no caller in the repository.
- Settings.AddBlankNameRefused: only the blank-name case is stated end to end. The non-blank case (the endpoint accepts the name and the page lists it) is not one method, because its proof over trimming twice is too costly. Its two halves are `WorkspacesRoute.WorkspaceCollection.Post` and `Settings.SettingsPage.AddWorkspace`.
- The rendering (JSX, styles) is not modelled, except the priority badge's class attribute and label.

## Findings

| source | as written | input that shows it | evidently intended | confidence | as-written member | corrected member |
|---|---|---|---|---|---|---|
| lib/data.ts:13-27, 39-45 | `loadData` returns the shared module object `emptyDataSet` when nothing usable is stored, and `upsertPR` edits `current.prs` in place, so the edit lands in `emptyDataSet.prs` | outside a browser: `upsertPR(pr)` then `loadData()` returns a board holding `pr` instead of an empty one (in a browser the leak shows at a later fallback load, once the slot is empty or corrupt again, and in any spread of `emptyDataSet`) | the fallback data set stays empty; the edit goes to a copy | not executed | BoardData.EmptyDataSetLeak | BoardData.EmptyDataSetStaysEmpty |
| components/ui/PriorityTag.tsx:12-17 | `priorityConfig[priority]` is a property read that also finds members every object inherits, so such a priority skips the fallback | `priority = "toString"`: the badge reads "ToString" and its class ends in "undefined" | any priority other than the four configured ones shows as medium | not executed | PriorityTag.InheritedKeyEscapesFallback | PriorityTag.BadgeAlwaysConfigured |
| app/api/prs/route.ts:45-66, models/PR.ts:15 | the category check requires a service name of a service-type PR and does not require a project of it, but the schema requires `project` for every PR. The dialog builds a service-type record with project `''` (components/pr/PRModal.tsx:67); a client that POSTs that shape passes the category check, `PR.create` (lib/queries.ts:82) refuses it, and the catch at app/api/prs/route.ts:64-66 answers 500. The dialog hands its record to the page, which keeps it in browser storage, so nothing in the UI sends such a POST today | POST `{ category: "service", service: "api", project: "", title: "t", author: "a" }`: the category check passes and the answer is 500 "Failed to create PR" | a service-type PR that passes the category check is stored and answered with 201; the schema requires a project only of a project-type PR | not executed | PrsRoute.ServicePRRefusedAsWritten | PrsRoute.ValidatedPRInsertable |
