# Yaya Labor: a verified model of the worker directory and its USSD dialog

Yaya Labor connects informal construction workers in Nairobi with
contractors. Workers register from any handset through a USSD dialog
(`*384*15667#`): they give a name, pick a skill and pick a location, and can
later view matching jobs or change their skill or location. Contractors post
jobs on the web. The server then matches each job with up to three available
workers who have that exact skill and location, stores one match row per
worker, and texts each of them a job alert by SMS.

This Dafny project models that core:

- `Schema`: the four tables (workers, jobs, matches, USSD sessions), their
  insert defaults, and the fixed skill, location and duration lists.
- `Storage`: the database as a value `Db`. Each query and write is a pure
  function on it, with the serial ids and the two uniqueness constraints
  (a worker's phone, a session's id). `Storage.Store` is the mutable store
  whose methods perform those writes in place. `Storage.Valid` is the
  store's invariant, and every write, handler and dialog step is proved to
  keep it.
- `Dialog` and `DialogLaws`: the USSD dialog. `Dialog.Handle` is one request
  as a transition on `Db`. `Dialog.UssdService` performs the same request
  step by step on a `Store`. `DialogLaws` proves what each step does.
- `Notification`: formatting the job alert, normalising the phone number,
  sending one alert or a batch, and marking a match notified.
- `Routes`: the HTTP handlers `GET /workers/count`, `POST /workers/register`,
  `POST /jobs`, `POST /ussd` and `POST /notifications/job-match/:matchId`.
  Each is a pure function and a method of `Routes.Api`.
- `ClientUtils`: the browser's helpers. These are phone formatting and
  validation (proved equal to the regular expression it uses), the
  availability hint and its colour.
- `Simulator`: the browser's USSD simulator page, a six-step state machine,
  with `resetSimulator`.
- `JsText`: the JavaScript string semantics the code relies on. These are
  `trim`, `\s`, `split`, `join`, `parseInt` and number rendering.

Effects are parameters. The clock is a `now: Date` argument, with dates kept
as opaque text. The SMS gateway is a function `Sms -> SendResult`, and every
message handed to it is recorded in the notifier's `outbox`. The browser's
`fetch` outcome is a `Reply` argument.

The model follows the code where it departs from its own comments and from
what the dialog appears meant to do:

- An empty `text` for a session id that already exists does not re-show the
  welcome menu, although the comment at ussd-service.ts:34 says empty text
  shows the initial screen. The handler inserts a new session before its `try`, the
  unique constraint on `session_id` rejects the insert, and the route's
  `catch` answers `END An error occurred. Please try again later.`
  (`DialogLaws.EmptyTextOnOpenDialogThrows`).
- The main menu compares the whole history (`text`), not its last segment.
  So after "3. Back to Main Menu" in the update-profile menu every choice is
  rejected (`DialogLaws.BackToMainMenuStrands`).
- The name step stores `parts[1]` of the history. A name typed with a `*` in
  it is cut at its first `*`, so only names without `*` are stored as typed
  (`DialogLaws.NameCutAtStar`, `DialogLaws.RegistrationDialog`).
- The `view_jobs` step is declared but never entered. A stored step the
  handler does not know resets the session to the main menu.

## Model

| member | source | states |
|---|---|---|
| `Schema.InsertDefaults` | hackerslink/shared/schema.ts:7-64 | Omitted columns take the schema defaults: a worker is available, a job is active with no notes, and a match is unsent and unanswered with no notification time |
| `Schema.ConstantsShape` | hackerslink/shared/schema.ts:97-123 | There are seven distinct skills, six distinct locations and six distinct durations |
| `JsText.JoinSplit` | hackerslink/server/ussd-service.ts:67 | Joining the parts of `text.split('*')` with `*` gives back the history |
| `JsText.LastPartIsSuffix` | hackerslink/server/ussd-service.ts:67-68 | The last part of a split is the text after the final separator and contains no separator |
| `JsText.ParseIntOfIntToString` | hackerslink/server/ussd-service.ts:202 | `parseInt` of a rendered integer gives back that integer |
| `Storage.Filter` | hackerslink/server/storage.ts:68-79 | Every row a filter returns is in the table and satisfies the condition, and every satisfying row is returned |
| `Storage.FilterCount` | hackerslink/server/storage.ts:55-66 | A filter returns as many rows as there are indices of rows satisfying it |
| `Storage.First` | hackerslink/server/storage.ts:45-48 | `result[0]` of a filter is the first satisfying row, or nothing exactly when no row satisfies it |
| `Storage.Take` | hackerslink/server/storage.ts:78 | `.limit(n)` keeps the first `n` rows, or all of them when there are fewer |
| `Storage.WorkerCountIsNumberEligible` | hackerslink/server/storage.ts:55-66 | The worker count is the number of available rows with exactly that skill and location |
| `Storage.WorkerCountAfterAdding` | hackerslink/server/storage.ts:55-66 | Adding a worker raises a count by one exactly when the worker has that skill and location and is available |
| `Storage.MatchingWorkersSpec` | hackerslink/server/storage.ts:68-79 | Matching returns eligible rows only, in table order: the first `limit` of them, or all of them when there are fewer |
| `Storage.AddWorker` | hackerslink/server/storage.ts:50-53 | A second worker with the same phone is rejected and nothing is written; otherwise one row is appended with a fresh id and the defaults |
| `Storage.SkillUpdated` | hackerslink/server/storage.ts:81-92 | Every row with the id gets the new skill and nothing else changes; an unknown id throws and writes nothing |
| `Storage.LocationUpdated` | hackerslink/server/storage.ts:94-105 | Every row with the id gets the new location and nothing else changes; an unknown id throws and writes nothing |
| `Storage.ActiveJobs` | hackerslink/server/storage.ts:118-122 | The result holds exactly the active jobs |
| `Storage.AddJob` | hackerslink/server/storage.ts:113-116 | A daily rate outside the 32-bit `integer` column is rejected with nothing written; otherwise one row is appended with a fresh id |
| `Storage.AddMatch` | hackerslink/server/storage.ts:125-128 | One match row is appended under the next serial id with the defaults filled in |
| `Storage.MatchesForJob` | hackerslink/server/storage.ts:130-134 | The result holds exactly the matches of that job |
| `Storage.MatchesForWorker` | hackerslink/server/storage.ts:136-140 | The result holds exactly the matches of that worker |
| `Storage.MatchDetails` | hackerslink/server/storage.ts:142-164 | The match joined with its worker and job; nothing exactly when any of the three is missing |
| `Storage.NotificationUpdated` | hackerslink/server/storage.ts:166-180 | The two notification columns of every row with that id are set and nothing else changes; an unknown id throws and writes nothing |
| `Storage.AddSession` | hackerslink/server/storage.ts:190-193 | A second session with the same session id is rejected with nothing written; otherwise the row is appended |
| `Storage.FoundAfterAppend` | hackerslink/server/storage.ts:183-193 | A session inserted under a new id is the one then found for that id |
| `Storage.SessionUpdated` | hackerslink/server/storage.ts:195-206 | Only the step and data of that session change; an unknown id throws and writes nothing |
| `Storage.FoundAfterSessionUpdate` | hackerslink/server/storage.ts:183-206 | After an update the session is found with its new step and data |
| `Storage.SeedSpec` | hackerslink/server/storage.ts:209-250 | Seeding an empty worker table adds exactly the three sample workers with consecutive ids and the one sample job; otherwise it is a no-op |
| `Storage.EmptyDbValid` | hackerslink/shared/schema.ts:7-133 | The empty database satisfies unique phones, unique session ids and ids below their serials |
| `Storage.AddWorkerPreservesValid` | hackerslink/server/storage.ts:50-53 | Creating a worker keeps the invariant |
| `Storage.AddJobPreservesValid` | hackerslink/server/storage.ts:113-116 | Creating a job keeps the invariant |
| `Storage.AddMatchPreservesValid` | hackerslink/server/storage.ts:125-128 | Creating a match keeps the invariant |
| `Storage.AddSessionPreservesValid` | hackerslink/server/storage.ts:190-193 | Creating a session keeps the invariant |
| `Storage.SkillUpdatedPreservesValid` | hackerslink/server/storage.ts:81-92 | Updating a skill keeps the invariant |
| `Storage.LocationUpdatedPreservesValid` | hackerslink/server/storage.ts:94-105 | Updating a location keeps the invariant |
| `Storage.NotificationUpdatedPreservesValid` | hackerslink/server/storage.ts:166-180 | Marking a notification keeps the invariant |
| `Storage.SessionUpdatedPreservesValid` | hackerslink/server/storage.ts:195-206 | Updating a session keeps the invariant |
| `Storage.SeededPreservesValid` | hackerslink/server/storage.ts:209-250 | Seeding keeps the invariant |
| `Storage.Store.constructor` | hackerslink/server/storage.ts:38 | A new store holds the empty database |
| `Storage.Store.GetWorker` | hackerslink/server/storage.ts:40-43 | Returns the first worker with that id, and changes nothing |
| `Storage.Store.GetWorkerByPhone` | hackerslink/server/storage.ts:45-48 | Returns the first worker with that phone, and changes nothing |
| `Storage.Store.CreateWorker` | hackerslink/server/storage.ts:50-53 | Performs `AddWorker` on the stored tables |
| `Storage.Store.GetWorkerCount` | hackerslink/server/storage.ts:55-66 | Returns the number of eligible workers, and changes nothing |
| `Storage.Store.FindMatchingWorkers` | hackerslink/server/storage.ts:68-79 | Returns the matching workers up to the limit, and changes nothing |
| `Storage.Store.UpdateWorkerSkill` | hackerslink/server/storage.ts:81-92 | Performs `SkillUpdated` on the stored tables |
| `Storage.Store.UpdateWorkerLocation` | hackerslink/server/storage.ts:94-105 | Performs `LocationUpdated` on the stored tables |
| `Storage.Store.GetJob` | hackerslink/server/storage.ts:108-111 | Returns the first job with that id, and changes nothing |
| `Storage.Store.CreateJob` | hackerslink/server/storage.ts:113-116 | Performs `AddJob` on the stored tables |
| `Storage.Store.GetActiveJobs` | hackerslink/server/storage.ts:118-122 | Returns the active jobs, and changes nothing |
| `Storage.Store.CreateMatch` | hackerslink/server/storage.ts:125-128 | Performs `AddMatch` on the stored tables |
| `Storage.Store.GetMatchesByJobId` | hackerslink/server/storage.ts:130-134 | Returns the matches of the job, and changes nothing |
| `Storage.Store.GetMatchesByWorkerId` | hackerslink/server/storage.ts:136-140 | Returns the matches of the worker, and changes nothing |
| `Storage.Store.GetMatchWithDetails` | hackerslink/server/storage.ts:142-164 | Returns the match with its worker and job, and changes nothing |
| `Storage.Store.UpdateMatchNotification` | hackerslink/server/storage.ts:166-180 | Performs `NotificationUpdated` on the stored tables |
| `Storage.Store.GetUssdSession` | hackerslink/server/storage.ts:183-188 | Returns the session with that id, and changes nothing |
| `Storage.Store.CreateUssdSession` | hackerslink/server/storage.ts:190-193 | Performs `AddSession` on the stored tables |
| `Storage.Store.UpdateUssdSession` | hackerslink/server/storage.ts:195-206 | Performs `SessionUpdated` on the stored tables |
| `Storage.Store.SeedData` | hackerslink/server/storage.ts:209-250 | Performs `Seeded` on the stored tables, stopping at the first insert that fails |
| `Dialog.StepNamesDistinct` | hackerslink/server/ussd-service.ts:8-17 | Distinct steps are stored under distinct step names |
| `Dialog.Text` | hackerslink/server/ussd-service.ts:73-383 | Every screen the gateway receives starts with `END ` when the screen is final and with `CON ` otherwise |
| `Dialog.Choice` | hackerslink/server/ussd-service.ts:202-205 | `parseInt(input) - 1` is accepted only when it indexes the list |
| `Dialog.ChoiceSelectsTypedEntry` | hackerslink/server/ussd-service.ts:202-211 | Typing an entry's number selects that entry, also after leading white space or a `+` sign and with trailing text that does not start with a digit |
| `Dialog.ChoiceRejectsWords` | hackerslink/server/ussd-service.ts:202-209 | Text that does not start with a digit, a sign or white space selects nothing |
| `Dialog.LastInputIsFinalSegment` | hackerslink/server/ussd-service.ts:67-68 | The last input has no `*`, ends the history, follows its last `*`, and is the whole history when that has no `*` |
| `Dialog.JobsFor` | hackerslink/server/ussd-service.ts:95-103 | The query keeps exactly the active jobs with the worker's skill and location |
| `Dialog.Reverse` | hackerslink/server/ussd-service.ts:134 | `reverse()` puts element `i` at position `n - 1 - i` |
| `Dialog.Recent` | hackerslink/server/ussd-service.ts:134 | `slice(-3).reverse()` gives the newest three jobs, or all of them when there are fewer, newest first |
| `Dialog.EntriesStartWithFirst` | hackerslink/server/ussd-service.ts:138-148 | The entries open with entry number 1 |
| `Dialog.MatchListOpensWithFirst` | hackerslink/server/ussd-service.ts:133-153 | The job list opens with its header and the newest job as entry 1 |
| `Dialog.JobsScreenSpec` | hackerslink/server/ussd-service.ts:105-153 | Viewing matches ends the dialog. No job gives the no-match screen and one job gives its details. Several jobs list the newest three, newest first, with the newest numbered 1 |
| `Dialog.FormatJobList` | hackerslink/server/ussd-service.ts:133-153 | The loop builds the text of the job list entry by entry |
| `Dialog.MatchListText` | hackerslink/server/ussd-service.ts:136-151 | The job list is its header, the entries in order, then its footer |
| `Dialog.UssdService.constructor` | hackerslink/server/ussd-service.ts:27-31 | The service works on the given store |
| `Dialog.UssdService.PersistStep` | hackerslink/server/ussd-service.ts:182-197 | Writes the session's next step and data, then answers; a failed write becomes an exception |
| `Dialog.UssdService.OnMainMenu` | hackerslink/server/ussd-service.ts:73-176 | Performs the main-menu step on the store |
| `Dialog.UssdService.OnRegisterName` | hackerslink/server/ussd-service.ts:177-198 | Performs the name step on the store |
| `Dialog.UssdService.OnRegisterSkill` | hackerslink/server/ussd-service.ts:199-227 | Performs the skill step on the store |
| `Dialog.UssdService.OnSelectLocation` | hackerslink/server/ussd-service.ts:230-269 | Performs the location step, and with it the registration, on the store |
| `Dialog.UssdService.OnUpdateProfileMenu` | hackerslink/server/ussd-service.ts:270-310 | Performs the update-profile menu on the store |
| `Dialog.UssdService.Reset` | hackerslink/server/ussd-service.ts:325-341 | The inner `try` of an update: after a successful worker update the session is reset; either failing gives the failure screen |
| `Dialog.UssdService.OnUpdateSkill` | hackerslink/server/ussd-service.ts:311-342 | Performs the new-skill step on the store |
| `Dialog.UssdService.OnUpdateLocation` | hackerslink/server/ussd-service.ts:343-374 | Performs the new-location step on the store |
| `Dialog.UssdService.OpenUssdSession` | hackerslink/server/ussd-service.ts:49-58 | Returns the stored session, or inserts and returns a new one at the main menu |
| `Dialog.UssdService.Dispatch` | hackerslink/server/ussd-service.ts:64-383 | Runs the branch that the stored step selects |
| `Dialog.UssdService.HandleUssdRequest` | hackerslink/server/ussd-service.ts:27-388 | One request on the store: the same answer and the same new database as `Handle` |
| `DialogLaws.MovedSpec` | hackerslink/server/storage.ts:195-206 | Moving a stored session leaves it found at its new step with its new data |
| `DialogLaws.HandledAt` | hackerslink/server/ussd-service.ts:73-377 | A session stored at a known step selects that step's branch |
| `DialogLaws.HandleStored` | hackerslink/server/ussd-service.ts:49-68 | Non-empty text for a stored session runs that session's step on the unchanged database |
| `DialogLaws.EmptyTextOpensDialog` | hackerslink/server/ussd-service.ts:35-46 | Empty text for a new session id stores a main-menu session with empty data and shows the welcome menu |
| `DialogLaws.EmptyTextOnOpenDialogThrows` | hackerslink/server/ussd-service.ts:35-43 | Empty text for an existing session id throws before the `try` and writes nothing |
| `DialogLaws.UnknownSessionStartsAtMainMenu` | hackerslink/server/ussd-service.ts:49-58 | Non-empty text for an unknown session is handled at the main menu of a newly stored session |
| `DialogLaws.MainMenuComparesWholeText` | hackerslink/server/ussd-service.ts:73-176 | At the main menu, any history other than exactly `1`, `2` or `3` re-prompts and writes nothing |
| `DialogLaws.MainMenuRegister` | hackerslink/server/ussd-service.ts:77-85 | Option 1 moves the session to the name step and asks for the name |
| `DialogLaws.MainMenuNotRegistered` | hackerslink/server/ussd-service.ts:86-92 | Options 2 and 3 end the dialog and write nothing when the phone has no worker |
| `DialogLaws.MainMenuViewJobs` | hackerslink/server/ussd-service.ts:86-154 | Option 2 shows the active jobs for the worker's skill and location and writes nothing |
| `DialogLaws.MainMenuUpdateProfile` | hackerslink/server/ussd-service.ts:155-171 | Option 3 stores the worker's id in the session and moves to the update-profile menu |
| `DialogLaws.NameFromHistory` | hackerslink/server/ussd-service.ts:180-182 | The name is the second segment of a history with several segments, else the whole text |
| `DialogLaws.NameCutAtStar` | hackerslink/server/ussd-service.ts:180-182 | A name typed with a `*` keeps only the part before its first `*` |
| `DialogLaws.RegisterNameStores` | hackerslink/server/ussd-service.ts:177-198 | The name step stores the name, keeps the other data and offers the skills |
| `DialogLaws.RegisterSkillStores` | hackerslink/server/ussd-service.ts:199-227 | A valid skill number stores that skill and offers the locations |
| `DialogLaws.InvalidSkillChangesNothing` | hackerslink/server/ussd-service.ts:205-209 | At both skill steps, an input that is not a list number re-prompts and changes nothing |
| `DialogLaws.InvalidLocationChangesNothing` | hackerslink/server/ussd-service.ts:234-238 | At both location steps, an input that is not a list number re-prompts and changes nothing |
| `DialogLaws.SelectLocationRegisters` | hackerslink/server/ussd-service.ts:240-269 | A complete registration creates exactly one available worker with the stored name and skill, the caller's phone and the chosen location. It then resets the session and echoes the profile |
| `DialogLaws.RegistrationNameStep` | hackerslink/server/ussd-service.ts:177-198 | After option 1, the history `1*<name>` with a name without `*` stores exactly that name, touches no table but the sessions, and offers the skills |
| `DialogLaws.RegistrationSkillStep` | hackerslink/server/ussd-service.ts:200-226 | Appending a skill's number to the history stores that skill next to the name and offers the locations, touching no table but the sessions |
| `DialogLaws.RegistrationLocationStep` | hackerslink/server/ussd-service.ts:229-269 | Appending a location's number for an unregistered phone appends exactly one available worker with the stored name and skill, the phone and that location, confirms it and resets the session |
| `DialogLaws.RegistrationDialog` | hackerslink/server/ussd-service.ts:35-269 | A whole registration (`""`, `1`, `1*<name>`, then the skill's and the location's numbers) on a new session id and an unregistered phone shows the five screens in order and ends with exactly one new worker carrying the four submitted fields, jobs and matches unchanged, and the session back at the main menu |
| `DialogLaws.RegistrationStep` | hackerslink/server/ussd-service.ts:240-269 | The location step's writes for a complete registration |
| `DialogLaws.SelectLocationAlreadyRegistered` | hackerslink/server/ussd-service.ts:246-250 | A phone that already has a worker is not registered twice and nothing is written |
| `DialogLaws.SelectLocationWithoutProfile` | hackerslink/server/ussd-service.ts:252-259 | Without a stored name or skill the insert fails, so the error screen is shown and nothing is written |
| `DialogLaws.UpdateProfileMenuMoves` | hackerslink/server/ussd-service.ts:270-310 | Options 1 and 2 move to the new-skill and new-location steps, option 3 goes back to the main menu, and anything else re-prompts |
| `DialogLaws.BackToMainMenuStrands` | hackerslink/server/ussd-service.ts:297-305 | After going back to the main menu, every following choice is rejected, because the history now has a `*` |
| `DialogLaws.UpdateSkillApplies` | hackerslink/server/ussd-service.ts:311-342 | A valid new skill changes only that worker's skill, resets the session and confirms; a missing worker gives the failure screen and writes nothing |
| `DialogLaws.UpdateSkillStepApplies` | hackerslink/server/ussd-service.ts:311-342 | The new-skill step's writes, given the stored data |
| `DialogLaws.UpdateLocationApplies` | hackerslink/server/ussd-service.ts:343-374 | A valid new location changes only that worker's location, resets the session and confirms; a missing worker gives the failure screen and writes nothing |
| `DialogLaws.UpdateLocationStepApplies` | hackerslink/server/ussd-service.ts:343-374 | The new-location step's writes, given the stored data |
| `DialogLaws.UnknownStepResets` | hackerslink/server/ussd-service.ts:375-383 | A stored step the handler does not know resets the session to the main menu and shows the welcome menu |
| `DialogLaws.OnlyReopeningThrows` | hackerslink/server/ussd-service.ts:35-387 | Only empty text on an existing session escapes as an exception; every other request is answered with a screen |
| `DialogLaws.StepPreservesValid` | hackerslink/server/ussd-service.ts:64-387 | Every dialog step keeps the store's invariant |
| `DialogLaws.HandlePreservesValid` | hackerslink/server/ussd-service.ts:27-388 | No request breaks the phone and session-id constraints or the serials |
| `Notification.NormalizePhoneShape` | hackerslink/server/notification-service.ts:28-36 | The normalised number starts with `+` and has no white space |
| `Notification.NormalizePhoneIdempotent` | hackerslink/server/notification-service.ts:28-36 | Normalising twice is the same as normalising once |
| `Notification.NormalizePhoneKeepsDigits` | hackerslink/server/notification-service.ts:28-36 | The result is the number with its white space deleted, with `+` in front exactly when it did not already start with one |
| `Notification.JobMatchSmsSpec` | hackerslink/server/notification-service.ts:62-64 | The alert opens with the skill and location. Job fields other than the six it shows do not change it, and empty notes read like absent ones |
| `Notification.MarkSentKeepsLinks` | hackerslink/server/notification-service.ts:71-81 | Marking a match notified leaves every match's worker and job in place |
| `Notification.SendReadsLinks` | hackerslink/server/notification-service.ts:12-54 | A notification's report and message depend only on the match's worker and job |
| `Notification.SendKeepsLinks` | hackerslink/server/notification-service.ts:12-54 | A notification leaves every match's worker and job in place |
| `Notification.SendWithoutDetails` | hackerslink/server/notification-service.ts:15-22 | With the match, worker or job missing: failure, nothing sent, nothing written |
| `Notification.SendWithDetails` | hackerslink/server/notification-service.ts:24-49 | Exactly one message goes to the normalised phone. The report is the gateway's, and a failed send writes nothing |
| `Notification.SendOutcome` | hackerslink/server/notification-service.ts:24-49 | The report, the database and the messages of a send whose details exist |
| `Notification.SendMarksOnSuccess` | hackerslink/server/notification-service.ts:45-47 | A successful send marks just that match notified at `now`; no worker, job or session changes |
| `Notification.SendIsUpdate` | hackerslink/server/notification-service.ts:71-81 | A successful send writes what `updateMatchNotification(matchId, true)` writes |
| `Notification.SendAll` | hackerslink/server/notification-service.ts:89-102 | There is one result per id |
| `Notification.SendAllInOrder` | hackerslink/server/notification-service.ts:89-102 | Result `k` reports on the `k`-th id, so the results come in id order |
| `Notification.SendAllIndependent` | hackerslink/server/notification-service.ts:89-102 | Each result in a batch is the result of sending to that id alone, and the batch leaves every link in place |
| `Notification.SendMessageCount` | hackerslink/server/notification-service.ts:12-54 | A send hands one message to the gateway when the match is linked, and none otherwise |
| `Notification.SendAllMessageCount` | hackerslink/server/notification-service.ts:89-102 | A batch sends one message per linked id and none for the others |
| `Notification.NotifiableAll` | hackerslink/server/notification-service.ts:89-102 | When every id is linked, the batch texts each of them |
| `Notification.SendOnlyNotifies` | hackerslink/server/notification-service.ts:12-54 | A send writes nothing but notification columns |
| `Notification.MarkingOnlyNotifies` | hackerslink/server/notification-service.ts:71-81 | Marking a notification writes nothing but notification columns |
| `Notification.SendAllOnlyNotifies` | hackerslink/server/notification-service.ts:89-102 | A batch writes nothing but notification columns |
| `Notification.SendKeepsOthers` | hackerslink/server/notification-service.ts:12-54 | A send leaves the rows of every other match id unchanged |
| `Notification.SendAllKeepsOthers` | hackerslink/server/notification-service.ts:89-102 | A batch rewrites only the rows of the ids it is given |
| `Notification.OnlyNotificationsPreservesValid` | hackerslink/server/storage.ts:166-180 | Rewriting notification columns keeps the invariant |
| `Notification.SendAllPreservesValid` | hackerslink/server/notification-service.ts:89-102 | A batch keeps the invariant |
| `Notification.NotificationService.constructor` | hackerslink/server/notification-service.ts:106 | The service works on the given store and gateway and has sent nothing |
| `Notification.NotificationService.UpdateMatchNotificationStatus` | hackerslink/server/notification-service.ts:71-81 | Marks the match notified when its details exist, and otherwise writes nothing |
| `Notification.NotificationService.SendJobMatchSms` | hackerslink/server/notification-service.ts:12-54 | Performs `Send` on the store and records its message in the outbox |
| `Notification.NotificationService.SendBulkJobMatchSms` | hackerslink/server/notification-service.ts:89-102 | The loop performs `SendAll` on the store and records every message in order |
| `Routes.CountWorkersSpec` | hackerslink/server/routes.ts:19-37 | A missing or empty parameter gives 400; otherwise 200 with the number of available workers with exactly that skill and location |
| `Routes.RegisterSpec` | hackerslink/server/routes.ts:40-63 | An invalid payload gives 400 and a registered phone 409, both writing nothing. Otherwise 201 with the one new worker and its defaults, which the phone then finds |
| `Routes.MatchRows` | hackerslink/server/routes.ts:92-103 | There is one new match row per matched worker |
| `Routes.NewIds` | hackerslink/server/routes.ts:102 | The match ids are consecutive |
| `Routes.CreateMatches` | hackerslink/server/routes.ts:90-103 | The loop of `createMatch` calls appends one row per worker under consecutive ids and collects those ids |
| `Routes.PostJobRefuses` | hackerslink/server/routes.ts:68-79 | An invalid job gives 400 and a job the table refuses gives 500; neither stores or sends anything |
| `Routes.PostJobIgnoresGateway` | hackerslink/server/routes.ts:106-116 | The answer does not depend on how the messages fare |
| `Routes.CreatedMatchLinked` | hackerslink/server/routes.ts:92-107 | Every new match is linked to its job and its worker, so it can be notified |
| `Routes.CreatedMatchFound` | hackerslink/server/routes.ts:94-102 | A new match id finds its own row |
| `Routes.MatchAndTextKeepsEarlierRows` | hackerslink/server/routes.ts:89-111 | Matching and texting keeps the earlier matches and every other table unchanged |
| `Routes.MatchAndTextNewRows` | hackerslink/server/routes.ts:89-111 | The appended rows are this job's matches with the matched workers, in order, under consecutive ids |
| `Routes.MatchAndTextTextsEach` | hackerslink/server/routes.ts:104-108 | Every matched worker is texted exactly once |
| `Routes.NewRowDetails` | hackerslink/server/routes.ts:92-103 | Each new match row joins with its own worker and the new job |
| `Routes.MatchAndTextMarks` | hackerslink/server/routes.ts:92-108 | The new row of a matched worker is marked notified exactly when the gateway accepts that worker's alert, and its notification time is the request's `now` |
| `Routes.MatchAndTextMarksAll` | hackerslink/server/routes.ts:92-108 | Every new row is marked by its own send's outcome, independently of the others |
| `Routes.NewMatchesLinked` | hackerslink/server/routes.ts:89-108 | All the new matches are linked |
| `Routes.PostJobAnswers` | hackerslink/server/routes.ts:79-116 | A valid job gives 201 with the job and the number matched, which is the eligible count capped at three |
| `Routes.PostJobStores` | hackerslink/server/routes.ts:79-111 | A valid job stores the job row, adds one match per matched worker after the existing ones, and sends one message each |
| `Routes.PostJobCreates` | hackerslink/server/routes.ts:68-121 | The whole `POST /jobs` outcome for a valid job: the answer, the tables and the messages |
| `Routes.PostJobMarksByOutcome` | hackerslink/server/routes.ts:68-121 | After a valid job, each new match is marked notified exactly when the gateway accepts the alert sent to its worker, so a failed send leaves only its own match unsent; its notification time is the request's `now` |
| `Routes.UssdTextSpec` | hackerslink/server/routes.ts:149-162 | The text is the first non-empty of the body's `text`, the query's `text` and the body's `ussdString`, else empty |
| `Routes.UssdSpec` | hackerslink/server/routes.ts:136-183 | Every answer is a 200 text screen. Without an id and a phone it is final and writes nothing; otherwise it is the dialog's answer, with exceptions turned into the error screen |
| `Routes.NotifyMatchSpec` | hackerslink/server/routes.ts:214-249 | A non-numeric id gives 400, an id outside the 32-bit `integer` range 500 (the lookup throws) and a missing match 404, all three sending and writing nothing. Otherwise one SMS goes out, and the status is 200, with the match marked, exactly when the gateway succeeds; else 500 |
| `Routes.RegisterPreservesValid` | hackerslink/server/routes.ts:40-63 | Registration keeps the invariant |
| `Routes.MatchedPreservesValid` | hackerslink/server/routes.ts:90-103 | Creating the matches keeps the invariant |
| `Routes.PostJobPreservesValid` | hackerslink/server/routes.ts:68-121 | Posting a job keeps the invariant |
| `Routes.UssdPreservesValid` | hackerslink/server/routes.ts:136-183 | A USSD request keeps the invariant |
| `Routes.NotifyMatchPreservesValid` | hackerslink/server/routes.ts:214-249 | A notification request keeps the invariant |
| `Routes.Api.constructor` | hackerslink/server/routes.ts:12-13 | The handlers share one store; the notifier has sent nothing |
| `Routes.Api.GetWorkersCount` | hackerslink/server/routes.ts:19-37 | Answers as `CountWorkers` and changes nothing |
| `Routes.Api.RegisterWorker` | hackerslink/server/routes.ts:40-63 | Performs `Register` on the store |
| `Routes.Api.PostJobs` | hackerslink/server/routes.ts:68-121 | Performs `PostJob` on the store and the notifier |
| `Routes.Api.MatchAndNotify` | hackerslink/server/routes.ts:89-111 | The match loop and the batch of alerts on the store and the notifier |
| `Routes.Api.PostUssd` | hackerslink/server/routes.ts:136-183 | Performs `Ussd` on the store |
| `Routes.Api.NotifyJobMatch` | hackerslink/server/routes.ts:214-249 | Performs `NotifyMatch` on the store and the notifier |
| `ClientUtils.ClientConstantsAgree` | hackerslink/client/src/lib/utils.ts:8-34 | The client offers exactly the server's skills, locations and durations, in the same order |
| `ClientUtils.FormatPhoneNumberSpec` | hackerslink/client/src/lib/utils.ts:36-46 | Empty stays empty, `+254` becomes `0`, and anything else is kept |
| `ClientUtils.FormatPhoneNumberIdempotent` | hackerslink/client/src/lib/utils.ts:36-46 | Formatting twice is the same as formatting once |
| `ClientUtils.ValidatePhoneNumberIsPattern` | hackerslink/client/src/lib/utils.ts:48-52 | The check accepts exactly what the pattern of `validatePhoneNumber` accepts: an optional prefix `0`, `+254` or `254`, then `1` or `7`, then eight digits |
| `ClientUtils.FormatKeepsValid` | hackerslink/client/src/lib/utils.ts:36-52 | A valid number stays valid in its display form, which has no `+254` |
| `ClientUtils.AvailabilityMessageEmpty` | hackerslink/client/src/lib/utils.ts:54-64 | The hint is empty exactly when the skill or the location is missing, and otherwise ends with ` in <location>` |
| `ClientUtils.AvailabilityMessageDistinct` | hackerslink/client/src/lib/utils.ts:54-64 | Different counts give different hints |
| `ClientUtils.AvailabilityColorSpec` | hackerslink/client/src/lib/utils.ts:66-70 | Green exactly when the count is positive, blue otherwise |
| `Simulator.Picked` | hackerslink/client/src/pages/ussd-simulator.tsx:43-47 | The typed number is accepted only when it is between 1 and the list's length |
| `Simulator.PressStaysInSteps` | hackerslink/client/src/pages/ussd-simulator.tsx:22-126 | A press keeps the step in 0..5, clears the input, and keeps the session id and the phone |
| `Simulator.PressPostsOnlyOnConfirm` | hackerslink/client/src/pages/ussd-simulator.tsx:70-87 | A registration is posted exactly when `1` is pressed at the confirm step, and it carries the name, phone, skill and location collected |
| `Simulator.MainStep` | hackerslink/client/src/pages/ussd-simulator.tsx:23-32 | `1` asks for the name, `2` shows the job status, and anything else re-prompts |
| `Simulator.NameStep` | hackerslink/client/src/pages/ussd-simulator.tsx:33-41 | A name that is not blank is kept and the skills are offered; a blank one re-prompts |
| `Simulator.SkillStep` | hackerslink/client/src/pages/ussd-simulator.tsx:42-55 | `0` goes back; a list number picks that skill and offers the locations; anything else re-prompts |
| `Simulator.LocationStep` | hackerslink/client/src/pages/ussd-simulator.tsx:56-69 | `0` goes back; a list number picks that location and shows the confirmation; anything else re-prompts |
| `Simulator.ConfirmStep` | hackerslink/client/src/pages/ussd-simulator.tsx:70-115 | The confirm step changes only the display. `1` shows the outcome of the request, `2` cancels, and anything else re-prompts |
| `Simulator.BackStep` | hackerslink/client/src/pages/ussd-simulator.tsx:116-123 | `0` returns to the welcome screen; anything else re-prompts |
| `Simulator.InitialCollected` | hackerslink/client/src/pages/ussd-simulator.tsx:11-20 | The first page satisfies the page invariant |
| `Simulator.ResetCollected` | hackerslink/client/src/pages/ussd-simulator.tsx:128-136 | A reset page satisfies the page invariant |
| `Simulator.SkillAnswerCollected` | hackerslink/client/src/pages/ussd-simulator.tsx:42-55 | The skill step keeps the page invariant |
| `Simulator.LocationAnswerCollected` | hackerslink/client/src/pages/ussd-simulator.tsx:56-69 | The location step keeps the page invariant |
| `Simulator.PressKeepsCollected` | hackerslink/client/src/pages/ussd-simulator.tsx:22-126 | Every press keeps the invariant: past the name step there is a name that is not blank, past the skill step a listed skill, and at the confirm step a listed location |
| `Simulator.PostedRegistrationIsComplete` | hackerslink/client/src/pages/ussd-simulator.tsx:70-87 | Every registration posted carries a name that is not blank, a listed skill, a listed location and `isAvailable` |
| `Simulator.UssdSimulator.constructor` | hackerslink/client/src/pages/ussd-simulator.tsx:11-20 | The page starts at step 0 with the default phone, empty fields and the welcome screen |
| `Simulator.UssdSimulator.SetUserInput` | hackerslink/client/src/pages/ussd-simulator.tsx:182 | Typing replaces only the input |
| `Simulator.UssdSimulator.SetPhoneNumber` | hackerslink/client/src/pages/ussd-simulator.tsx:165 | Editing the phone replaces only the phone |
| `Simulator.UssdSimulator.ResetSimulator` | hackerslink/client/src/pages/ussd-simulator.tsx:128-136 | Goes back to step 0 with a new session id and cleared fields, keeping the phone |
| `Simulator.UssdSimulator.HandleUssdRequest` | hackerslink/client/src/pages/ussd-simulator.tsx:22-126 | Performs `Press`, and returns the registration it posts |
| `Simulator.UssdSimulator.MainMenu` | hackerslink/client/src/pages/ussd-simulator.tsx:23-32 | Performs the step-0 answer |
| `Simulator.UssdSimulator.EnterFullName` | hackerslink/client/src/pages/ussd-simulator.tsx:33-41 | Performs the step-1 answer |
| `Simulator.UssdSimulator.SelectSkill` | hackerslink/client/src/pages/ussd-simulator.tsx:42-55 | Performs the step-2 answer |
| `Simulator.UssdSimulator.SelectLocation` | hackerslink/client/src/pages/ussd-simulator.tsx:56-69 | Performs the step-3 answer |
| `Simulator.UssdSimulator.ConfirmRegistration` | hackerslink/client/src/pages/ussd-simulator.tsx:70-115 | Performs the step-4 answer, and returns the registration it posts |
| `Simulator.UssdSimulator.JobStatus` | hackerslink/client/src/pages/ussd-simulator.tsx:116-123 | Performs the step-5 answer |

## Left out

- Logging (`console.log`, `console.error`) is not modelled; it has no effect on answers or tables.
- JSON parsing and serialisation are not modelled. Session data is a record of its three keys, and response bodies are datatypes.
- Request validation is abstracted: zod's `safeParse` is an `Option` payload, and the model does not say which JSON bodies it accepts.
- Dates are opaque text taken from a `now` argument, and `toLocaleDateString` is taken as the identity.
- Routes.MatchAndTextMarks: one `now` stands for every `new Date()` of a request, so the notification time written when the alert is sent (hackerslink/server/storage.ts:166) is not told apart from the time the match was created.
- Routes.PostJobMarksByOutcome: for the same reason, the notification time it states is the request's single `now`, not a separate send-time instant.
- The Africa's Talking SDK (`at-service.ts`) is a gateway parameter `Sms -> SendResult`. The SDK's exceptions are folded into a failed `SendResult`. `SendResult` has no field for the SDK's reply, so the 200 body of `POST /notifications/job-match/:matchId` leaves out `result`.
- `Promise.all` over the notifications in `POST /jobs` is modelled as a sequential batch. The gateway is a function, so the order does not change any result, and the handler ignores the results.
- The outer `catch` of each route and of `sendJobMatchSMS` is modelled only where an exception can arise in the model. Those are the uniqueness and `NOT NULL` constraints, the `integer` range of `daily_rate`, and updates that touch no row. Connection failures are not modelled.
- The routes `/sms`, `/skills` and `/locations`, the page components, the `cn` helper and the contractor web form are not part of this model.
- The simulator's `setTimeout` reset, its toasts and React's batching of state updates are not modelled. The `fetch` outcome is a `Reply` argument, and `error.message` is its text.
- JavaScript number semantics are not modelled: `parseInt` loses no precision above 2^53 and `-0` is not distinguished.
- Concurrency and transactions of the database are not modelled; each request runs alone.
- `isAvailable` and `isActive` are nullable columns. A body that sends `null` for them stores NULL, and the `= true` filters then never count or match that row. The model reads an absent flag as the default `true` and has no NULL.
- Postgres `text` refuses the character U+0000, so an insert with it in a name, phone or session id throws. The model stores such text.
- `findMatchingWorkers` and `getActiveJobs` have no `ORDER BY`, so Postgres promises no row order. The model returns rows in insertion order. `MatchingWorkersSpec`'s "first `limit` eligible rows" and the newest-three job list rest on that order; a row rewritten by an update may come back in another place.
