# Food bank online — a verified model of the ticketing core

This project models, in Dafny, the parts of the food-bank ticketing web
application that decide what happens to tickets, sessions and templates:

- **Offline ticket store** (`OfflineService`): a class over the `tickets` and
  `templates` object stores (maps keyed by QR code and by id) and the
  append-only `sync_logs` store (a sequence). It covers downloading a
  session's tickets, reading a ticket or template back, redeeming a ticket on
  a scan, and pushing every redeemed-but-unsynced ticket to the server with
  per-ticket failure isolation.
- **Session creation** (`SessionActions`): the guards of `createSession`,
  `toMinutes` / `toTimeStr` between `HH:MM` and minutes with the 24-hour wrap,
  the template duration rule, and the end time written into the new row.
- **Mock ticket generation** (`MockTicketGenerator`): rejection sampling of
  six-character keys over `A-Z0-9` against a set of keys in use, batches
  numbered 1..n with distinct keys, the `YYYYMMDD-HHMMSS` stamp, and the
  3 × 6 sheet layout.
- **PDF page layout** (`PageGrid`, `PdfGenerator`): chunking tickets into
  pages of 45 and the (row, column) cell of each ticket on a 9 × 5 grid.
- **Scanner screen** (`Scanner`): ticket lookup by upper-cased key, the form
  initialised from `user_data`, the merged submission, reset, manual entry,
  the menu/scan/manual/form/success mode machine and the sync button.
- **Template form and template action** (`TemplateForm`, `TemplateActions`):
  custom-field list edits, the automatic end time, submit validation, the
  payload, and the row `createTemplate` inserts.
- **Smaller rule sets**:
  - `DynamicUserFields`: the number stepper, the boolean toggle and the text
    fallback.
  - `HomeFilters`: cascading filter reset over a `URLSearchParams` class.
  - `SessionPrint`: the PDF byte loop and the download file name.
  - `Proxy`: the middleware's redirect decision.
  - `CreateSessionForm`: the session form's state.
  - `TeamPage`: the team table's display-name fallback and its controls.

Helper modules model the JavaScript behaviour the code relies on:

- `Wrappers`: `Option` and `Result`.
- `JsValues`: dynamic values, truthiness, `Number()`, `%` on negative numbers.
- `JsStrings`: decimal rendering, `padStart(2, '0')`, `split`, `trim`,
  `substring` and ASCII `toUpperCase`.

Network results, the authenticated user, `Math.random` draws and the clock are
parameters of the operations that use them. A JavaScript `NaN` is `None`, or
the `NaN` value of `JsValues.Value`.

## Model

| member | source | states |
|---|---|---|
| OfflineService.OfflineStore.GetTicket | lib/OfflineService.ts:118-121 | a ticket is found exactly when its QR code is a key of the ticket store, and it is the stored record |
| OfflineService.OfflineStore.GetTemplate | lib/OfflineService.ts:123-126 | a template is found exactly when its id is a key of the template store, and it is the stored record |
| OfflineService.OfflineStore.DownloadSessionData | lib/OfflineService.ts:54-116 | a ticket fetch error, an empty ticket list and a template fetch error each leave every store untouched, with an error, `0` and an error respectively; otherwise the ticket store is replaced by the fetched tickets, the templates are upserted, the log is kept and the count is the number fetched |
| OfflineService.PutAllAt | lib/OfflineService.ts:101-112 | after clearing and refilling, a code is stored iff it was fetched, and it holds the normalised form of a fetched row with that code |
| OfflineService.DownloadedTicketsAreClean | lib/OfflineService.ts:101-112 | after a download the store holds exactly the fetched codes, each under its own code, synced, with no scan time, so nothing is dirty |
| OfflineService.DownloadCanDiscardRedemption | lib/OfflineService.ts:101-112 | a redemption not yet synced is overwritten by a download whose row is not redeemed: the ticket is back to `generated` and no longer dirty |
| OfflineService.Redeem | lib/OfflineService.ts:136-142 | the redeemed record is `redeemed`, unsynced and stamped `now`; a truthy update replaces `user_data` wholesale, a falsy one keeps it; every other field is unchanged |
| OfflineService.OfflineStore.ScanTicket | lib/OfflineService.ts:128-146 | an unknown code fails with "Ticket not found" and changes nothing; a known code is replaced by its redeemed record and no other key or store changes |
| OfflineService.RedemptionIsOneWay | lib/OfflineService.ts:138 | redeeming always yields `redeemed`, and marking synced never turns a redeemed ticket back |
| OfflineService.OfflineStore.DirtySnapshot | lib/OfflineService.ts:151-152 | the snapshot lists each stored ticket with `synced === false` and status `redeemed` exactly once, as stored |
| OfflineService.OfflineStore.PushDirtyTickets | lib/OfflineService.ts:166-184 | the loop's successes, errors and log entries are the snapshot's successful codes, its failures with their messages, and one log entry per failure stamped `now`, all in push order |
| OfflineService.PushCount | lib/OfflineService.ts:166-184 | every pushed ticket is counted once, as a success or as a failure |
| OfflineService.OkCodesSet | lib/OfflineService.ts:180-183 | the successful codes are distinct and are exactly the snapshot codes whose push succeeded |
| OfflineService.FailuresSet | lib/OfflineService.ts:176-179 | the failed codes are exactly the snapshot codes whose push failed, and each error carries the message that ticket's push returned |
| OfflineService.SnapshotOutcomes | lib/OfflineService.ts:152-184 | for a complete dirty snapshot, the success and failure lists are the pushed and the rejected dirty codes, without repeats, and each message belongs to its ticket |
| OfflineService.LogEntries | lib/OfflineService.ts:179 | one log entry per error, in order, with the error's ticket and message and the time `now` |
| OfflineService.OfflineStore.MarkCodesSynced | lib/OfflineService.ts:191-197 | exactly the given codes that are stored get `synced = true`; templates and log are unchanged |
| OfflineService.OfflineStore.AppendSyncLogs | lib/OfflineService.ts:199-201 | the log grows by the given entries at its end, and the other stores are unchanged |
| OfflineService.OfflineStore.SyncSessionData | lib/OfflineService.ts:148-207 | no dirty ticket gives `{0,0,0,[]}` with nothing written; otherwise `total` is the number of dirty tickets and equals `success + failed`, there is one error per rejected push carrying its message, exactly the pushed tickets become synced, and the log is extended by the failures' entries and keeps its old entries |
| OfflineService.SyncPartition | lib/OfflineService.ts:176-183 | every dirty ticket is either pushed or rejected, never both |
| OfflineService.SyncLeavesOnlyRejectedDirty | lib/OfflineService.ts:186-197 | after sync the dirty tickets are exactly those whose push failed |
| OfflineService.MarkSyncedOnlyFlips | lib/OfflineService.ts:191-196 | marking synced changes no field but `synced`, sets it on every pushed ticket and leaves tickets that were not dirty unchanged |
| SessionActions.PartsToMinutes | app/dashboard/sessions/actions.ts:68-71 | a time without a `:`-separated minute part converts to `NaN` |
| SessionActions.ToMinutesOfValid | app/dashboard/sessions/actions.ts:68-71 | a valid `HH:MM` converts to hours × 60 + minutes |
| SessionActions.ClockOfTimeOfDay | app/dashboard/sessions/actions.ts:77 | an hour below 24 and a minute below 60, padded to two places, form a valid `HH:MM` that reads back as that hour and minute |
| SessionActions.ToTimeStrOfNat | app/dashboard/sessions/actions.ts:74-78 | for a non-negative count, `toTimeStr` gives a five-character `HH:MM` with hour 0..23 and minute 0..59, naming the minute of the day the count falls on (modulo 1440) |
| SessionActions.ToTimeStrWraps | app/dashboard/sessions/actions.ts:74-78 | adding 24 hours does not change the rendered time |
| SessionActions.TimeRoundTrip | app/dashboard/sessions/actions.ts:68-78 | a valid `HH:MM` converts to its minute of the day, and `toTimeStr` renders that minute back as the same text |
| SessionActions.MinutesRoundTrip | app/dashboard/sessions/actions.ts:68-78 | every minute of the day renders to a valid `HH:MM` that converts back to the same minute |
| SessionActions.DurationOfSlots | app/dashboard/sessions/actions.ts:82-85 | a `TimeAllotted` template with a configuration object lasts `slot_duration × total_slots`, where a missing or non-numeric factor counts as 0 |
| SessionActions.DurationOfTimes | app/dashboard/sessions/actions.ts:86-88 | any other template with valid start and end times lasts end minus start, which may be zero or negative |
| SessionActions.DurationWithoutTimes | app/dashboard/sessions/actions.ts:80-89 | any other template missing a start or end time lasts 0 minutes |
| SessionActions.CreateSession | app/dashboard/sessions/actions.ts:15-122 | the guards fail in order: no user, then no token, then no template, then an insert error prefixed "Failed to create session: "; a row is returned exactly when all pass. The row copies the form's fields and the template's organisation. Its end time is null without a start time, `toTimeStr(start + duration)` for a positive duration, and otherwise the template's end time verbatim or null |
| JsStrings.PadTwo | app/dashboard/sessions/actions.ts:77 | `padStart(2, '0')` keeps a string of two or more characters and left-fills a shorter one with `0` to length 2 |
| JsStrings.TwoDigitsRoundTrip | app/dashboard/sessions/actions.ts:77 | two digits read as a number and padded back give the same two digits |
| JsValues.Rem | app/dashboard/sessions/actions.ts:75-76 | JavaScript `%` takes the sign of the dividend and agrees with the Euclidean remainder on non-negative numbers |
| JsValues.StringToNumber | app/dashboard/sessions/actions.ts:69 | after trimming whitespace, the empty string is 0, a digit string is its value, `-` or `+` before digits negates or keeps it, and anything else is `NaN` |
| JsValues.NumberOrZero | app/dashboard/sessions/actions.ts:85 | `Number(x) \|\| 0`: a value that is not a number counts as 0, a number as itself |
| MockTicketGenerator.CharIndex | lib/MockTicketGenerator.ts:169 | `floor(random × 36)` is a valid index into the alphabet |
| MockTicketGenerator.AlphabetChars | lib/MockTicketGenerator.ts:163 | the alphabet has 36 characters, which are exactly `A-Z` and `0-9` |
| MockTicketGenerator.KeyOf | lib/MockTicketGenerator.ts:167-170 | six draws give a six-character key over the alphabet |
| MockTicketGenerator.FirstFreshKey | lib/MockTicketGenerator.ts:166-171 | the accepted key is a valid key that is not in the set in use |
| MockTicketGenerator.FirstFreshKeyIsDrawn | lib/MockTicketGenerator.ts:166-171 | the accepted key is the key spelt by some whole round of six draws |
| MockTicketGenerator.RandomStream.Next | lib/MockTicketGenerator.ts:169 | each `Math.random()` call consumes the next draw of the stream |
| MockTicketGenerator.DrawKey | lib/MockTicketGenerator.ts:167-170 | one round consumes six draws and yields the key they spell |
| MockTicketGenerator.GenerateUniqueTicketKey | lib/MockTicketGenerator.ts:162-175 | the key returned is the first fresh key of the draws: six characters of the alphabet, not in `existing` on entry, and `existing` grows by exactly that key; the draws after it are left |
| MockTicketGenerator.AfterFreshKey | lib/MockTicketGenerator.ts:166-171 | accepting a key uses up at least six draws; running out leaves none |
| MockTicketGenerator.BatchShape | lib/MockTicketGenerator.ts:177-189 | a batch that completes extends the tickets made so far to `count` tickets numbered from 1, with valid, pairwise distinct keys |
| MockTicketGenerator.BatchNeedsDraws | lib/MockTicketGenerator.ts:177-189 | fewer than six draws per missing ticket cannot complete the batch: it runs out |
| MockTicketGenerator.GenerateTickets | lib/MockTicketGenerator.ts:177-189 | the result is the batch the draws determine, running out exactly when it does; no tickets for `count <= 0`; otherwise `max(count, 0)` tickets with ids 1..count in order, each with a valid key, all keys pairwise distinct |
| MockTicketGenerator.PadTwoDigits | lib/MockTicketGenerator.ts:192-194 | a number below 100 is rendered as two digits that read back as the number |
| MockTicketGenerator.FormattedDateTimeShape | lib/MockTicketGenerator.ts:191-205 | the stamp is the year, then the month (`getMonth() + 1`), day, `-`, hours, minutes and seconds, each in two digits that read back as their value |
| MockTicketGenerator.LayOutMockSheet | lib/MockTicketGenerator.ts:61-70 | pages of 18 tickets, in order, ticket j of a page at column `j % 3` < 3 and row `j / 3` < 6 |
| PageGrid.Page | lib/PdfGenerator.ts:46 | page k holds the slice of tickets from `per × k`, with at most `per` of them |
| PageGrid.PlacePage | lib/PdfGenerator.ts:49-54 | ticket j of the page is placed at row `j / cols`, column `j % cols` |
| PageGrid.LayOutPages | lib/PdfGenerator.ts:45-54 | the page loop produces `ceil(n / per)` pages, page k being the k-th slice laid out cell by cell |
| PageGrid.EveryTicketPlaced | lib/PdfGenerator.ts:45-50 | ticket t is drawn on page `t / per` at slot `t % per` |
| PageGrid.PageCellsValid | lib/PdfGenerator.ts:53-54 | every cell of a page lies inside the grid, and no two tickets of a page share a cell |
| PageGrid.CellsDistinct | lib/PdfGenerator.ts:53-54 | different slots map to different (row, column) cells |
| PdfGenerator.GenerateTicketsPdf | lib/PdfGenerator.ts:41-54 | `ceil(n / 45)` pages and none for no tickets; page k holds tickets `[45k, min(45k + 45, n))` in order; slot j is at row `j / 9` < 5 and column `j % 9`; cells on a page are distinct; every ticket appears at page `t / 45`, slot `t % 45` |
| Scanner.InitialFormData | components/Scanner.tsx:26-31 | an object `user_data` gives one entry per key, with a falsy value shown as `""` and a truthy one kept; an array or non-object gives none |
| Scanner.MergeUserData | components/Scanner.tsx:107 | the merged `user_data` has the keys of both; the form's value wins, and keys only in the ticket keep theirs |
| Scanner.UntouchedFormKeepsUserData | components/Scanner.tsx:107 | submitting an unedited form keeps every truthy value and every key, turning only falsy values into `""` |
| Scanner.ScannerScreen.constructor | components/Scanner.tsx:11 | the screen starts in the menu with no ticket, no key and an empty form |
| Scanner.ScannerScreen.HandleLookup | components/Scanner.tsx:19-41 | the store is queried with the upper-cased key; a found ticket opens the form with its code and its initial form data; a missing one changes nothing |
| Scanner.ScannerScreen.OnManualInput | components/Scanner.tsx:215-219 | manual input looks the ticket up only at exactly six characters |
| Scanner.ScannerScreen.EditField | components/Scanner.tsx:261 | typing sets that one form key to the typed text |
| Scanner.ScannerScreen.HandleSubmit | components/Scanner.tsx:100-119 | with no ticket nothing happens; otherwise the ticket is redeemed with the merged `user_data` and the screen shows success, or stays put if the ticket is gone from the store |
| Scanner.ScannerScreen.HandleReset | components/Scanner.tsx:121-126 | back to the menu with no ticket, no key and an empty form |
| Scanner.ScannerScreen.ChooseScan | components/Scanner.tsx:138 | the menu's scan button switches to scan mode and changes nothing else |
| Scanner.ScannerScreen.ChooseManual | components/Scanner.tsx:152 | the menu's manual button switches to manual mode and changes nothing else |
| Scanner.ScannerScreen.BackToMenu | components/Scanner.tsx:196-198 | cancelling the scan or the manual entry returns to the menu and changes nothing else |
| Scanner.ScannerScreen.SyncNow | components/Scanner.tsx:161-172 | a missing or empty token fails with "No authentication token found" and writes nothing; otherwise the summary counts the dirty tickets as pushed plus failed, with one error per rejected push carrying its message, exactly the pushed tickets become synced, templates are unchanged and the log gains the failures' entries |
| TemplateForm.TotalTicketsAvailable | app/dashboard/templates/create/page.tsx:35-37 | slots × capacity when both are numbers, 0 when either is blank |
| TemplateForm.AddCustomField | app/dashboard/templates/create/page.tsx:39-41 | exactly one empty `text` field is appended and the others are kept |
| TemplateForm.RemoveCustomField | app/dashboard/templates/create/page.tsx:43-45 | only entry i is removed and the rest keep their order; an index out of range changes nothing |
| TemplateForm.UpdateCustomField | app/dashboard/templates/create/page.tsx:47-51 | only the chosen key of entry i changes |
| TemplateForm.NamedFields | app/dashboard/templates/create/page.tsx:84 | the payload's fields are exactly the entries whose label is not blank after trimming |
| TemplateForm.AddedFieldNotSent | app/dashboard/templates/create/page.tsx:84 | a freshly added, still empty field is never sent |
| TemplateForm.EndClockOfDay | app/dashboard/templates/create/page.tsx:59-67 | the end clock is the valid `HH:MM` of the minute of the day `totalMinutes` after the start, wrapping in either direction |
| TemplateForm.AutoEndTimeOfValid | app/dashboard/templates/create/page.tsx:54-67 | for a valid start time, the automatic end time is the valid `HH:MM` of start + slot duration × slot count, wrapped at 24 hours |
| TemplateForm.TemplateFormState.constructor | app/dashboard/templates/create/page.tsx:15-32 | the form's initial state |
| TemplateForm.TemplateFormState.AddField | app/dashboard/templates/create/page.tsx:39-41 | the field list becomes the appended list and no other field of the form changes |
| TemplateForm.TemplateFormState.RemoveField | app/dashboard/templates/create/page.tsx:43-45 | the field list loses entry i and no other field of the form changes |
| TemplateForm.TemplateFormState.UpdateField | app/dashboard/templates/create/page.tsx:47-51 | the field list has entry i updated and no other field of the form changes |
| TemplateForm.TemplateFormState.RecomputeEndTime | app/dashboard/templates/create/page.tsx:54-72 | for `TimeAllotted` with a start time and non-zero slot numbers, the end time is recomputed; otherwise it is left as it was |
| TemplateForm.TemplateFormState.Payload | app/dashboard/templates/create/page.tsx:80-111 | Numeric: a missing or zero maximum, then an empty end time, are rejected; otherwise the configuration has all slot numbers 0. TimeAllotted: any falsy start time or slot number is rejected; otherwise the numbers are passed on. The payload carries the name, types and named fields |
| TemplateForm.TemplateFormState.HandleSubmit | app/dashboard/templates/create/page.tsx:74-119 | the result is the payload of the fields on entry; a rejected payload shows its message and re-enables the button; an accepted one is sent, and a `createTemplate` failure shows its message, or "An error occurred", and re-enables the button, while success leaves it submitting |
| TemplateActions.OrNull | app/dashboard/templates/actions.ts:77-78 | an empty string is stored as null, anything else as itself |
| TemplateActions.ToRow | app/dashboard/templates/actions.ts:69-88 | a falsy capacity is null; start and end times are lifted from the configuration, and are null when it is absent or they are empty; the stored configuration keeps only the three slot numbers; the other fields pass through and the organisation comes from the session |
| TemplateActions.ConfigRoundTrip | app/dashboard/templates/actions.ts:77-85 | the configuration split across the row's columns reassembles to the one given |
| TemplateActions.CreateTemplate | app/dashboard/templates/actions.ts:25-101 | a missing or empty user id, token and organisation id each fail before any insert, in that order; an insert error fails with "Failed to create template: " + message; otherwise the row is the mapped payload |
| DynamicUserFields.StepperValue | components/DynamicUserFields.tsx:42 | a number field shows a number as it is and anything else as 0 |
| DynamicUserFields.Decrement | components/DynamicUserFields.tsx:47 | minus emits `max(0, v - 1)`, never negative |
| DynamicUserFields.Increment | components/DynamicUserFields.tsx:55 | plus emits `v + 1` |
| DynamicUserFields.TextValue | components/DynamicUserFields.tsx:93 | a text input shows `value \|\| ''` |
| DynamicUserFields.RenderInput | components/DynamicUserFields.tsx:39-100 | a number field gets the stepper, a boolean field a toggle that is on only for `true` or `'true'`, and every other type (list, text, unknown) a text box |
| DynamicUserFields.RenderRows | components/DynamicUserFields.tsx:22 | exactly one row per field, in order, with its label and input |
| DynamicUserFields.Render | components/DynamicUserFields.tsx:17-37 | missing or empty fields render nothing; otherwise one row per field key |
| DynamicUserFields.StepperNeverNegative | components/DynamicUserFields.tsx:47 | the value minus emits is never negative |
| DynamicUserFields.StepperRoundTrip | components/DynamicUserFields.tsx:41-61 | plus then minus returns a non-negative value; minus then plus returns a value of at least 1; a non-number shows 0 |
| DynamicUserFields.ToggleReadsBack | components/DynamicUserFields.tsx:63-85 | what YES and NO emit (`true`, `false`) reads back as on and off, as do the strings `'true'` and `'false'` |
| DynamicUserFields.TextReadsBack | components/DynamicUserFields.tsx:87-98 | typed text is shown as typed, and an absent value as `''` |
| HomeFilters.Lookup | components/home-filters.tsx:15-17 | a parameter is found exactly when some pair has that name |
| HomeFilters.CurrentFilter | components/home-filters.tsx:15-17 | an absent filter reads `''`, a present one its value |
| HomeFilters.LookupWithout | components/home-filters.tsx:24 | after `delete(name)` nothing is found under `name`, and every other name reads as before |
| HomeFilters.LookupWithSet | components/home-filters.tsx:22 | after `set(name, value)` the name reads `value`, and every other name reads as before |
| HomeFilters.SearchParams.constructor | components/home-filters.tsx:20 | the copy holds the current pairs |
| HomeFilters.SearchParams.Set | components/home-filters.tsx:22 | the pairs become the set result; the name reads the value and other names are unchanged |
| HomeFilters.SearchParams.Delete | components/home-filters.tsx:24 | the pairs lose every pair with the name; other names are unchanged |
| HomeFilters.HandleFilterChange | components/home-filters.tsx:19-37 | a non-empty value selects and an empty one clears; a country change clears state and city, a state change clears city; every other parameter, parents included, keeps its value; the new pairs are exactly `set` or `delete` of the name followed by the cascade's deletes, in that order; the target is `/?` followed by the serialised pairs |
| SessionPrint.ByteValues | app/dashboard/_components/session-actions.tsx:26-29 | one byte per character, each below 256 |
| SessionPrint.DecodeBytes | app/dashboard/_components/session-actions.tsx:24-29 | the array has the string's length and byte i is `charCodeAt(i)` stored in a `Uint8Array`, equal to it for codes below 256 |
| SessionPrint.DecodeRoundTrip | app/dashboard/_components/session-actions.tsx:24-29 | for a binary string, as `atob` returns, the bytes spell the string back |
| SessionPrint.SafeName | app/dashboard/_components/session-actions.tsx:47 | same length, only `[a-zA-Z0-9-_]`, each other character replaced by `_` |
| SessionPrint.SafeNameKeepsSafe | app/dashboard/_components/session-actions.tsx:47 | a name already made of safe characters is unchanged |
| SessionPrint.SafeNameIdempotent | app/dashboard/_components/session-actions.tsx:47 | replacing twice is replacing once |
| SessionPrint.DigitPrefix | app/dashboard/_components/session-actions.tsx:41-44 | the longest run of leading digits, which `parseInt` reads |
| SessionPrint.ParseIntOfDigits | app/dashboard/_components/session-actions.tsx:41-44 | `parseInt` of a digit string is its value |
| SessionPrint.ParsePart | app/dashboard/_components/session-actions.tsx:41-44 | a missing date part parses to `NaN` |
| SessionPrint.NumberText | app/dashboard/_components/session-actions.tsx:46 | a number is written in decimal, `NaN` as `NaN` |
| SessionPrint.MonthName | app/dashboard/_components/session-actions.tsx:36 | indices 0..11 name the month's abbreviation; anything else reads `undefined` |
| SessionPrint.FormattedDateOfIso | app/dashboard/_components/session-actions.tsx:36-46 | for `YYYY-MM-DD` with month 01..12, the date part is the year's value, the month's abbreviation and the two day digits as written |
| SessionPrint.FormattedDateBadMonth | app/dashboard/_components/session-actions.tsx:36-46 | a month outside 01..12 puts `undefined` in the name |
| SessionPrint.HandlePrint | app/dashboard/_components/session-actions.tsx:18-63 | a failure becomes "Failed to generate PDF: " + message; success gives the decoded bytes and `Tickets_<safe name>_<date>.pdf` |
| Proxy.Decide | proxy.ts:12-97 | signed out (no user id, or an empty one): a `/dashboard` path goes to sign-in and any other path passes, unqueried. Signed in on `/onboarding`: passes without the membership query. Otherwise the query is made; a user without an organisation on a `/dashboard` path goes to `/onboarding`, and every other case passes |
| Proxy.DashboardRedirectUnreachable | proxy.ts:91-94 | the redirect of a member from `/onboarding` to `/dashboard` never happens |
| Proxy.UnqueriedIgnoresMemberships | proxy.ts:68-73 | when the membership query is not made its result cannot change the decision |
| Proxy.RedirectsOnlyDashboard | proxy.ts:12-97 | only `/dashboard` paths are ever redirected, and only for a signed-out user or one without an organisation |
| CreateSessionForm.FindTemplate | app/dashboard/sessions/create/create-session-form.tsx:36 | a template is found exactly when some offered template has the id, and it is one of them |
| CreateSessionForm.TemplateTime | app/dashboard/sessions/create/create-session-form.tsx:38-42 | a chosen template with a non-empty start time gives its first five characters; otherwise no time |
| CreateSessionForm.DatePartOfTimestamp | app/dashboard/sessions/create/create-session-form.tsx:32-33 | the date part of an ISO timestamp is the text before the `T` |
| CreateSessionForm.SessionForm.constructor | app/dashboard/sessions/create/create-session-form.tsx:25-28 | the form starts empty, with status `scheduled` |
| CreateSessionForm.SessionForm.OnMount | app/dashboard/sessions/create/create-session-form.tsx:31-44 | the date becomes today's; the `template_id` parameter is adopted only if it names an offered template, and a start time of that template sets the time; otherwise template and time are unchanged |
| CreateSessionForm.SessionForm.HandleTemplateChange | app/dashboard/sessions/create/create-session-form.tsx:47-59 | the choice is always recorded; a template with a start time sets the time, while the empty option or a template without one leaves it |
| CreateSessionForm.SessionForm.Payload | app/dashboard/sessions/create/create-session-form.tsx:67-72 | the payload copies template, date, time and status verbatim |
| CreateSessionForm.SessionForm.HandleSubmit | app/dashboard/sessions/create/create-session-form.tsx:61-79 | the payload is the current fields; a failure shows its message, or "An error occurred", and re-enables the button |
| TeamPage.FirstEmail | app/dashboard/team/page.tsx:111 | the first email address when the profile has one |
| TeamPage.PrimaryName | app/dashboard/team/page.tsx:107-110 | the first non-empty of the username, the trimmed "first last" and the first email; failing all, the user id |
| TeamPage.PrimaryNameNonEmpty | app/dashboard/team/page.tsx:107-110 | a non-empty user id guarantees a non-empty display name |
| TeamPage.NoProfileShowsUserId | app/dashboard/team/page.tsx:107-110 | a member without a profile is shown by user id |
| TeamPage.Initials | app/dashboard/team/page.tsx:120 | at most the first two characters of the name, upper-cased |
| TeamPage.NameLabel | app/dashboard/team/page.tsx:124 | the viewer's own row is labelled `(You)`, and others are not |
| TeamPage.EmptyRowColSpan | app/dashboard/team/page.tsx:165 | the empty row spans 4 columns for an Admin and 3 otherwise |
| TeamPage.RenderMember | app/dashboard/team/page.tsx:105-160 | a row shows the initials, the label, the email and the role of the member's display name, plus the delete control when allowed |
| TeamPage.RenderMembers | app/dashboard/team/page.tsx:105-106 | one row per member, in order, each with the profile found under its user id |
| TeamPage.DeleteNeverOwnRow | app/dashboard/team/page.tsx:144-146 | the delete control is never on the viewer's own row and never shown to a non-Admin |

## Left out

- Network and authentication are inputs. This covers Supabase queries, inserts and updates, Clerk sessions, tokens and memberships, and the `redirect` / `revalidatePath` calls. The server's answers are parameters: a fetched list or error, an error message per push, an insert error.
- Opening the IndexedDB database and its schema upgrade are not modelled. The three stores are two maps and a sequence.
- Concurrency is not modelled. Operations run one at a time, so a scan that interleaves with a sync cannot be expressed.
- Sync's snapshot order follows the store's key order in the browser. The model picks the snapshot in an unspecified order, so the order of `errors` and of the log entries is only pinned to push order, not to key order.
- The `synced` flag is a boolean. Every write path sets it, so `undefined` never arises.
- `Math.random` is a finite stream of draws. Key generation whose draws run out returns `None`; the source would keep looping, and loops forever when every key is taken.
- MockTicketGenerator.GenerateTickets: the default `count = 50` argument is not modelled; callers pass the count.
- Dates and clocks are parameters. This covers `Date.now`, `new Date()`, ISO formatting and local-time (daylight-saving) effects in the template end-time effect, which the model wraps at 1440 minutes.
- Floating-point PDF geometry, QR rendering, fonts and file output are not modelled. Only page chunking and (row, column) cells are.
- Camera scanning, the alert texts of the scanner, and the browser download (Blob, anchor click) are not modelled. The busy flags of the print and download buttons are not modelled either.
- SessionPrint.HandlePrint: the base64 decoding (`atob`) is an input; the model starts from the decoded string.
- JsValues.Value: JavaScript numbers are integers in the model (`Num(n: int)`, with `NaN` apart), so fractional values and the rounding of integers above 2^53 are outside it. The modelled code counts tickets, slots, minutes and bytes, and its number inputs keep the browser's default step of 1 (the slot duration has `step="5"`) with `min` attributes; only values typed against those constraints and not yet submitted could be fractional.
- TotalTicketsAvailable (TemplateForm): a slot count or capacity that the form holds as a fraction while it is being typed (`Number(e.target.value)` of `2.5`) cannot be represented, so the fractional product the form would display is not modelled; integer inputs are modelled exactly.
- RecomputeEndTime (TemplateForm.TemplateFormState): a fractional slot duration or slot count gives a fractional total of minutes in the code, and the `HH:MM` text the code then renders is not modelled; integer inputs are modelled exactly.
- JsValues.StringToNumber: `Number()` of decimals, exponents, hexadecimal and `Infinity` is `NaN` in the model. The code only converts two-digit parts of `HH:MM` times and slot numbers.
- JsValues.ToNumber: `Number()` of an array is `NaN` in the model, whereas JavaScript converts an empty or one-element array through its string form.
- SessionPrint.ParseInt: the `0x` prefix and leading-zero radix rules of `parseInt` are not modelled. Only decimal digits are read.
- Strings are sequences of Unicode characters, while JavaScript strings count UTF-16 code units. A character outside the Basic Multilingual Plane (an emoji, say) is one element in the model but two in the code, so a length test (`length === 6` in the scanner's manual entry, Scanner.ScannerScreen.OnManualInput) or a `substring` (TeamPage.Initials) can differ on such text.
- SessionPrint.SafeName: a character outside the Basic Multilingual Plane becomes one `_` in the model, where the code's regular expression (without the `u` flag) writes one `_` per UTF-16 code unit, so two.
- JsStrings.ToUpper: only ASCII `a`–`z` are upper-cased. `trim` uses a fixed whitespace set.
- HomeFilters.Serialize: percent-encoding of names and values is not modelled. Pairs are joined as `name=value` with `&`.
- Proxy.IsProtectedRoute: the route-matcher library is modelled as a prefix test on `/dashboard` and an exact test on `/onboarding`, with no trailing-slash or locale handling.
- Scanner.InitialFormData: spreading an array or string `user_data` into the merged object is not modelled. Such a value contributes no keys.
- The create-template form sends `ticket_type`, `distribution_type` and `max_numeric_tickets`, while `createTemplate` reads `ticket_format`, `issuance_order` and `capacity`. Both sides are modelled as written, with separate payload types, and the mismatch is not reconciled.
- The team page is modelled without fetching the Clerk users (`usersMap` is a parameter), the joined-date formatting, the role badge styling, or the invite and Actions header markup.
