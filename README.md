# Taizé community events — a verified model

This project models the browser-side core of the Taizé community event map in Dafny. The app keeps prayer meetings and gatherings in the browser's `localStorage` and shows them on a map, in a sidebar and in an admin panel. It can also pull them from a public Google Sheets table.

The model covers three classes:

- **GoogleSheetsDB** (`js/sheets.js`). It loads events from the sheet's JSONP export, unwraps the payload and turns each row into an event. It keeps a five-minute cache and a last-sync time. It also formats an event as a tab-separated row, reports its sync and cache status, and keeps an on/off switch in storage.
- **TaizeCommunityApp** (`js/main.js`). It loads stored events, or on a first visit the sheet's events, or else three built-in examples. It drops incomplete events and saves the list together with its metadata. It validates and creates events from the form, deletes events and parses photo lists. It computes the sidebar statistics, the recent and future lists and the short relative dates, and it decides which views a refresh redraws.
- **AdminManager** (`js/admin.js`). It holds the per-field validation rules and validates one field, an event date or the whole form. It fills in a city centre's coordinates. It autosaves the form as a draft and restores or discards the draft after a day. It imports a JSON backup, computes the statistics report and its CSV export, and wipes all data after a typed confirmation.

Modules:

- `JsValues` covers the JavaScript values the code tests for truthiness (`undefined`, `null`, `NaN`, strings, numbers), `||`, and strict equality.
- `Text` covers `trim`, `split`, `join`, lower-casing, `includes` and decimal digits.
- `EventModel` covers the event record, the completeness filter that `validateEvents` applies, the built-in examples and photo-list parsing. It also holds the `Platform` record. Its total functions stand in for what the browser computes: `parseInt`, `parseFloat`, `new Date(...)`, `toISOString`, `toFixed(6)`, the `URL` constructor, `JSON.parse`/`JSON.stringify` of each stored shape, and locale month names.
- `BrowserStorage` is `localStorage` as a class over a `map<string, string>`.
- `Sheets` and `SheetsSync` model `js/sheets.js`.
- `CommunityApp` models `js/main.js`.
- `AdminRules`, `AdminStats` and `AdminData` model `js/admin.js`.

Clock readings, the network response, the user's answers to `confirm`/`prompt`, and file contents are passed in as parameters. The classes keep the source's mutable state as fields: `events`, `cache`, `lastSync`, `isEnabled`, `currentSection` and the storage items.

## Model

| member | source | states |
|---|---|---|
| JsValues.Or | js/sheets.js:138 | `a \|\| b` yields `a` when `a` is truthy, otherwise `b`; the result is truthy iff either operand is |
| EventModel.DefaultEvents | js/main.js:96-142 | three example events with ids `now`, `now+1`, `now+2`, all complete when the clock is positive |
| EventModel.ValidEventsSpec | js/main.js:191-201 | the kept events are exactly the complete ones (id, title, date, location, lat, lng truthy), in their original order and with their multiplicities |
| EventModel.ValidEventsIdempotent | js/main.js:191-201 | validating twice drops nothing more |
| EventModel.PhotoListSpec | js/sheets.js:140 | every photo from a comma list is non-empty, has no surrounding white space and contains no comma |
| EventModel.PhotoListInOrder | js/sheets.js:140 | the photos are the non-empty trimmed pieces of the comma split, in order, each kept as often as it occurs and no empty piece kept |
| EventModel.ParsePhotosIsValidPhotoList | js/main.js:378-385 | `parsePhotos` keeps exactly the photo-list entries that the `URL` check accepts, in order (the admin form's copy at js/admin.js:801-808 is identical) |
| BrowserStorage.Storage.GetItem | js/main.js:64 | an item is present iff its key was stored, and it returns that value |
| BrowserStorage.Storage.SetItem | js/main.js:214-215 | setting an item changes only that key |
| BrowserStorage.Storage.RemoveItem | js/admin.js:717 | removing an item deletes only that key |
| Sheets.StripPayload | js/sheets.js:60 | drops the first 47 and the last 2 characters, or yields "" when the text is shorter than 49 |
| Sheets.StripPayloadUnwraps | js/sheets.js:59-61 | a JSON text wrapped in the 47-character prefix and 2-character suffix comes back unchanged |
| Sheets.CellValue | js/sheets.js:103-105 | a present non-`null` cell gives its own value; a missing or `null` cell gives the default |
| Sheets.UnparsableIdIsDroppedLater | js/sheets.js:107 | a row whose id cell is filled but not an integer is imported with id `NaN`, and the later validation drops that event |
| Sheets.CoordinateOrZero | js/sheets.js:135-136 | `parseFloat(v) \|\| 0`: zero exactly when unparsable or zero, the parsed number otherwise |
| Sheets.ParseRow | js/sheets.js:100-152 | a row yields an event iff its title cell is truthy, and that event's title is truthy |
| Sheets.RowEventFieldRules | js/sheets.js:130-144 | the event's fields: description fallback for the full description, default status, `source` "sheets", creation time |
| Sheets.RowEventPhotos | js/sheets.js:140 | an empty photo cell gives no photos; otherwise every photo is a non-empty trimmed comma-free piece |
| Sheets.UnparsableLatitudeIsDroppedLater | js/sheets.js:135 | an unparsable latitude becomes 0, so the app's validation later drops that event |
| Sheets.RowEventAtKept | js/sheets.js:72-79 | a row adds an event iff it has cells and a title, and then it is the parsed row numbered `i + 2` |
| Sheets.RowOriginsAreKeptRows | js/sheets.js:71-83 | the imported events come from strictly increasing row indices, which are exactly the kept rows |
| Sheets.RowEventsFromOrigins | js/sheets.js:71-83 | the k-th imported event is the parse of the k-th kept row |
| Sheets.ImportedEventsHaveTitles | js/sheets.js:63-88 | every event loaded from the sheet has a truthy title, and a payload without a table yields none |
| Sheets.PhotoListReadsJoinedPhotos | js/sheets.js:263 | photos written to the sheet joined with ", " read back as the same list |
| Sheets.FormatEventForSheetColumns | js/sheets.js:252-267 | the formatted row splits on tabs into exactly its 12 columns, the last being the planned status |
| Sheets.CacheAfterFetch | js/sheets.js:39-44 | only a non-empty result is cached, with the fetch time |
| Sheets.CacheServesUntilExpiry | js/sheets.js:30 | a cached result is served iff less than five minutes have passed |
| Sheets.GoogleSheetsDB.constructor | js/sheets.js:7-19 | enabled, never synced, empty cache |
| Sheets.GoogleSheetsDB.FetchEventsFromSheets | js/sheets.js:52-95 | the loop collects the imported events of the payload; the last-sync time is set only when a table was read |
| Sheets.GoogleSheetsDB.LoadEvents | js/sheets.js:24-47 | disabled gives nothing; a fresh cache is served without fetching; otherwise fetch and cache a non-empty result |
| Sheets.GoogleSheetsDB.ClearCache | js/sheets.js:334-337 | the cache becomes empty |
| Sheets.GoogleSheetsDB.ForceLoadEvents | js/sheets.js:342-345 | clears the cache and fetches whenever enabled; the last-sync time moves to the clock exactly when enabled and the response holds a table |
| Sheets.GoogleSheetsDB.ToggleEnabled | js/sheets.js:299-308 | flips the switch and stores "true"/"false" under its key |
| Sheets.GoogleSheetsDB.LastSyncStatus | js/sheets.js:313-329 | never, just now under a minute, whole minutes under an hour, whole hours after that |
| Sheets.GoogleSheetsDB.CacheStatus | js/sheets.js:350-363 | empty iff nothing cached; valid iff fresh, with the minutes left; expired otherwise |
| SheetsSync.SyncReportsDiffer | js/sheets.js:157-187 | with the app present the written sync never reports success; without it the written and intended reports agree; they differ exactly when the app is present and events arrived |
| SheetsSync.SuccessfulSyncReportsFailure | js/sheets.js:161-186 | with the app present and events fetched, the sync still reports failure |
| SheetsSync.BackupItems | js/sheets.js:163-164 | the backup key holds the app's events before they are replaced, and every other key keeps its value |
| SheetsSync.SyncWithSheets | js/sheets.js:157-187 | as written: backup, replace the app's events, save, then report failure; the importer's cache and last-sync time are those of a load at this moment |
| SheetsSync.SyncWithSheetsIntended | js/sheets.js:157-187 | the same updates, including the importer's cache and last-sync time, reporting success iff events arrived |
| CommunityApp.SavedItems | js/main.js:206-223 | saving writes the events and the metadata keys and leaves every other key alone |
| CommunityApp.StoredLoad | js/main.js:64-67 | stored events are decoded and then validated, so every loaded event is complete |
| CommunityApp.ColdStartEvents | js/main.js:69-81 | the sheet's events when there are any, else the events already held, else the three examples; never empty |
| CommunityApp.SavedEventsLoadBack | js/main.js:206-215 | what `saveEvents` stored loads back as the valid subset of the saved events |
| CommunityApp.ReloadIsStable | js/main.js:62-91 | loading, validating, saving and reloading changes nothing |
| CommunityApp.ReadForm | js/main.js:306-326 | each of the nine fields is the trimmed text of its input |
| CommunityApp.ReadFormIdempotent | js/main.js:306-326 | reading an already-read form changes nothing |
| CommunityApp.FormErrors | js/main.js:331-354 | no error iff title, date, location and description are present and latitude/longitude parse within 44–52 and 22–40 |
| CommunityApp.ValidateFormData | js/main.js:331-354 | accepted iff the form is acceptable |
| CommunityApp.CreateEventFromForm | js/main.js:359-373 | id is the clock, photos are the parsed list, full description falls back to the description, coordinates are the parsed numbers (`NaN` when unparsable), and an accepted form gives a complete event at its parsed coordinates |
| CommunityApp.RemoveIdSpec | js/main.js:605 | deleting keeps, in order, exactly the events whose id is not strictly equal to the given one, each as often as before; a `NaN` id removes nothing |
| CommunityApp.GetStatistics | js/main.js:942-953 | total is the count, past + future never exceed it and equal it when every date parses; no events give all zeros |
| CommunityApp.GetStatisticsAppend | js/main.js:942-953 | adding one event raises the total by one, and past, future and with-photos by one exactly when that event is past, upcoming or has photos |
| CommunityApp.InsertBy | js/main.js:717 | insertion adds exactly one element |
| CommunityApp.SortBy | js/main.js:805 | sorting is a permutation |
| CommunityApp.InsertBySorted | js/main.js:717 | inserting into a sorted list keeps it sorted |
| CommunityApp.SortBySorted | js/main.js:805 | the sorted list is ordered by date |
| CommunityApp.RecentEventsSpec | js/main.js:798-825 | at most six past events, newest first, all from the list, and no omitted past event is newer than the last shown |
| CommunityApp.FutureEventsSpec | js/main.js:705-730 | exactly the events dated after now, ascending by date, as a permutation of that filter |
| CommunityApp.FormatDateShort | js/main.js:865-890 | today, yesterday, days (fewer than 7), weeks (fewer than 30 days) or a calendar date, by the floored day difference |
| CommunityApp.RefreshedViews | js/main.js:772-785 | the sidebar always; map markers iff the map is ready; the admin or the future list only in its section |
| CommunityApp.App.constructor | js/main.js:7-19 | no events, the map section, not initialised |
| CommunityApp.App.SaveEvents | js/main.js:206-223 | storage becomes the saved items of the current events |
| CommunityApp.App.ValidateEvents | js/main.js:191-201 | the events become their valid subset |
| CommunityApp.App.LoadEvents | js/main.js:62-91 | stored events are loaded and validated; otherwise the cold-start list is loaded, saved and validated, and the importer's cache and last-sync time are those of its load; all complete |
| CommunityApp.App.LoadStoredEvents | js/main.js:64-68 | the events are the stored load of the saved text |
| CommunityApp.App.LoadOnFirstVisit | js/main.js:69-81 | the cold-start list, saved to storage, with the importer's cache and last-sync time updated by its load |
| CommunityApp.App.LoadFromSheetsFirst | js/main.js:147-165 | the imported events replace the list when there are any, otherwise the list stays; the importer's cache and last-sync time follow its load |
| CommunityApp.App.SaveFirstList | js/main.js:75-84 | an empty list becomes the default events; the list is saved and then validated, all complete |
| CommunityApp.App.HandleEventSubmit | js/main.js:274-301 | an accepted form appends the created event and saves; a rejected form changes nothing |
| CommunityApp.App.DeleteEvent | js/main.js:599-614 | without confirmation nothing changes; with it the matching events are removed and the list saved |
| CommunityApp.App.ShowSection | js/main.js:402-442 | the current section becomes the requested one |
| CommunityApp.App.Init | js/main.js:24-57 | two loads, then the map section and initialised; events stored and complete; with stored events storage and the importer are untouched, on a first visit the second load reads back the saved cold-start list and the importer keeps the state of the first load; the sheets switch never changes |
| AdminRules.RuleFor | js/admin.js:55-97 | rules exist exactly for the form's fields; latitude is numeric in 44–52 and longitude in 22–40 |
| AdminRules.ValidateEventDate | js/admin.js:503-529 | an empty date passes; an unparsable one is invalid; otherwise valid iff it is no more than a year back and no more than a year ahead |
| AdminRules.FieldErrorsEmptyIff | js/admin.js:432-499 | a field has no error iff it is acceptable; an empty required field gives exactly the "required" error |
| AdminRules.ValidateField | js/admin.js:432-499 | the raw text is trimmed first; valid iff the field's rule accepts the trimmed value, and the first error found is the one shown |
| AdminRules.CollectErrors | js/admin.js:442-488 | the errors of one rule, in the order the checks run |
| AdminRules.CheckNumber | js/admin.js:463-475 | a number field: one error when unparsable, otherwise the bound errors |
| AdminRules.CoordinateRulesAgreeWithAppForm | js/admin.js:55-97 | the admin coordinate rules accept exactly what the app's form check accepts |
| AdminRules.ValidateForm | js/admin.js:554-568 | the form is valid iff every present ruled field's trimmed value is valid, and every present field is checked, in rule order |
| AdminRules.CityCentresWithinRanges | js/admin.js:325-366 | each offered city centre satisfies the coordinate rules |
| AdminRules.FindCity | js/admin.js:325-366 | the first city whose name includes the answer, case-insensitively, or none iff none matches |
| AdminRules.SelectCity | js/admin.js:325-366 | no answer gives no city; a number picks that list entry; otherwise a name search |
| AdminRules.SetCityCenterAsWritten | js/admin.js:368-376 | as written: the latitude is set, then the longitude write fails, leaving the old longitude |
| AdminRules.CityCentreLeavesLongitude | js/admin.js:372-373 | choosing Lviv leaves the longitude field unchanged, while the corrected version sets it |
| AdminRules.SetCityCenter | js/admin.js:325-376 | the chosen city's latitude and longitude are both written with six decimals |
| AdminStats.BumpSpec | js/admin.js:1036-1040 | counting one more event adds one to that key only, keeping keys distinct and counts positive |
| AdminStats.TallyBySpec | js/admin.js:1007-1041 | a tally totals the number of events, and each key's count is the number of events with that key |
| AdminStats.SidebarAgreesWithReport | js/admin.js:1012-1017 | the report's total, past and with-photos counts equal the sidebar's; its future count also holds the undated events |
| AdminStats.PhotosCoverEventsWithPhotos | js/admin.js:1024-1043 | the photo total is at least the number of events with photos, and zero iff none has photos |
| AdminStats.StatisticsAreConsistent | js/admin.js:989-1046 | past + upcoming is the total; this-year, with-photos and with-program are bounded by it; tallies sum to the total |
| AdminStats.GenerateStatistics | js/admin.js:989-1046 | the loop computes exactly the statistics function |
| AdminStats.AppendEntries | js/admin.js:1065-1073 | appends one row per tally entry |
| AdminStats.ConvertStatisticsToCsv | js/admin.js:1051-1076 | the CSV is the summary, then the location rows, then the month rows |
| AdminStats.QuoteInLocationForgesRows | js/admin.js:1066 | a location containing a quote and a newline renders as two other rows |
| AdminStats.QuotedEntriesRoundTrip | js/admin.js:1066 | with quotes doubled, every tally reads back from its rows unchanged |
| AdminStats.QuotedRowsKeepLocationsApart | js/admin.js:1066 | the two tallies that collide as written render differently once quotes are doubled |
| AdminData.ImportOutcomeOf | js/admin.js:910-952 | not JSON exactly when the text does not parse, wrong format exactly when it parses without an `events` field, otherwise declined or imported by the confirmation |
| AdminData.ImportedEventsAreValidatedOnReload | js/admin.js:927-931 | imported events are stored as given and come back as their valid subset; an incomplete one is lost |
| AdminData.KeptFieldKeys | js/admin.js:650-672 | a field is saved iff some input has an id and a non-empty trimmed value |
| AdminData.KeptFieldValues | js/admin.js:650-672 | a saved field holds the last such input's trimmed value |
| AdminData.Draft | js/admin.js:650-672 | the draft holds exactly the saved fields, each with its kept value, plus the timestamp of the save |
| AdminData.RestoredFields | js/admin.js:677-711 | restores exactly the non-empty draft values of existing form fields, never the timestamp |
| AdminData.DraftLoad | js/admin.js:677-711 | no draft exactly when nothing is saved; discarded exactly when the saved text is unreadable or expired; otherwise its restored fields |
| AdminData.DraftRestoresWithinADay | js/admin.js:684-703 | a draft saved less than a day ago restores its fields |
| AdminData.RestoredDraftFields | js/admin.js:696-703 | the restored fields are the saved form fields that exist in the form |
| AdminData.DraftExpiresAfterADay | js/admin.js:684-693 | a draft older than a day is discarded |
| AdminData.AdminManager.HandleImportFile | js/admin.js:910-952 | only a confirmed import replaces and saves the app's events; anything else leaves storage and events alone |
| AdminData.AdminManager.SaveFormData | js/admin.js:650-672 | the loop stores the draft of the trimmed inputs under the draft key |
| AdminData.AdminManager.LoadFormData | js/admin.js:677-711 | the outcome of the stored draft; an unreadable or expired draft is removed, otherwise storage is untouched |
| AdminData.AdminManager.ClearFormData | js/admin.js:716-722 | removes the draft key only |
| AdminData.AdminManager.ClearAllData | js/admin.js:1081-1122 | clears iff confirmed and the typed word is "ВИДАЛИТИ": events, metadata and draft go, and the app's list empties |
| AdminData.ClearingKeepsBackupAndSwitch | js/admin.js:1098-1100 | clearing keeps the sync backup and the sheets switch |

## Left out

- DOM rendering, modals, notifications, map markers (`js/map.js`) and the service worker: they draw or cache pages and compute nothing the model states.
- `fetch`, `FileReader`, `confirm`, `prompt`, timers and `location.reload`: their results come in as parameters, and `setTimeout` delays are not modelled.
- JSON, `Date` parsing and formatting, `parseInt`/`parseFloat`, `toFixed`, the `URL` check and locale month names are `Platform` functions. Lemmas that need a round trip take it as a precondition.
- Floating point: coordinates are `real`, and NaN is a separate `Val` case.
- JavaScript orders integer-like object keys before the others; the statistics tallies keep plain insertion order.
- AdminStats.GenerateStatistics: the source's location and month tallies are plain objects that inherit `Object.prototype` (js/admin.js:1000, 1037). A location named `constructor`, `toString` or `valueOf` starts from the inherited function, so its count becomes text, and `__proto__` is never counted. The model's `Tally` is a clean dictionary that counts every key normally, so its `Total(s.locations) == s.total` does not hold in the source for such names.
- SheetsSync.SyncWithSheets: in the source, the importer's cache and the app's list are one array after a sync (js/sheets.js:40-46, 168). So App.HandleEventSubmit's `push` (js/main.js:286) also grows the cache, and a form submitted before the cache expires survives the next sync. The model keeps the cache and the list as separate values: the next sync within five minutes restores the cached list without that event, and HandleEventSubmit leaves the cache unchanged. The same holds for SheetsSync.SyncWithSheetsIntended.
- `instanceof Date` on a sheet cell is never true for parsed JSON, so that branch of `parseRowToEvent` is not modelled.
- The draft holds string values only, and `photos` is always a list.
- `testConnection`, `getSheetURL`, `showAddInstructions`, export downloads, keyboard shortcuts, sample filling, duplication and autocomplete are not part of this model.
- CommunityApp.App.HandleEventSubmit: takes the form data already read (`ReadForm`) instead of reading DOM fields.
- Sheets.GoogleSheetsDB.FetchEventsFromSheets: the row loop uses one clock reading for every row's fallback id and creation time.
- AdminData.AdminManager.LoadFormData: returns the field values to write instead of assigning them to DOM inputs.
- AdminStats.StatisticsAreConsistent: the average photo count is the `Platform`'s text rendering, and only its "0" case is stated.
- CommunityApp.SortBy: an insertion sort; stability against the browser's `Array.prototype.sort` is not stated.
- CommunityApp.App.constructor: the source constructor ends by starting `init()` (js/main.js:18), and with stored events the load runs before the constructor returns; here the constructor only sets the fields (no events yet) and start-up is the separate `Init` the caller runs next.
- AdminRules.ValidateField: JavaScript's `length` counts UTF-16 code units while `|value|` counts characters, so the minimum and maximum length checks differ for text containing characters outside the Basic Multilingual Plane.

## Findings

| source | as written | input that shows it | evidently intended | confidence | as-written member | corrected member |
|---|---|---|---|---|---|---|
| js/sheets.js:172 | after a successful sync it calls `window.app.forceRefreshUI()`, which the app class does not define; the thrown error lands in the catch and the sync returns false | any sync that fetches at least one event while the app is loaded | return true and refresh the UI | not executed | SheetsSync.SuccessfulSyncReportsFailure | SheetsSync.SyncWithSheetsIntended |
| js/admin.js:373 | assigns `.value` on the number `lng` instead of the longitude input; in class (strict) code this throws after the latitude was already set | answer "2" (Lviv) in the city prompt | write both coordinates | not executed | AdminRules.CityCentreLeavesLongitude | AdminRules.SetCityCenter |
| js/admin.js:1066 | wraps locations (and months, 1072) in quotes without doubling embedded quotes | a location `a",1` newline `"b` with count 2 renders as rows `a`,1 and `b`,2 | escape quotes so each location is one field | not executed | AdminStats.QuoteInLocationForgesRows | AdminStats.QuotedEntriesRoundTrip |
