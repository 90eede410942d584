# Camera-angle image generator: the orchestration core

This project models the state and the handlers of `App.tsx` in
gen_images_angles_app. It also models the download file-name rule that
`services/canvaService.ts` repeats. The app takes an uploaded photo and asks
a remote image service for one new picture per selected camera angle. The
model covers how those calls are gated, ordered, paced and counted, and how
the three post-processing actions change the gallery:

- upscale;
- background removal;
- background change.

The remote service and the browser are not modelled. Their answers enter as
values instead:

- Each remote call is answered by a `Reply`: a success with its payload or a
  failure.
- The same `Reply` carries the clock readings the handler takes right after
  the call: the calendar day and the `Date.now()` text.
- The two persisted storage entries are fields of the coordinator.

Every handler is one atomic method of `App.Coordinator`. Each is proved
against a pure definition:

- A generation run is proved against `Generation.RunFrom`. Its calls, its
  cooldown ticks (ten to one, after every successful attempt except at the
  last selected angle), its results, its error and its ledger are all stated
  in `RunFrom`'s terms.
- The `imgs.map(img => img.id === id ? {...} : img)` updates of the
  post-processing actions are proved against `Images.PatchById`.
- The usage record is proved against `Usage.Load` and `Usage.Increment`.
- The start-up key choice is proved against `Credentials.Resolve`.
- The checkbox is proved against `Selection.Toggle`.

Strings are sequences of UTF-16 code units (`Types.JsString`), as in
JavaScript. So the file-name regex, which has no `u` flag, works on surrogate
halves, and `trim` is ECMAScript's white-space set on code units.

The modules, in dependency order:

- `Types`: strings, records, errors, replies.
- `Text`: `trim`.
- `FileName`: the download names.
- `Usage`: the daily ledger.
- `Credentials`: the API key.
- `Selection`: the angle set and the filter.
- `Images`: gallery updates.
- `Generation`: the reference run.
- `App`: the coordinator class.

Three behaviours of the code worth knowing:

- **Upscale baseline.** Every successful upscale overwrites `originalSrc` with
  the source the call started from (App.tsx:279-283). The first baseline
  survives only because the upscale button is disabled once `originalSrc` is
  truthy (App.tsx:507). `Images.UpscaleTwiceOverwritesBaseline` shows what a
  second upscale would do. `Images.UpscaleDisablesButton` shows why it cannot
  happen through the button.
- **Credential check.** The handlers never check that a credential is
  present. They pass `apiKey` along as it is, and only the key prompt stands
  in the way. The model has no credential check in any handler.
- **Background change inputs.** The change-background call gets the prompt
  as typed, not trimmed. It gets the source of the record as it was when the
  dialog was opened (`editingImage`), not the gallery's current record.

## Model

| member | source | states |
|---|---|---|
| Types.DataUrl | App.tsx:229 | a stored image source is the 22 units `data:image/png;base64,` followed by exactly the payload |
| Text.IsWhiteSpace | App.tsx:129 | among ASCII code units exactly tab, line feed, vertical tab, form feed, carriage return and space are white space for `trim`; no-break space, the byte-order mark and the line and paragraph separators are too |
| Text.TrimStart | App.tsx:129 | the result is a suffix of the input, it does not start with white space, and everything dropped is white space |
| Text.TrimEnd | App.tsx:129 | the result is a prefix of the input, it does not end with white space, and everything dropped is white space |
| Text.Trim | App.tsx:129-131 | the trimmed string is no longer than its input and neither starts nor ends with white space |
| Text.TrimIsSlice | App.tsx:129-131 | the trimmed string is a contiguous slice of the input, with only white space outside it |
| Text.TrimEmptyIff | App.tsx:129 | a string trims to empty exactly when every code unit in it is white space (both directions), which is when save and change-background do nothing |
| Text.TrimIdempotent | App.tsx:130-131 | trimming the already trimmed key changes nothing |
| FileName.ReplaceDisallowed | services/canvaService.ts:7 | the global replace maps each code unit one for one: units in the class `[a-z0-9א-ת]` (case-insensitive) are kept, all others become `_` |
| FileName.LowerCaseKept | services/canvaService.ts:7 | on the replace's output, lower-casing keeps the length and maps exactly `A-Z` to `a-z` |
| FileName.Sanitise | services/canvaService.ts:7 | the sanitised name has the input's length, and each code unit is the input's unit lower-cased if it is an ASCII letter, kept if it is a digit or a Hebrew letter, and `_` otherwise |
| FileName.SanitiseAllowedUnits | services/canvaService.ts:7 | every code unit of a sanitised name is `a-z`, `0-9`, U+05D0..U+05EA or `_` |
| FileName.SanitiseFixedPoint | services/canvaService.ts:7 | a name is unchanged by sanitising exactly when it consists only of those units |
| FileName.SanitiseIdempotent | services/canvaService.ts:7 | sanitising twice is sanitising once |
| FileName.EditorFileName | services/canvaService.ts:7 | the editor file name is `generated-`, then the sanitised angle name, then `.png` |
| FileName.DownloadFileName | App.tsx:188 | the gallery download name is `עניין_של_זוויות-`, then the sanitised angle name, then `.png` |
| FileName.FileNamesShareRule | App.tsx:188 | past their own prefixes the two names are identical, and two angle names give the same editor file name exactly when they give the same download name |
| FileName.SurrogatePairGivesTwoUnderscores | services/canvaService.ts:7 | every astral character, a high surrogate followed by a low one, becomes two underscores, one per code unit |
| Usage.Load | App.tsx:98-117 | an unparsable entry leaves everything as it was; otherwise the entry afterwards is a record of today; a missing entry keeps the count and writes count 0; a parsed entry ends in sync with the count, which is the stored count when it was stored today and 0 otherwise |
| Usage.Increment | App.tsx:119-126 | the count rises by one and the entry records exactly the new count with the day observed |
| Usage.LoadSyncs | App.tsx:98-113 | at start-up a stored record of today is adopted, a record of another day becomes `{0, today}` with count 0, a missing entry is written as `{0, today}`; the stored entry then records the count for today |
| Usage.Rollover | App.tsx:104-110 | a record `{5, yesterday}` loads as count 0, and the next increment persists `{1, today}` |
| Usage.IncrementAllCounts | App.tsx:119-126 | n increments raise the count by n and leave the entry recording the final count with the last increment's day |
| Usage.IncrementAllSnoc | App.tsx:119-126 | one more increment after a sequence of increments is the sequence extended by that day |
| Credentials.Resolve | App.tsx:84-95 | a non-empty environment key other than the placeholder wins; otherwise a non-empty stored key; otherwise none (the prompt), and a chosen key is never empty |
| Credentials.ResolveNeverAdoptsEnvPlaceholder | App.tsx:88 | with the placeholder in the environment the choice is the stored key if usable, else the prompt |
| Selection.Toggle | App.tsx:177-183 | the toggled name flips its membership and every other name keeps its own |
| Selection.ToggleTwice | App.tsx:177-183 | toggling a name twice restores the selection |
| Selection.SelectAngles | App.tsx:205 | the angles of a run are exactly the listed angles whose name is selected, and there are no more of them than listed angles |
| Selection.SelectAppend | App.tsx:205 | the filter keeps the static order: filtering a concatenation concatenates the filtered parts |
| Selection.SelectEverything | App.tsx:62 | with every listed name selected the filter returns the whole list unchanged |
| Images.PatchById | App.tsx:273 | the map keeps the length and the order; each record with the matching id gets the patch, and every other record is left exactly as it was |
| Images.Apply | App.tsx:273-318 | an object spread keeps the record's id and angle, and each field takes the patch's value where the patch sets it and keeps the record's value otherwise |
| Images.PatchByIdThen | App.tsx:273-288 | two successive maps over the same id are one map with the merged patch |
| Images.ApplyThen | App.tsx:279-283 | spreading one patch and then another onto a record is spreading their merge |
| Images.PatchKeepsIdentity | App.tsx:273 | no update changes any record's id or angle |
| Images.FindById | App.tsx:268 | `find` returns the first record with the id, or none exactly when no record has it |
| Images.UpscaleButtonEnabled | App.tsx:507 | the record's part of the upscale button's gate: a call in progress on the record, or a truthy baseline, disables it; no call in progress and no baseline enables it |
| Images.UpscaleTwiceOverwritesBaseline | App.tsx:279-283 | a second upscale would make the intermediate source the baseline, because every success overwrites `originalSrc` |
| Images.UpscaleDisablesButton | App.tsx:507 | after one upscale the button for that record is disabled, the baseline is the pre-call source and the source is the new data URL |
| Generation.Countdown | App.tsx:239-248 | the countdown from n is n ticks showing n, n - 1, ..., 1 seconds in that order (a run uses n = 10) |
| Generation.CountdownStep | App.tsx:242 | a countdown is its first tick followed by the countdown from one less |
| Generation.NewImage | App.tsx:227-231 | the appended record has the angle, the data URL of the payload as source, the id `name-now` (the angle name, `-`, the time text), no call in progress and no baseline |
| Generation.RunFrom | App.tsx:208-249 | a run never yields more results than there are angles left to attempt |
| Generation.ContinuesFromStart | App.tsx:206-208 | before the first attempt nothing is done and the whole run is still to come |
| Generation.Advance | App.tsx:213-248 | a successful attempt below the quota moves its result, its call and its cooldown from the run still to come to what is done |
| Generation.ContinuesAtQuota | App.tsx:209-212 | stopping at the quota leaves exactly what was done, with the daily-limit error |
| Generation.ContinuesAtFailure | App.tsx:232-237 | stopping at a failed call leaves what was done plus that call, with the error naming the angle |
| Generation.ContinuesAtEnd | App.tsx:208 | past the last angle the whole run is done without error |
| Generation.RunResults | App.tsx:225-231 | result j of a run from position i is the record of the successful call i + j, made while the count was below the limit |
| Generation.ResultsInOrder | App.tsx:227-231 | result j of a run is the record of call j, and that call succeeded |
| Generation.RunStops | App.tsx:208-237 | the run ends without error exactly when every angle was attempted, with the quota error exactly when the limit was reached at the stop position, and otherwise with the error naming the failed angle there |
| Generation.RunCalls | App.tsx:208-237 | the calls issued are exactly the angles from the start up to the stop position, plus the failing one when a call failed |
| Generation.CallEnd | App.tsx:208-237 | one past the last position the run calls lies between the start and the end of the list |
| Generation.CallsUpTo | App.tsx:208-237 | the calls of a run are the angles from its start up to its call end |
| Generation.CallEndAtStop | App.tsx:208-237 | the call end is the stop position, one further when a call failed there |
| Generation.CallsOfSuccess | App.tsx:222-248 | a successful attempt contributes its own call and no call from its cooldown |
| Generation.AllSucceed | App.tsx:205-249 | when every call succeeds and the quota suffices, there is one result per selected angle in static order, no error, and every angle is called once in order |
| Generation.FailFast | App.tsx:232-237 | when call k fails after k successes, the results are exactly those k records, the error names angle k, and no call after k is issued |
| Generation.StopsAtFailure | App.tsx:232-237 | the run stops at the first failing call when the calls before it succeeded within the quota |
| Generation.QuotaBound | App.tsx:209-212 | starting below the limit, the count plus the results never passes the limit |
| Generation.QuotaStopsRun | App.tsx:209-212 | with fewer calls left than angles and no failure, the run stops exactly at the limit with the quota error |
| Generation.RunPaced | App.tsx:239-248 | every call in a run is followed by the end of the run or by a full countdown |
| Generation.PacedSpacing | App.tsx:239-248 | in a paced trace two calls are more than ten events apart, and the ten events after the earlier call are the ticks 10..1 |
| App.InitialSelectionCoversAll | App.tsx:62 | with the initial selection of every listed name, a run covers the whole list in order |
| App.RunLedger | App.tsx:209-226 | a run raises the count by exactly its number of results and never takes it past the daily limit |
| App.LedgerStep | App.tsx:119-126 | the ledger after i + 1 results is the ledger after i results incremented with the day of reply i |
| App.MatchingRecordOutcomes | App.tsx:279-318 | field by field: an upscale success sets the new source, the baseline and a cleared flag; a background-removal success sets the new source and a cleared flag; a change-background success sets only the source; a failure only clears the record's flag |
| App.Coordinator.constructor | App.tsx:55-81 | the first render: no upload, empty gallery, no error, idle, count 0, every listed angle selected, no key and the persisted entries as found |
| App.Coordinator.CanPerformApiAction | App.tsx:354 | the shared gate of the generate, upscale, remove-background and change-background buttons (App.tsx:449, 505-507, 526) is open exactly when no remote call is in flight and one more call fits in today's quota; while it is closed, `HandleGenerateClick` changes nothing and makes no call, and `HandleUpscale`, `HandleRemoveBackground` and `HandleChangeBackgroundSubmit` send no request and leave the ledger alone |
| App.Coordinator.RunAllowed | App.tsx:196 | a run may start only with an upload, some selected name and the shared gate open |
| App.Coordinator.TargetReady | App.tsx:268-269 | upscale and background removal proceed past the quota check exactly when some record has the id, an upload is present and no call is in flight |
| App.Coordinator.BackgroundChangeReady | App.tsx:331 | the background change proceeds past the quota check exactly when a record is open, the prompt has some non-white-space unit, an upload is present and no call is in flight |
| App.Coordinator.LoadApiKey | App.tsx:84-95 | the active key becomes the resolved one; when none resolves the key prompt is shown and the key is left alone |
| App.Coordinator.HandleSaveApiKey | App.tsx:128-135 | a key that trims to empty changes nothing; otherwise the trimmed key is stored and activated, the prompt closed and the input cleared |
| App.Coordinator.LoadUsage | App.tsx:98-117 | the count and the stored entry become what `Usage.Load` defines for today |
| App.Coordinator.IncrementGenerationCount | App.tsx:119-126 | the count and the stored entry become what `Usage.Increment` defines for the day observed |
| App.Coordinator.HandleAngleSelection | App.tsx:177-183 | the selection becomes the toggle of the old selection by the name |
| App.Coordinator.HandleGenerateClick | App.tsx:195-261 | with the shared gate closed, without an upload, with an empty selection, while busy or at the limit nothing changes and no call is made; otherwise the gallery, the error and the calls and ticks are those of the planned run over the selected angles, the ledger is incremented once per result with its reply's day, and busy, generating, progress, waiting seconds and status are all cleared |
| App.Coordinator.Generate | App.tsx:198-260 | an allowed run: the gallery is reset, then left as the planned run's results, the error as its error, the events as its trace and the ledger incremented once per result, with every indicator cleared at the end |
| App.Coordinator.GenerateAngles | App.tsx:204-253 | the loop does what `Generation.RunFrom` defines from the count captured at the click, and increments the ledger once per result |
| App.Coordinator.Attempt | App.tsx:213-248 | a failed call is one call event, sets the error that names the angle and leaves gallery and ledger alone; a success appends the new record, increments the ledger and is followed by the cooldown unless it was the last attempt |
| App.Coordinator.KeepResult | App.tsx:224-231 | a success increments the ledger with its day and appends the new record with id `name-now` and the data-URL source |
| App.Coordinator.Cooldown | App.tsx:239-248 | the ticks shown are 10, 9, ..., 1 in that order, and the waiting counter ends at 0 |
| App.Coordinator.HandleUpscale | App.tsx:263-292 | with the shared gate closed no request is sent and the ledger is kept; at the limit only the quota error is set; a missing record, missing upload or busy flag changes nothing; otherwise the request carries the found record's source and the upload's type, and the handler ends idle — on success the matching records get the new source and the pre-call baseline and the ledger goes up by one; on failure only their flag comes and goes and the error names the angle |
| App.Coordinator.Upscale | App.tsx:271-291 | the protocol after the guards: flag on, call, outcome, flag off, idle; on success the matching records get the new source and the baseline and the ledger goes up by one, on failure the sources stay and the error names the angle |
| App.Coordinator.HandleRemoveBackground | App.tsx:294-322 | with the shared gate closed no request is sent and the ledger is kept; the same guards and protocol as the upscale; a success replaces only the source of the matching records and leaves their baseline alone |
| App.Coordinator.RemoveBackground | App.tsx:302-321 | flag on, call, outcome, flag off, idle; a success sets the new source and increments the ledger, a failure keeps the sources and names the angle |
| App.Coordinator.HandleChangeBackgroundSubmit | App.tsx:325-352 | with the shared gate closed no request is sent and the ledger is kept; at the limit the quota error is set and the dialog closed; without an open record, a non-blank prompt, an upload or a free busy flag nothing changes; otherwise the request carries the dialog's record source, the upload's type and the prompt as typed, and the handler ends idle and not changing |
| App.Coordinator.ChangeBackground | App.tsx:333-351 | the protocol after the guards: a success gives every record with the dialog record's id the new source, closes and clears the dialog and increments the ledger; a failure keeps gallery and dialog and names the angle |
| App.Coordinator.BackgroundChangeOutcome | App.tsx:338-346 | what the reply does: success increments, replaces the sources and clears the dialog, failure only sets the error |

## Left out

- Rendering, the modals, the image comparison slider, the upload replacement and key-change buttons, and the button `disabled` expressions other than upscale's (App.tsx:18-52, 363-576): user interface only.
- App.Coordinator.Attempt: the progress percentage (App.tsx:217) is assigned as a `real` but no contract states it, and the progress-bar colour (App.tsx:355-360) is left out: floating-point display values that do not steer any handler.
- `processFile`, drag and drop, and the upload click (App.tsx:138-174): asynchronous browser file reading. The upload is a field, and the model only reads the upload's data URL and content type.
- `services/geminiService` is not part of this model. Its four calls are the `Reply` values the handlers take, and the requests they would send are returned as `Request` values.
- `localStorage`, `new Date()` and `Date.now()`: the storage entries are fields, and the day and the time text come with each reply. Uniqueness of result ids is not claimed, because the source does not guarantee it.
- The one-second, 1.5-second and 2-second sleeps (App.tsx:245, 252, 284, 314, 344): time is the sequence of countdown ticks, so runs are only ordered, not timed.
- App.Coordinator.HandleGenerateClick: the intermediate status messages are set in order but only the final status is stated. Async interleaving and React's deferred state updates are not modelled either: each handler is one atomic step. The run's quota check uses the count captured at the click, as the closure in the source does.
- `CAMERA_ANGLES` (constants.ts) is not part of this model: the list is the coordinator's constructor parameter.
- Usage.Load: a stored record whose fields are not a number and a date string (for example `{}` or a string count) is treated like any other parsed record. JSON typing is not modelled.
- `console.error` output (App.tsx:115, 235): it changes no state. The caught error text (App.tsx:233) is never used.
- The credential is passed to the remote service but never checked by the handlers, so the model carries no credential argument on requests.
- The rest of `services/canvaService.ts` (the link click, `alert`, `window.open`, lines 8-26): browser side effects. Only the file-name rule is modelled.
- The optional boolean flags of a `GeneratedImage` (types.ts:12-18) are `bool`, because an absent flag and `false` behave alike in every test of them.
