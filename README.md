# Solar monitoring persistence core, modelled in Dafny

This project models the core of a program that takes live solar-panel
telemetry from a Pusher feed and writes it to Google Sheets:

- the cooperative **task scheduler** (`TaskQueue`): a list of tasks kept in
  ascending order of due time, `once`, `repeat`, and the consumption loop
  that takes the earliest task, sleeps until it is due and yields its job;
- the **channel reconciler** (`stage` in `pusherData.js`): per-channel
  reports `(ch, [ts, value])` are collected in a staging map until every
  channel of a timestamp holds a truthy value, and the completed row is then
  pushed on the ready buffer; plus the two-threshold staging-size monitor;
- the **writer** of `main.js`: the drain of the ready buffer that keeps a
  reserve of ten rows and sorts the rest by timestamp, the derived-row
  formulas, the Solcast forecast range arithmetic, the `daily` roll-over
  that restores today's sheet ids from a backup or creates three new
  sheets, and the schedule `main` sets up (whose first midnight starts the
  daily repeat without rolling over, see Findings);
- the **time utilities** `msUntilMidnight` and `todayDateString`;
- the pure parts of `helpers.js`: extension choice and validation against
  the `fileTypes`/`resourceTypes` tables, the `numberOfRows` parse and the
  URL builders;
- `setupDrive`: reuse of the stored folder setup or creation of the four
  project folders.

Time is an explicit integer `now` (milliseconds on the local clock, every
day 86 400 000 ms long). Google Drive and Sheets, the disk, the forecast
service and the log are collaborators: what they answer is a parameter, and
what the code asks of them is returned as a trace of `Call` values.

Modules: `Common` (options, results, cells, the call trace, decimal text),
`Ordering` (upper-bound insertion and the stable sort by key), `Utils`,
`TaskQueue`, `PusherData`, `Helpers`, `SetupDrive` and `Writer` (main.js).

Behaviour worth knowing: `once` does not clamp a negative delay (only the
sleep is clamped); `repeat` reschedules from whatever time its rescheduler
runs at, so the cadence drifts by the lateness of each turn
(`TaskQueue.RescheduleDrifts`); `zeroOnFirst` zeroes the accumulated energies of every row
of the first batch, not only of the first row; and the staging entry of a
completed row is not actually removed (see Findings).

## Model

| member | source | states |
|---|---|---|
| `TaskQueue.SortedLastIndex` | src/TaskQueue.js:13 | the binary search returns the position after the last task due no later than the new one: every task before it is due no later, every task from it on is due later |
| `Ordering.InsertByPlacement` | src/TaskQueue.js:13-14 | the spliced task lands after every task with an equal or earlier time and before every later one, and the existing tasks keep their relative order around it |
| `Ordering.InsertBySorted` | src/TaskQueue.js:13-14 | inserting at the upper bound keeps the queue sorted by time |
| `Ordering.InsertByMultiset` | src/TaskQueue.js:14 | the splice adds exactly the new task and loses none |
| `TaskQueue.TaskQueue.constructor` | src/TaskQueue.js:5-7 | a new queue is empty and nothing has fired |
| `TaskQueue.TaskQueue.Once` | src/TaskQueue.js:8-15 | the queue grows by the task due at `now + delay` at its upper-bound position, stays sorted, and a negative delay is not clamped |
| `TaskQueue.TaskQueue.Repeat` | src/TaskQueue.js:16-19 | exactly two tasks due at `now + delay` are added side by side: first the job, then the rescheduler that calls `repeat` again from the time it runs |
| `Ordering.InsertByTwice` | src/TaskQueue.js:17-18 | the two insertions of `repeat` sit next to each other, after every task due no later |
| `TaskQueue.TaskQueue.Step` | src/TaskQueue.js:20-29 | an empty queue ends the loop; otherwise the head task, due no later than any other, is removed and its job yielded, after a sleep of `max(time - now, 0)` that ends no earlier than the due time |
| `TaskQueue.TaskQueue.Turn` | src/TaskQueue.js:16-29 | one turn of `for await`: an empty queue ends the loop; otherwise the head is taken at `wake = now + max(time - now, 0)`, its due time recorded as fired, a plain job is handed out to run, and a rescheduler taken at `wake` leaves exactly the rest with the job and a new rescheduler both inserted at `wake + delay`; sortedness, non-negative delays and non-decreasing fired times are kept |
| `TaskQueue.TaskQueue.Invoke` | src/main.js:242-244 | `await task()` on a taken job: an action is handed out to run and leaves the queue as it is; a rescheduler runs `repeat` at the moment it is invoked, adding exactly the job and a new rescheduler at that moment plus the delay; sortedness, and with a non-negative delay the monotone fire times and non-negative delays, are kept |
| `TaskQueue.RunLoop` | src/main.js:242-244 | the loop runs one turn per elapsed-time entry until the queue empties (and then only if it did); its ghost log shows each turn taking the head of the queue the previous turn left, from the starting queue to the final one, and the actions run are exactly those of the heads taken, in turn order; with a forward-moving clock and non-negative delays the due times fired are non-decreasing although reschedulers insert new tasks between turns |
| `TaskQueue.RepeatedMultiset` | src/TaskQueue.js:16-18 | `repeat` adds exactly the job and its rescheduler, both due at `now + delay`, and removes nothing |
| `TaskQueue.RepeatedInFront` | src/TaskQueue.js:16-18 | a repeat due before the head of the queue puts its job first and its rescheduler second, ahead of everything already queued |
| `TaskQueue.RepeatedKeeps` | src/TaskQueue.js:16-18 | every task already queued stays queued across a `repeat` |
| `TaskQueue.RescheduleQueuesNext` | src/TaskQueue.js:18 | a rescheduler taken at `wake` queues its job for `wake + delay` |
| `TaskQueue.RescheduleDrifts` | src/TaskQueue.js:18-27 | a rescheduler due at `due` but taken late at `wake > due` queues the next job at `wake + delay` and adds nothing at `due + delay`: the cadence drifts |
| `Utils.Clamp` | src/TaskQueue.js:23 | `clamp(x, [lo])` is at least `lo` and equals `x` whenever `x` is not below it |
| `Utils.MsUntilMidnight` | src/utils.js:20-23 | the result is in `(0, DAY]` and `now` plus it is the first millisecond of the next day |
| `Utils.MsUntilMidnightIsNextMidnight` | src/utils.js:20-23 | no other midnight lies between `now` and `now + msUntilMidnight(now)` |
| `Utils.MsUntilMidnightAtMidnight` | src/utils.js:21-23 | at the first millisecond of a day a full day remains |
| `Utils.DateStringShape` | src/utils.js:18 | `MM-DD-YYYY` of a four-digit year is ten characters: zero-padded month, `-`, day, `-`, year, each reading back as its number |
| `Utils.DateStringInjective` | src/utils.js:18 | distinct dates give distinct strings, so the same-day test of `daily` compares dates |
| `PusherData.ChToIndex` | src/pusherData.js:28 | the channel index is the number written after the first two characters, and `NaN` when that text is not a numeral |
| `PusherData.ChToIndexOfNumeral` | src/pusherData.js:28 | a channel named by two characters and a numeral has that number as its index |
| `PusherData.WriteSlot` | src/pusherData.js:20 | `sample[i] = v` puts `v` in slot `i`, grows the array with holes if needed, and leaves every other slot as it was |
| `PusherData.CountAfterWrite` | src/pusherData.js:20-21 | a write changes the `filter(Boolean)` count only through the written slot, and a value of 0 never counts |
| `PusherData.StageOutcome` | src/pusherData.js:15-27 | definitional (its meaning is proved in `PusherData.ReportAllChannels` and `PusherData.StagePreservesInvariant`): the first report of a timestamp starts from an empty sample and later ones reuse the staged one; a complete row is appended to the ready buffer and its entry deleted, an incomplete one leaves the ready buffer unchanged and stays staged |
| `PusherData.StageFrame` | src/pusherData.js:18-25 | a report touches no other timestamp's staging entry |
| `PusherData.StagePreservesInvariant` | src/pusherData.js:21-25 | every staged entry holds fewer truthy slots than there are channels, before and after each report |
| `PusherData.StagePartial` | src/pusherData.js:18-21 | while fewer than all channels of a new timestamp have reported, the staged sample holds exactly their values and nothing is ready |
| `PusherData.ReportAllChannels` | src/pusherData.js:18-25 | all channels of a new timestamp reporting once each with truthy values yield exactly one row `[ts, label(ts), ...sample]` at the end of the ready buffer and no staging entry |
| `PusherData.ReportOrderIndependent` | src/pusherData.js:20-24 | any permutation of those reports leaves the same buffers and the same finished row |
| `PusherData.StageAllAppendsOnly` | src/pusherData.js:24 | the ready buffer only grows at its end, so rows stand in completion order |
| `PusherData.MonitorLogs` | src/pusherData.js:36-49 | the monitor warns iff the staging size exceeds 10, raises an error iff it exceeds 1000, and an error always comes with a warning |
| `PusherData.Reconciler.constructor` | src/pusherData.js:30-33 | the staging map and the ready buffer start empty, with the channel list and the label function fixed |
| `PusherData.Reconciler.StageReport` | src/pusherData.js:15-27 | the handler moves the buffers exactly as `Stage` does and keeps the staging invariant |
| `PusherData.Reconciler.Monitor` | src/pusherData.js:36-49 | one monitor tick logs what `MonitorLogs` gives for the current staging size |
| `PusherData.AsWrittenSizeStaysZero` | src/pusherData.js:18-37 | as written, the Map never gets an entry, so its size stays 0 and the monitor never fires |
| `PusherData.AsWrittenDuplicatesRow` | src/pusherData.js:18-25 | as written, a late report for a completed timestamp pushes a second row for it; with get/set/delete it starts a new entry |
| `PusherData.StuckTimestampsWarn` | src/pusherData.js:37 | eleven timestamps that never complete make the corrected map warn, while the Map as written stays silent |
| `Writer.DrainCount` | src/main.js:169 | the drain removes `max(len - 10, 0)` rows and leaves `min(len, 10)` |
| `Writer.Drained` | src/main.js:166-169 | the drained values are as many as removed and sorted ascending by timestamp |
| `Writer.DrainedIsSortedPrefix` | src/main.js:166-169 | the drained values are a permutation of the removed prefix, and rows with one timestamp keep their arrival order |
| `Writer.DrainKeepsReserve` | src/main.js:167-169 | a buffer of at most ten rows is left whole and nothing is drained; a longer one keeps exactly ten |
| `Writer.Drain` | src/main.js:169 | the splice leaves exactly the last `min(len, 10)` rows in the ready buffer, untouched, and the staging map unchanged |
| `Writer.DerivedRows` | src/main.js:183-214 | an empty batch is rejected with the `updateDerived` error; otherwise one derived row per measurement, in batch order, one cell per configured field |
| `Writer.DerivedFormulas` | src/main.js:200-210 | row `i` of a batch starting on sheet row `n` accumulates onto row `j = n + i - 1` from row `k = n + i` in each of the three energy formulas |
| `Writer.ZeroOnFirstWholeBatch` | src/main.js:188-210 | when the batch starts on row 2, all three accumulated energies are 0 in every row of the batch |
| `Writer.DerivedPowers` | src/main.js:204-213 | power is current times voltage (`NaN` if either is missing), irradiance falls back to 0, theoretical power is `NaN` exactly while irradiance is, and an unknown field is empty |
| `Writer.FirstRowOfProbe` | src/main.js:187 | a probe landing on row `n` makes the batch start on row `n` |
| `Writer.Remaining` | src/main.js:127 | the half hours left in the day, rounded half up, are at most 48 |
| `Writer.StartIdx` | src/main.js:129 | definitional (its meaning is proved in `Writer.SolcastSlot`): the start slot and the remaining count add up to 48 |
| `Writer.SolcastSlot` | src/main.js:127-135 | a first forecast ending `m` half hours into its day is written from slot `m`, range `A<m + 2>` |
| `Writer.SolcastValues` | src/main.js:131-133 | the values are the first `min(remaining, len)` forecasts, each projected on the configured fields |
| `Writer.SolcastWithinDay` | src/main.js:127-135 | the rows written lie within sheet rows 2 to 49 whatever the forecast list |
| `Writer.App.UpdateSolcast` | src/main.js:112-146 | a missing sheet id throws before any fetch; a failed fetch is logged and rethrown; otherwise irradiance is updated first and the remaining forecasts are written at the computed range, with no write when there are none; a failed write is logged and rethrown with the irradiance already updated and no resize |
| `Writer.MeasurementCallsShape` | src/main.js:171-179 | an empty drain appends nothing; a non-empty one appends the drained rows to the measurements sheet and as many derived rows to the derived sheet |
| `Writer.App.UpdateMeasurements` | src/main.js:161-180 | a missing measurements sheet id throws and drains nothing; otherwise the reserve is kept, the rest drained and written |
| `Writer.App.CreateCallsSheets` | src/main.js:44-91 | a roll-over creates exactly three sheets, each titled with today's date |
| `Writer.App.Daily` | src/main.js:73-110 | a backup with today's date and the same token is restored with no sheet created; otherwise three sheets are created and TODAY records them with today's date and the token; a failed backup write is logged, not thrown |
| `Writer.BackupRestores` | src/main.js:78-101 | a backup a roll-over wrote is restored by a later run exactly when the date and the token match |
| `Writer.App.constructor` | src/main.js:33-41 | TODAY starts empty and the irradiance `NaN` |
| `Writer.Schedule` | src/main.js:235-240 | `main` leaves a sorted queue holding the one-shot start of the daily roll-over and the two tasks of each of the two periodic updates |
| `Writer.ScheduleOrder` | src/main.js:235-240 | more than half an hour before midnight the measurement update comes first, then its rescheduler, the Solcast update and its rescheduler, and the one-shot job that starts the daily repeat last |
| `Writer.NoDailyRunQueued` | src/main.js:236-240 | the schedule `main` sets up holds no `daily` run at all, only the one-shot job that will start its repeat |
| `Writer.AsWrittenNoMidnightRollOver` | src/main.js:236-238 | as written, the one-shot job at midnight `m` runs nothing itself and only queues `daily` and its rescheduler for `m + DAY` |
| `Writer.CorrectedMidnightRollsOver` | src/main.js:236-240 | with a run of `daily` queued beside the repeat, the schedule holds a `daily` run and its rescheduler at the first midnight |
| `Helpers.TablesConsistent` | src/helpers.js:149-185 | every `fileTypes` entry's resource is a key of `resourceTypes`, and the listed keys are exactly the table's, without repeats |
| `Helpers.AfterLastDotLongest` | src/helpers.js:119 | the derived extension is the text after the last `.` of the path, or the whole path when it has no `.` |
| `Helpers.AfterLastDotOfJoin` | src/helpers.js:119 | a path `stem.ext` yields `ext`, whatever dots the stem holds |
| `Helpers.ExtensionOf` | src/helpers.js:119 | an explicit extension wins; otherwise the extension is a dot-free suffix of the path |
| `Helpers.LookupFileType` | src/helpers.js:120-126 | the request proceeds exactly when the extension is a `fileTypes` key, and otherwise fails with the listing error before any Drive call |
| `Helpers.DownloadRequest` | src/helpers.js:116-133 | the export asks for `fileTypes[ext].mime`, or fails for an unknown extension |
| `Helpers.UploadRequest` | src/helpers.js:187-206 | the upload metadata has `resourceTypes[fileTypes[ext].resource]` and the media `fileTypes[ext].mime`, or it fails for an unknown extension |
| `Helpers.DownloadUploadAgree` | src/helpers.js:119-204 | download and upload accept the same paths and agree on the MIME type of the bytes |
| `Helpers.ReadmeRoundTrip` | src/helpers.js:116-206 | any `stem.rtf` path, such as the README template `readme.rtf`, exports as RTF and uploads as a Google document |
| `Helpers.InheritedExtensionPasses` | src/helpers.js:116-204 | as written, an inherited member name such as `constructor` passes both guards: the export gets no MIME type, and the upload no resource type and no media type; the own-key lookups of download and upload refuse it |
| `Helpers.NumberOfRows` | src/helpers.js:314-317 | the result is the number after the first eight characters of `updatedRange`, minus one, and `NaN` when that text is not a numeral |
| `Helpers.NumberOfRowsOfProbe` | src/helpers.js:314-317 | `Sheet1!A<n>` gives `n - 1` |
| `Helpers.NumberOfRowsOfSpan` | src/helpers.js:316 | a range naming a span is `NaN` |
| `Helpers.SheetURL` | src/helpers.js:319 | definitional (its meaning is proved in `Helpers.URLsInjective`): the sheet URL is the fixed prefix followed by the id |
| `Helpers.DriveURL` | src/helpers.js:321 | definitional (its meaning is proved in `Helpers.URLsInjective`): the folder URL is the fixed prefix followed by the id |
| `Helpers.URLsInjective` | src/helpers.js:319-321 | each URL names one id, and no sheet URL is a folder URL |
| `SetupDrive.SetupDrive` | src/setupDrive.js:7-57 | a stored setup with the same token is returned as is with no folder created; a failed read or parse or another token leads to four folders created in title order, the id Drive answers for the `i`-th title becoming the `i`-th role (root, derived, measurements, solcast), the three non-root ids moved into the root id, and that setup saved; a failed save is logged and its error rethrown; the setup returned is reused by a next run with the same token, and a saved setup by a run with that token and no other |

## Left out

- Timers: `setTimeout`, the promise the loop awaits and `clearTimeout` on teardown are not modelled; `Step` returns the sleep duration instead of sleeping.
- The async-iterator suspension and the caller's `await task()` are replaced by `RunLoop`, which runs at most one turn per given elapsed time and reports how many it took; the jobs other than reschedulers are collected rather than executed, and the time a job takes is an input.
- `calculateTotalIrradiance` and its trigonometry are a parameter of `UpdateSolcast`; `NaN` is modelled as `None` only where the code tests or prints it.
- Time zones and daylight saving: every day is 86 400 000 ms on a local-epoch clock; moment's calendar conversion is not modelled, so `todayDateString` takes a calendar date, and the `LTS` label is a parameter function of the timestamp.
- The Pusher subscription, the `setInterval` monitor wiring and `disconnect` are event-driven I/O; only the handler and the monitor's thresholds are modelled.
- Authentication (src/authenticate.js), the module-loader bootstrap (src/index.js), `promisify` and the logging helpers are not part of this model.
- The bodies of the Google API wrappers in src/helpers.js and the network and file parts of `downloadFile`/`uploadFile` are collaborators; their results are parameters.
- `makeReadme` (src/setupDrive.js:59-78) is file and network I/O and does not appear in the `SetupDrive` trace.
- Failures of the create, move, append and resize requests are not modelled: `Daily`, `SetupDrive` and `UpdateMeasurements` assume those calls succeed (the failures that are modelled are a failed read or save of the setup, a failed forecast fetch or sheet write in `UpdateSolcast`, and a failed backup write in `Daily`).
- `autoResizeColumns` in `updateSolcast` is not awaited; the model puts the request in the trace right after the write.
- `TaskQueue.TaskQueue.Repeat`: both tasks are stamped with one clock reading `now`, while each of the two `once` calls reads `Date.now()` itself, so a clock tick between them, which would put the rescheduler 1 ms after its job, is not modelled.
- `TaskQueue.RunLoop`: the ghost log ties the actions run to the heads taken; the fired due times are stated turn by turn by `Turn` and, over the loop, only by their count and their order.
- Concurrency among awaited requests (`Promise.all` in `setupDrive`, the unawaited `updateDerived` in `updateMeasurements`) is flattened into one trace order.
- `main()` beyond the schedule it sets up (authentication, the first runs, error-to-disconnect handling) is wiring and is not modelled.
- The configuration files (channel list, field orders, panel area, Solcast URL) are parameters.
- JavaScript's unary `+` on strings is modelled only for strings of decimal digits (the empty string giving 0); whitespace, signs, fractions, exponents and hexadecimal give `NaN` in this model.
- Sample values and timestamps are mathematical reals and integers; floating-point rounding is not modelled.
- `Writer.App.Daily`: `todayDateString()` is read once for both the same-day test and the new record, so a roll-over that straddles midnight is not modelled.
- `Writer.App.UpdateSolcast`: the message of the error thrown for an empty forecast list is a fixed placeholder, not the engine's exact text.
- `Writer.Schedule`: the delay of the one-shot roll-over start is a parameter, the value of `msUntilMidnight()` read at its own moment, rather than tied to `now` in the contract.

## Findings

| source | as written | input that shows it | evidently intended | confidence | as-written member | corrected member |
|---|---|---|---|---|---|---|
| src/pusherData.js:18-25 | `stagingBuffer[ts] = …` sets a plain property of the `Map`, while `stagingBuffer.delete(ts)` and `.size` act on Map entries, which never exist | two channels, reports `ch0@7=1`, `ch1@7=2`, `ch0@7=3`: a second row for timestamp 7 is pushed; eleven stuck timestamps leave `.size` at 0 so the monitor never warns | `get`/`set`/`delete` on the Map, so a completed entry disappears and the size counts stuck timestamps | high, not executed | `PusherData.AsWrittenDuplicatesRow` | `PusherData.ReportAllChannels` |
| src/helpers.js:120,191 | `extension in fileTypes` also accepts members inherited from `Object.prototype` | the path `notes.constructor` passes both guards: the export is requested with an undefined MIME type, and the upload with an undefined resource type and an undefined media type | only own keys of `fileTypes` are valid extensions | medium, not executed | `Helpers.InheritedExtensionPasses` | `Helpers.LookupFileType` |
| src/main.js:236-238 | the one-shot job run at the first midnight `m` only calls `tasks.repeat(daily, DAY)`, which queues `daily` and its rescheduler for `m + DAY` | start at any time before midnight `m`: the turn at `m` runs no `daily`, so the day that starts at `m` gets no sheets of its own and its updates keep writing to the previous day's sheets until `m + DAY` | `daily` also runs at `m` (a `once` of it beside the repeat), so each day's sheets exist from its first millisecond | high, not executed | `Writer.AsWrittenNoMidnightRollOver` | `Writer.CorrectedMidnightRollsOver` |
