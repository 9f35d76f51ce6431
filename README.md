# Ride Data Logger — timer ledger, session alerts and report

Ride Data Logger is a single-page tool used on test drives. An annotator
clicks a condition button (Weather "Rain", Road Type "Tunnel", …). That
condition's timer starts, and any other condition of the same category that
was running stops. At the end the annotator exports a CSV report: the
session form, the session's start, end and duration, one `m:ss` row per
category/condition key, and an optional comment.

This project models the engine inside the `App` component (src/App.js):

- **Config** (`config.dfy`): the five categories and their condition lists,
  exactly as configured. Also the `category-condition` key, the JavaScript
  `indexOf`/`slice` split of a key at its first dash, and the well-formedness
  of the configuration.
- **TimerLedger** (`ledger.dfy`): the two maps. `timers` maps a running key
  to its start time. `logs` maps a key to the accumulated milliseconds it has
  run.
  - Pure specification functions describe the ledger after each handler:
    `AfterClick`, `AfterReset`, `AfterStopAll`. `TotalMs` is `getTotalMs`.
  - The class `Ledger` holds the two maps as fields. Its methods `Click`,
    `ResetCategory` and `StopAll` walk the lists key by key, as the handlers
    do, and each is proved equal to its specification function.
  - The invariant `Exclusive` is kept: at most one condition per category is
    running.
- **Session** (`session.dfy`): the session start and the whole minutes
  elapsed. Also the one-shot 30- and 40-minute banners, as a pure step
  function plus the class `SessionTracker` that holds the flags and the
  banner.
- **Text** (`text.dfy`): `formatTime`, decimal rendering, `padStart(2, "0")`,
  JavaScript's `trim`, and the comma replacement of the comment.
- **Report** (`report.dfy`): the CSV text as a function `Csv`. `BuildCsv`
  appends line by line and is proved equal to it. Also the download file name
  `RideData_YYYY-MM-DD_HH-MM-SS.csv`.
- **RideLogger** (`app.dfy`): the class `App` tying them together. Its
  handlers are `HandleConditionClick`, `ResetCategory`, `StopAll`, `Tick` and
  `ExportCsv`; its queries are `Total` and `SessionMinutes`.

The clock is a parameter `now` (milliseconds since the epoch). `App` keeps a
ghost `clock` so that readings never go backwards.

Three points where the model follows the code rather than a design reading:

- A condition that is not in its category's list is still started, because
  the code never checks it. Only the configured keys take part in the
  category invariant.
- An unknown category makes `categories[category]` undefined, and the code
  throws. The model returns an error and changes nothing.
- The export is refused, with no effect, when no session has started
  (src/App.js:150-153).

## Model

| member | source | states |
|---|---|---|
| Config.Key | src/App.js:88 | definition of the `category-condition` key; its meaning is proved by `SplitKeyOfKey`, `KeyInjective` and `SameCategoryKeys` |
| Config.Lookup | src/App.js:93 | definition of `categories[category]`; its meaning is proved by `Find`, `LookupAt` and `LookupSome` |
| Config.SplitKey | src/App.js:174-176 | definition of the `indexOf`/`slice` split; its meaning is proved by `SplitKeyOfKey` and `SpeedKeySplits` |
| Config.Find | src/App.js:6-12 | the lookup succeeds exactly when some entry has that name, and then returns that entry's conditions |
| Config.ConfigWellFormed | src/App.js:6-12 | category names are distinct and contain no dash; each category's conditions are distinct |
| Config.LookupAt | src/App.js:6-12 | looking up the name of any configured entry returns that entry's own condition list |
| Config.LookupSome | src/App.js:93 | a known category is a configured entry, has no dash, and its condition list has no repeats |
| Config.IndexOf | src/App.js:174 | -1 exactly when the character is absent; otherwise the first position holding it |
| Config.SplitKeyOfKey | src/App.js:173-177 | splitting `category-condition` at the first dash gives back the category and the whole condition |
| Config.IndexOfPrefix | src/App.js:174 | in a key, the first dash sits right after the category name |
| Config.KeyInjective | src/App.js:88 | keys of dash-free categories determine both the category and the condition |
| Config.SameCategoryKeys | src/App.js:94-95 | within one category, equal keys mean equal conditions |
| Config.SpeedKeySplits | src/App.js:173-177 | a Speed condition contains a dash, yet its key still splits into ("Speed", "0-2 mph") |
| Text.DigitChar | src/App.js:18 | a digit below ten renders as a decimal digit character |
| Text.DigitValue | src/App.js:18 | a digit character reads back as a value below ten |
| Text.NatToString | src/App.js:18 | `toString` of a non-negative integer is a non-empty digit string, one character long exactly below 10 |
| Text.ParseNatToString | src/App.js:18 | reading the rendering back gives the number |
| Text.FourDigits | src/App.js:162 | a year from 1000 to 9999 renders with four digits |
| Text.Pad2 | src/App.js:161 | definition of `padStart(2, "0")`; its meaning is proved by `Pad2Small` |
| Text.Pad2Small | src/App.js:161 | below 100, `padStart(2, "0")` gives exactly two digits that read back as the number |
| Text.FormatTime | src/App.js:14-19 | definition of `formatTime`; its meaning is proved by `FormatTimeMeaning` |
| Text.FormatTimeMeaning | src/App.js:14-19 | `m:ss`: colon third from the end, digits on both sides, seconds below 60, and minutes*60+seconds is the floor of ms/1000 |
| Text.Trim | src/App.js:180 | definition of `trim()`; its meaning is proved by `TrimStartShape`, `TrimEndBlank` and `TrimEmptyIffBlank` |
| Text.TrimStartShape | src/App.js:180 | trimming the front drops exactly a leading run of JS white space and stops at a non-space |
| Text.TrimEndBlank | src/App.js:180 | trimming the back leaves nothing exactly when the text is all white space |
| Text.TrimEmptyIffBlank | src/App.js:180 | `trim()` is empty exactly when every character is JS white space or a line terminator |
| Text.ReplaceCommas | src/App.js:180 | same length; each comma becomes a space and every other character is kept |
| Text.NoCommaLeft | src/App.js:180 | the replaced comment contains no comma |
| TimerLedger.TotalMs | src/App.js:189-193 | definition of `getTotalMs`; its meaning is proved by `TotalMsGrowth`, `AfterClickKeepsTotals` and `AfterStopAllTotals` |
| TimerLedger.AfterReset | src/App.js:121-132 | definition of the ledger after `resetCategory`; its meaning is proved by `AfterResetClears`, `AfterResetFrame`, `AfterResetOtherCategory` and `AfterResetExclusive` |
| TimerLedger.AfterStopAll | src/App.js:134-146 | definition of the ledger after `stopAll`; its meaning is proved by `AfterStopAllTotals` and `AfterStopAllIdempotent` |
| TimerLedger.LastRunning | src/App.js:91-100 | definition of the last sibling the walk stops; its meaning is proved by `LastRunningMeaning` |
| TimerLedger.StoppedKey | src/App.js:91-115 | definition of the reported `stoppedKey`; its meaning is proved by `StoppedKeyMeaning` |
| TimerLedger.AfterClick | src/App.js:85-118 | a click keeps every start at or before `now`, and keeps start times positive |
| TimerLedger.CloseAt | src/App.js:138-142 | folding a running key's open interval adds exactly `now - start` to its log (counted from 0 when absent) and nothing to other keys |
| TimerLedger.CloseStep | src/App.js:96-98 | stopping one more running key updates only that key's log by its open interval |
| TimerLedger.CloseSkip | src/App.js:95 | a key not running or already stopped changes no log |
| TimerLedger.KeysOfMember | src/App.js:93-94 | a key belongs to a category's key set exactly when its condition is in the list |
| TimerLedger.KeysOfOther | src/App.js:93-95 | no key of one configured category is a key of another |
| TimerLedger.AfterClickToggles | src/App.js:103-110 | the clicked key is stopped into its log if running, otherwise started at `now` with its log untouched |
| TimerLedger.AfterClickStopsSiblings | src/App.js:93-101 | every other condition of the category ends idle, and its log gains its open interval if it was running |
| TimerLedger.AfterClickFrame | src/App.js:89-118 | a key outside the category, other than the clicked key, keeps its timer and its log |
| TimerLedger.AfterClickOtherCategory | src/App.js:93-95 | every key of another configured category keeps its timer and its log |
| TimerLedger.AfterClickInTwoSteps | src/App.js:93-110 | a click is the sibling stop followed by the toggle of the clicked key alone |
| TimerLedger.AfterClickKeepsTotals | src/App.js:96-109 | at the click's instant every key's live total is unchanged: time is moved, never lost or invented |
| TimerLedger.AfterClickExclusive | src/App.js:85-118 | a click keeps the invariant that each category has at most one running condition |
| TimerLedger.LastRunningMeaning | src/App.js:91-100 | the sibling walk reports "" exactly when no sibling was running, else a running sibling of the category |
| TimerLedger.StoppedKeyMeaning | src/App.js:91-115 | `stoppedKey` is "" exactly when the click stopped nothing; otherwise it names a key of the category that was running and now is not |
| TimerLedger.OnOffAccumulates | src/App.js:103-110 | a start then a stop of a key adds exactly the elapsed time to its log |
| TimerLedger.TwoCyclesAdd | src/App.js:103-107 | two on/off cycles add up, whatever is clicked in another category between them |
| TimerLedger.WeatherScenario | src/App.js:85-118 | Sunny from 1 s to 11 s, then Rain to 26 s: totals 10000 and 15000 ms, nothing running |
| TimerLedger.AfterResetClears | src/App.js:121-132 | after a reset every key of the category is idle with a zero total |
| TimerLedger.AfterResetFrame | src/App.js:124-128 | a reset leaves every key outside its category as it was |
| TimerLedger.AfterResetOtherCategory | src/App.js:121-132 | a reset leaves every key of any other category as it was |
| TimerLedger.AfterResetExclusive | src/App.js:121-132 | a reset keeps the per-category invariant |
| TimerLedger.AfterStopAllTotals | src/App.js:134-146 | after stop-all nothing runs, the log keys are the old log and timer keys, and each log equals the key's live total |
| TimerLedger.AfterStopAllIdempotent | src/App.js:134-146 | stop-all twice at the same instant is stop-all once: nothing is running to fold in again |
| TimerLedger.TotalMsGrowth | src/App.js:189-193 | a live total grows by the elapsed time while running, stays put while idle, and is at least the logged time |
| TimerLedger.SiblingStep | src/App.js:94-100 | visiting one condition either stops it (removed from the timers, its open interval logged, reported as stopped) or leaves both maps and the report as they were |
| TimerLedger.StopSiblings | src/App.js:93-101 | the walk removes exactly the running siblings, adds their open intervals to the logs, and reports the last one stopped |
| TimerLedger.Ledger.constructor | src/App.js:24-25 | both maps start empty |
| TimerLedger.Ledger.Click | src/App.js:85-118 | the new maps are `AfterClick` of the old ones; the invariant holds; the stopped key is reported |
| TimerLedger.Ledger.ResetCategory | src/App.js:121-132 | the new maps are `AfterReset` of the old ones; the invariant holds |
| TimerLedger.Ledger.StopAll | src/App.js:134-146 | the new maps are `AfterStopAll` of the old ones; the invariant holds |
| Session.Step | src/App.js:56-78 | definition of one run of the threshold effect; its meaning is proved by `YellowFiresIff`, `RedFiresIff`, `StepKeepsFlags`, `YellowAtMostOnce` and `RedAtMostOnce` |
| Session.Minutes | src/App.js:53 | 0 with no session; otherwise the floor of the elapsed time in minutes |
| Session.YellowFiresIff | src/App.js:59-64 | the yellow banner fires exactly at minute 30 when not yet shown, with its message and colour |
| Session.RedFiresIff | src/App.js:66-71 | the red banner fires exactly at minute 40 when not yet shown, with its message and colour |
| Session.StepKeepsFlags | src/App.js:60-70 | a raised flag is never lowered |
| Session.YellowAtMostOnce | src/App.js:56-78 | over any sequence of ticks the yellow banner fires at most once, and never once shown |
| Session.RedAtMostOnce | src/App.js:56-78 | over any sequence of ticks the red banner fires at most once, and never once shown |
| Session.SessionTracker.constructor | src/App.js:42-45 | no session and no alert |
| Session.SessionTracker.EnsureStarted | src/App.js:86 | the start is set on the first click and never replaced; the alerts are untouched |
| Session.SessionTracker.Tick | src/App.js:56-78 | the alert state becomes `Step` of the old one; a clearing delay of 5000 ms is returned exactly when the red banner was just raised |
| Report.Row | src/App.js:174-177 | definition of one data row; its meaning is proved by `RowOfKey` |
| Report.Csv | src/App.js:166-180 | definition of the report text; `BuildCsv` is proved equal to it, and its rows and comment are characterised by `ReportRowsAreTotals` and `CommentBlockMeaning` |
| Report.FileName | src/App.js:161-164 | definition of the download file name; its meaning is proved by `FileNameFields` |
| Report.AppendFields | src/App.js:167 | appends one `field,value` line per form field, in order |
| Report.RowsSnoc | src/App.js:173-178 | one more key appends exactly its row |
| Report.AppendRows | src/App.js:173-178 | appends exactly the rows of the keys, in enumeration order |
| Report.BuildCsv | src/App.js:166-180 | the text built line by line is exactly `Csv` of the inputs |
| Report.RowOfKey | src/App.js:173-177 | the row of a configured key is `category,condition,m:ss` with the whole condition |
| Report.CommentBlockMeaning | src/App.js:180 | the comment line appears exactly when the comment is not blank, and carries a comma-free text as long as the comment |
| Report.FileNameDateSlices | src/App.js:161-164 | the prefix, the date separators and the year, month and day sit at fixed positions |
| Report.FileNameTimeSlices | src/App.js:161-164 | the time separators, the hours, minutes and seconds and the `.csv` suffix sit at fixed positions |
| Report.FileNameFields | src/App.js:161-164 | the 32-character file name reads back as the year, month (counted from 1), day, hours, minutes and seconds |
| RideLogger.ReportAsWritten | src/App.js:155-180 | definition of the report as the code writes it, rows from the logs before the stop; `StaleExportDropsRunningKey` shows it losing a running key |
| RideLogger.ReportText | src/App.js:155-180 | definition of the intended report, rows from the logs after the stop; `ReportRowsAreTotals` proves its rows are the live totals |
| RideLogger.ReportRowsAreTotals | src/App.js:173-178 | read after stop-all, every row shows the key's live total just before the export |
| RideLogger.FormatOneMinute | src/App.js:14-19 | 60000 ms renders as `1:00` |
| RideLogger.StaleExportDropsRunningKey | src/App.js:155-173 | with one key running, the report as written lacks its row, unlike the intended report |
| RideLogger.App.constructor | src/App.js:24-45 | empty ledger, no session, no alert, nothing highlighted, clock at 0 so that any handler can be called |
| RideLogger.App.Total | src/App.js:189-193 | definition of the `getTotalMs` query on the current ledger; its meaning is proved by `TotalMsGrowth` |
| RideLogger.App.SessionMinutes | src/App.js:53 | definition of `sessionMinutes` on the current session; its meaning is proved by `Minutes` |
| RideLogger.App.HandleConditionClick | src/App.js:85-119 | unknown category: an error and no change; otherwise the session starts once, the ledger becomes `AfterClick`, and the stopped key is returned and highlighted |
| RideLogger.App.ResetCategory | src/App.js:121-132 | a known category gives `AfterReset`; an unknown one changes nothing |
| RideLogger.App.StopAll | src/App.js:134-146 | the ledger becomes `AfterStopAll`; the highlighted key is unchanged |
| RideLogger.App.Tick | src/App.js:56-78 | the alert state advances by one `Step` and the red banner's clearing delay is returned |
| RideLogger.App.ExportCsv | src/App.js:149-180 | for the form's fixed fields: no session gives a refusal that changes neither the ledger nor the clock; otherwise all timers stop, and the download holds the file name and the report read after the stop; the highlighted key is unchanged on both paths |

## Left out

- Rendering (src/App.js:195-329), `handleInputChange` (80-83) and the one-second re-render interval (47-50): the view and form editing are not part of the engine. The form enters the export as a list of field/value pairs.
- The timed clearings: the banner after 5 s (72-75) and the highlight after 2 s (114). `Tick` returns the banner's delay instead; the highlight is never cleared.
- The Blob and link download (182-186): `ExportCsv` returns the file name and the text.
- `toLocaleString` (168-169): the two locale renderings are text parameters. The date getters for the file name are a `DateParts` parameter.
- JavaScript object key order: the export takes the enumeration order of the keys as a parameter, with no repeats and covering exactly the keys.
- React's batching and StrictMode's double run of updaters (89-118), which could add an interval twice. The model applies each handler once, atomically.
- The module-level crash (3-5) and the crash in the component body (22-23): the model describes the component as if it loads.
- The parse defects of the file: the stray `8` before `import` on line 1, and the missing closing brace of `App` after the JSX. The model assumes the evident program.
- JavaScript strings are UTF-16 code units, and Dafny strings are sequences of Unicode scalar values. A comment holding a lone surrogate cannot be represented, and lengths such as `|t| == |comment|` in `CommentBlockMeaning` count characters rather than `.length`. The text produced is the same either way.
- JavaScript numbers are doubles, and the model uses unbounded `nat`. Epoch milliseconds (about 1.7e12) and their sums stay far below 2^53, so every value the code computes is an exact integer and the integer model agrees with it.
- HandleConditionClick: for an unknown category the code sets the session start and then throws. The model returns an error and changes nothing.
- HandleConditionClick, Ledger.Click: require `now > 0`, because a start time of 0 would be falsy in the code's running test.
- FileNameFields: covers only four-digit years and in-range date fields.
- `sessionEnd` (157) is taken as the same reading as the stop-all `now`. The file name's clock reading (160) is the free parameter `date` of `ExportCsv`; the model does not tie it to `now`, and the caller is expected to fill it from the same reading. The millisecond gaps between these calls are not modelled.
- Separate clock readings within one handler: the session start (86), each sibling's and the clicked key's `Date.now()` (96, 104, 109), and the per-key reading in stop-all (139). The model uses one `now` for the whole handler.
- A clock that steps backwards: every handler requires `now` to be no earlier than the previous reading (the ghost `clock`). A `Date.now()` that went backwards would make the code log a negative duration, and the model does not cover that.

## Findings

| source | as written | input that shows it | evidently intended | confidence | as-written member | corrected member |
|---|---|---|---|---|---|---|
| src/App.js:155-173 | `stopAll()` only schedules its state update, so the loop at 173 reads the `logs` from before the stop. Running intervals are missing from the report, and a key that has only run is missing altogether. | "Weather-Sunny" running since 1000 ms and nothing logged; export at 61000 ms. | The rows are read after stop-all, so `Weather,Sunny,1:00` appears. Every row is the key's live total. | not executed | RideLogger.StaleExportDropsRunningKey | RideLogger.ReportRowsAreTotals |
