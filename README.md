# generate_zip report task, modelled in Dafny

This project models the spreadsheet-report task `generate_zip` of the solar-plant
telemetry backend (`src/adminapp/tasks.py`). The task creates a `ZipReport` in status
"Generating". It then goes through the requested locations in order. For each one it:

- adds the location to the report;
- widens a one-day range to start a day earlier;
- picks the start and end readings (the highest-id active reading on each of the two days);
- builds a summary context of energy deltas, or "0" strings as a fallback;
- builds one analysis row per active reading in the range;
- writes a two-sheet workbook named after the location;
- sets the status to "Success" or "Error".

The report is saved once, after the loop.

Modules, one per concern of the task:

- `PyValues` (pyvalues.dfy): nullable columns, the exceptions the `try` block can raise, and Python `int()` on a float (truncation toward zero).
- `Readings` (readings.dfy): locations, inverter readings, and the three ORM queries written as filters over a sequence of readings.
- `ReportContext` (context.dfy): the summary context dict, including Python truthiness of its values.
- `Sheets` (sheets.dfy): the workbook as two lists of rows, and the PR/CUF formulas.
- `Tasks` (tasks.dfy): the `ZipReport` class, the per-location step, the loop, and the properties of a whole run.

`Tasks.Run` specifies the whole run as a fold of `Tasks.Step` over the location list.
`Run` takes the per-location `try` block as a parameter, so its lemmas hold for any such block.
`Tasks.Process` supplies the task's own block, `Tasks.ProcessLocation`.
The imperative `Tasks.GenerateZip` is proved equal to `Run` with that block. The lemmas about `Run` state
what a caller sees afterwards.

Two behaviours of the code as written are reproduced, not corrected:

- When both readings exist, the context has no "specific_yields" key, and the lookup at line 50 raises. That location always ends in Error (`Tasks.BothReadingsFail`). So a saved workbook never shows real deltas. Its daily energy, active power, specific yield and total energy cells are always "0" (`Tasks.SavedWorkbook`).
- "0" is a non-empty string, so it is truthy. In the fallback case the guard at line 50 therefore passes whenever the range has a reading. The summary PR is then computed from that reading.

Three further points about the loop:

- It does not stop at the first failing location. Every location is processed, and each one overwrites the status.
- A location joins the report's location set before its work begins, whatever its outcome.
- An empty location list leaves the saved status at "Generating".

## Model

| member | source | states |
|---|---|---|
| PyValues.IntOf | src/adminapp/tasks.py:34-36 | `int()` of a NULL column raises TypeError; otherwise it truncates toward zero |
| Readings.LatestOn | src/adminapp/tasks.py:26-31 | the start/end query returns none exactly when no active reading of the location falls on that day; otherwise it returns such a reading whose id is at least every other match's |
| Readings.Window | src/adminapp/tasks.py:84-87 | the range query holds only active readings of the location dated within [from, to], and each such reading as often as the store does |
| ReportContext.Delta | src/adminapp/tasks.py:34-36 | one delta raises TypeError exactly when either reading's column is NULL |
| ReportContext.BuildContext | src/adminapp/tasks.py:32-42 | with both readings: exactly the three keys, each end minus start of the truncated values, and TypeError iff a column is NULL; with either missing: exactly four keys, all "0"; "specific_yields" is present iff a reading is missing |
| Sheets.CufTruncationGap | src/adminapp/tasks.py:89-90 | the row CUF, which truncates the ratio before scaling, and the summary-style CUF of the same ratio differ by less than 288/365, with the row value nearer zero |
| Sheets.AnalysisRow | src/adminapp/tasks.py:91-94 | an analysis row has the header's nine columns: the reading's timestamp, energies, power and yield in place, insolation 6000 and irradiation 250 |
| Sheets.SummaryRows | src/adminapp/tasks.py:64-81 | the summary sheet has fifteen rows: plant name, the (shifted) date range, the four context values, CUF, PR, insolation 6000 and irradiation 250 |
| Tasks.SummaryMetrics | src/adminapp/tasks.py:47-52 | the guard raises KeyError when the context lacks "specific_yields", and TypeError when the context value is truthy and the range's first reading has a NULL yield; a non-zero PR/CUF needs a reading in range |
| Tasks.SavedIff | src/adminapp/tasks.py:32-94 | a location's workbook is saved iff a start or end reading is missing and every reading of the range has a specific yield |
| Tasks.BothReadingsFail | src/adminapp/tasks.py:32-50 | when both readings exist the location fails: KeyError "specific_yields" when the deltas convert, TypeError otherwise |
| Tasks.SavedWorkbook | src/adminapp/tasks.py:84-105 | a saved workbook has the header plus exactly one row per reading of the range, in order, each with insolation 6000 and irradiation 250; its summary shows the shifted dates and "0" for energy, power and yield |
| Tasks.ShiftedFrom | src/adminapp/tasks.py:24-25 | the start date after the check differs from the end date, and it moved back one day only when it equalled the end date |
| Tasks.RunFromDate | src/adminapp/tasks.py:20-25 | after any non-empty run `from_date` is the once-shifted date; after an empty run it is unchanged |
| Tasks.ShiftAtMostOnce | src/adminapp/tasks.py:24-25 | the number of iterations that shift the date is 1 when the range is one day and the list is non-empty, and 0 otherwise |
| Tasks.EveryLocationUsesShiftedDate | src/adminapp/tasks.py:20-25 | every iteration, not only the first, uses the shifted date |
| Tasks.LocationsCovered | src/adminapp/tasks.py:20-22 | the report's location set is exactly the set of listed locations, whatever the outcomes |
| Tasks.FinalStatus | src/adminapp/tasks.py:108-112 | the status is "Generating" iff the list is empty; otherwise it is the outcome of the last location alone |
| Tasks.LaterSuccessOverridesError | src/adminapp/tasks.py:108-111 | a successful last location leaves "Success" whatever happened to the earlier ones |
| Tasks.FilesWritten | src/adminapp/tasks.py:106-111 | a file is written, keyed by location name, for exactly the locations whose workbook was saved |
| Tasks.FileContents | src/adminapp/tasks.py:106-111 | each written file holds the workbook saved for a listed location of that name, and that location is the last one of that name whose workbook was saved |
| Tasks.WrittenFileShape | src/adminapp/tasks.py:96-107 | every written file has the analysis header followed by rows with insolation 6000 and irradiation 250, and a fifteen-row summary whose energy, power and yield cells are "0" |
| Tasks.ZipReport.Create | src/adminapp/tasks.py:18-19 | a new report is stored in status "Generating" with the unshifted dates and no locations |
| Tasks.ZipReport.AddLocation | src/adminapp/tasks.py:22 | adding a location extends the location set by that location |
| Tasks.ZipReport.SetStatus | src/adminapp/tasks.py:108-111 | assigning the status changes only the in-memory status |
| Tasks.ZipReport.Save | src/adminapp/tasks.py:112 | saving copies the in-memory status to the stored one |
| Tasks.CollectAnalysisRows | src/adminapp/tasks.py:84-94 | the row loop succeeds iff every reading of the range has a yield, and then returns one row per reading in order; otherwise it raises TypeError |
| Tasks.BuildLocation | src/adminapp/tasks.py:23-107 | the per-location `try` block returns exactly the outcome that `ProcessLocation` specifies |
| Tasks.Iterate | src/adminapp/tasks.py:21-111 | one pass of the loop body leaves the report's status and location set, the start date and the directory exactly as one `Step` of the run specifies |
| Tasks.GenerateZip | src/adminapp/tasks.py:15-113 | the task returns a fresh report whose stored and in-memory status, location set and written files equal those of `Run`; its dates are the requested, unshifted ones |

## Left out

- The Celery decorator and task binding, and the `user`, `category`, `frequency` and `name` arguments. These are stored on the report and never read.
- Workbook formatting is not modelled: the default sheet's removal and the header's font. The workbook is two lists of rows.
- The filesystem is not modelled. `mkdir` and `wb.save` are assumed to succeed. The report's directory is a map from location name to workbook, so two locations with the same name overwrite each other.
- `print(e)` in the `except` branch.
- Sheets.PerformanceRatio: uses exact rational arithmetic for PR and CUF instead of binary floating point, so rounding is not modelled.
- Readings.CreatedDate: dates are whole day numbers, and `created_at` is seconds since the epoch in UTC. Timezone conversion is not modelled. The arguments are assumed to be datetimes at midnight: a plain `date` would make `replace(tzinfo=None)` at line 66 raise.
- Tasks.SummaryMetrics: `.first()` at line 46 returns a definite reading: the lowest-id one, or the first by `Meta.ordering` if the InverterData class declares one. The InverterData class is not part of this model. The model instead takes the first reading of the range in store order. So the summary PR and CUF cells are those of that reading, which need not be the one the database returns. `Tasks.SavedIff` shows that whether a location is saved or fails does not depend on this choice.
- Readings.Window: the iteration at line 88 has no guaranteed order. The store sequence's order stands for it.
- A reading's device is not modelled separately: each reading carries its device's location.
- Numeric columns are nullable reals. Non-numeric strings, NaN and infinity are not modelled, so `int()` cannot raise ValueError or OverflowError here.
- Failures of `location.add` or of the database are not modelled. Neither is a `None` location list, which would raise outside the `try` and leave the report at "Generating".
- Tasks.GenerateZip: the `report.id` is an argument; the database assigns it in the source.
- The ingestion, register decoding, viewsets, filters, permissions, serializers, routers and the zip-archive helper are not part of this model.
