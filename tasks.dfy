/** The report task generate_zip: one ZipReport row, then for each requested
    location a workbook built from that location's readings, a status written
    per location, and a single save at the end. */
module Tasks {
  import opened PyValues
  import opened Readings
  import opened ReportContext
  import opened Sheets

  /** The status strings generate_zip writes into the report. */
  datatype Status = Generating | Success | Error

  /** What the `try` block does with one location: a saved workbook, or the
      exception that the `except` branch catches. */
  datatype Outcome = Saved(book: Workbook) | Failed(failure: Failure)

  function StatusOf(out: Outcome): Status {
    if out.Saved? then Success else Error
  }

  /** The summary performance ratio and CUF. */
  datatype Metrics = Metrics(pr: real, cuf: real)

  /** The guard `context and context['specific_yields'] and inverter_data` and
      the summary PR/CUF it computes from the first reading of the range. */
  function SummaryMetrics(ctx: Context, first: Option<Reading>): (r: Result<Metrics>)
    ensures r.Err? <==> (|ctx| > 0 &&
      (SpecificYieldsKey !in ctx ||
       (Truthy(ctx[SpecificYieldsKey]) && first.Some? && first.value.specificYields.None?)))
    ensures r.Err? && SpecificYieldsKey !in ctx ==> r.failure == KeyError(SpecificYieldsKey)
    ensures r.Err? && SpecificYieldsKey in ctx ==> r.failure == TypeError
    ensures r.Ok? && (r.value.pr != 0.0 || r.value.cuf != 0.0) ==> first.Some?
  {
    if |ctx| == 0 then Ok(Metrics(0.0, 0.0))
    else if SpecificYieldsKey !in ctx then Err(KeyError(SpecificYieldsKey))
    else if !Truthy(ctx[SpecificYieldsKey]) || first.None? then Ok(Metrics(0.0, 0.0))
    else
      match IntOf(first.value.specificYields)
      case Err(e) => Err(e)
      case Ok(y) =>
        var pr := PerformanceRatio(y);
        Ok(Metrics(pr, PlantCuf(pr)))
  }

  /** The body of the `try` block for one location, after the location has been
      added to the report and `from` has been shifted. */
  function ProcessLocation(store: seq<Reading>, loc: Location, from: int, to: int): Outcome {
    var start := LatestOn(store, loc.id, from);
    var end := LatestOn(store, loc.id, to);
    match BuildContext(start, end)
    case Err(e) => Failed(e)
    case Ok(ctx) =>
      var window := Window(store, loc.id, from, to);
      var first := if window == [] then None else Some(window[0]);
      match SummaryMetrics(ctx, first)
      case Err(e) => Failed(e)
      case Ok(m) =>
        if !AllYieldsSet(window) then Failed(TypeError)
        else
          var summary := SummaryRows(loc.name, from, to, ctx[DailyEnergyKey], ctx[ActivePowerKey],
                                     ctx[SpecificYieldsKey], ctx[TotalEnergyKey], m.pr, m.cuf);
          Saved(Workbook(summary, [AnalysisHeader] + AnalysisRows(window)))
  }

  /** A location's workbook is saved exactly when one of its two readings is
      missing and every reading of its range has a specific yield. */
  lemma SavedIff(store: seq<Reading>, loc: Location, from: int, to: int)
    ensures ProcessLocation(store, loc, from, to).Saved? <==>
      (LatestOn(store, loc.id, from).None? || LatestOn(store, loc.id, to).None?) &&
      AllYieldsSet(Window(store, loc.id, from, to))
  {
    var window := Window(store, loc.id, from, to);
    if window != [] && AllYieldsSet(window) {
      assert window[0].specificYields.Some?;
    }
  }

  /** When both the start and the end reading exist, the context lacks
      "specific_yields" and the location always fails: with KeyError when the
      deltas convert, with TypeError when a NULL column stops them first. */
  lemma BothReadingsFail(store: seq<Reading>, loc: Location, from: int, to: int)
    requires LatestOn(store, loc.id, from).Some? && LatestOn(store, loc.id, to).Some?
    ensures ProcessLocation(store, loc, from, to).Failed?
    ensures ProcessLocation(store, loc, from, to).failure ==
      if DeltaFieldsSet(LatestOn(store, loc.id, from).value) && DeltaFieldsSet(LatestOn(store, loc.id, to).value)
      then KeyError(SpecificYieldsKey) else TypeError
  {
  }

  /** What a saved workbook holds: the header and one row per reading of the
      range, each with insolation 6000 and irradiation 250; a summary whose
      energy, power and yield cells are the "0" fallback. */
  lemma SavedWorkbook(store: seq<Reading>, loc: Location, from: int, to: int, book: Workbook)
    requires ProcessLocation(store, loc, from, to) == Saved(book)
    ensures AllYieldsSet(Window(store, loc.id, from, to))
    ensures |book.analysis| == 1 + |Window(store, loc.id, from, to)|
    ensures book.analysis[0] == AnalysisHeader
    ensures forall i :: 0 <= i < |Window(store, loc.id, from, to)| ==>
      book.analysis[i + 1] == AnalysisRow(Window(store, loc.id, from, to)[i])
    ensures forall i :: 1 <= i < |book.analysis| ==>
      |book.analysis[i]| == 9 && book.analysis[i][7] == Whole(6000) && book.analysis[i][8] == Whole(250)
    ensures |book.summary| == 15 && (forall k :: 7 <= k < 15 ==> |book.summary[k]| == 3)
    ensures book.summary[1] == [Text("Date"), Day(from), Day(to)]
    ensures book.summary[7][1] == book.summary[8][1] == book.summary[9][1] == book.summary[12][1] == Text("0")
  {
    var m := SavedBookForm(store, loc, from, to, book);
    BookShape(loc.name, from, to, Window(store, loc.id, from, to), m, book);
  }

  /** The shape of a workbook built from the fallback summary and a range's rows. */
  lemma BookShape(name: string, from: int, to: int, window: seq<Reading>, m: Metrics, book: Workbook)
    requires AllYieldsSet(window)
    requires book == Workbook(SummaryRows(name, from, to, Zero, Zero, Zero, Zero, m.pr, m.cuf),
                              [AnalysisHeader] + AnalysisRows(window))
    ensures |book.analysis| == 1 + |window| && book.analysis[0] == AnalysisHeader
    ensures forall i :: 0 <= i < |window| ==> book.analysis[i + 1] == AnalysisRow(window[i])
    ensures forall i :: 1 <= i < |book.analysis| ==>
      |book.analysis[i]| == 9 && book.analysis[i][7] == Whole(6000) && book.analysis[i][8] == Whole(250)
    ensures |book.summary| == 15 && (forall k :: 7 <= k < 15 ==> |book.summary[k]| == 3)
    ensures book.summary[1] == [Text("Date"), Day(from), Day(to)]
    ensures book.summary[7][1] == book.summary[8][1] == book.summary[9][1] == book.summary[12][1] == Text("0")
  {
    forall i | 1 <= i < |book.analysis|
      ensures |book.analysis[i]| == 9 && book.analysis[i][7] == Whole(6000) && book.analysis[i][8] == Whole(250)
    {
      assert book.analysis[i] == AnalysisRow(window[i - 1]);
    }
  }

  /** A saved workbook is the fallback summary (four "0" values and the summary
      metrics `m`) and the header followed by the rows of the range. */
  lemma SavedBookForm(store: seq<Reading>, loc: Location, from: int, to: int, book: Workbook) returns (m: Metrics)
    requires ProcessLocation(store, loc, from, to) == Saved(book)
    ensures AllYieldsSet(Window(store, loc.id, from, to))
    ensures book == Workbook(SummaryRows(loc.name, from, to, Zero, Zero, Zero, Zero, m.pr, m.cuf),
                             [AnalysisHeader] + AnalysisRows(Window(store, loc.id, from, to)))
  {
    var window := Window(store, loc.id, from, to);
    var start, end := LatestOn(store, loc.id, from), LatestOn(store, loc.id, to);
    SavedIff(store, loc, from, to);
    var ctx := BuildContext(start, end).value;
    assert ctx[DailyEnergyKey] == ctx[ActivePowerKey] == ctx[SpecificYieldsKey] == ctx[TotalEnergyKey] == Zero;
    var first := if window == [] then None else Some(window[0]);
    m := SummaryMetrics(ctx, first).value;
  }

  /** The `from_date` reassignment: a one-day range is widened to start a day earlier. */
  function ShiftedFrom(from: int, to: int): (f: int)
    ensures f != to
    ensures f == from || (from == to && f == from - 1)
  {
    if from == to then from - 1 else from
  }

  /** The task's state between iterations: the in-memory status, the report's
      location set, the current `from_date` and the files written so far, by
      location name. */
  datatype RunState = RunState(status: Status, locations: set<nat>, fromDate: int, files: map<string, Workbook>)

  /** The `try` block for one location, given the location and the start date
      it uses; the run below is stated for any such block. */
  type Processor = (Location, int) -> Outcome

  /** The task's own `try` block, for a given store and end date. */
  function Process(store: seq<Reading>, to: int): Processor {
    (l: Location, d: int) => ProcessLocation(store, l, d, to)
  }

  /** One iteration of the loop over the location list. */
  function Step(process: Processor, st: RunState, loc: Location, to: int): RunState {
    var from := ShiftedFrom(st.fromDate, to);
    var out := process(loc, from);
    RunState(StatusOf(out), st.locations + {loc.id}, from,
             if out.Saved? then st.files[loc.name := out.book] else st.files)
  }

  /** The state after processing the given locations in order. */
  function Run(process: Processor, locs: seq<Location>, from: int, to: int): RunState
    decreases |locs|
  {
    if locs == [] then RunState(Generating, {}, from, map[])
    else Step(process, Run(process, locs[..|locs| - 1], from, to), locs[|locs| - 1], to)
  }

  /** Processing one more location of the list is one more step. */
  lemma RunSnoc(process: Processor, locs: seq<Location>, i: nat, from: int, to: int)
    requires i < |locs|
    ensures Run(process, locs[..i + 1], from, to) == Step(process, Run(process, locs[..i], from, to), locs[i], to)
  {
    assert locs[..i + 1][..i] == locs[..i];
  }

  /** The date is shifted by the first iteration at most, and every later
      iteration keeps the shifted date. */
  lemma {:induction false} RunFromDate(process: Processor, locs: seq<Location>, from: int, to: int)
    ensures Run(process, locs, from, to).fromDate == if locs == [] then from else ShiftedFrom(from, to)
    decreases |locs|
  {
    if locs != [] {
      RunFromDate(process, locs[..|locs| - 1], from, to);
    }
  }

  /** How many iterations move `from_date` back a day. */
  function ShiftCount(process: Processor, locs: seq<Location>, from: int, to: int): nat
    decreases |locs|
  {
    if locs == [] then 0
    else
      var before := Run(process, locs[..|locs| - 1], from, to);
      ShiftCount(process, locs[..|locs| - 1], from, to) + (if before.fromDate == to then 1 else 0)
  }

  /** The shift happens once exactly when the range is a single day and some
      location is processed; never otherwise. */
  lemma {:induction false} ShiftAtMostOnce(process: Processor, locs: seq<Location>, from: int, to: int)
    ensures ShiftCount(process, locs, from, to) == if from == to && locs != [] then 1 else 0
    decreases |locs|
  {
    if locs != [] {
      var prefix := locs[..|locs| - 1];
      ShiftAtMostOnce(process, prefix, from, to);
      RunFromDate(process, prefix, from, to);
    }
  }

  /** Every location processed uses the same, possibly shifted, start date. */
  lemma EveryLocationUsesShiftedDate(process: Processor, locs: seq<Location>, from: int, to: int, i: nat)
    requires i < |locs|
    ensures Run(process, locs[..i + 1], from, to).fromDate == ShiftedFrom(from, to)
  {
    RunFromDate(process, locs[..i + 1], from, to);
  }

  /** The report's location set is the set of listed locations, whatever the
      outcomes. */
  lemma {:induction false} LocationsCovered(process: Processor, locs: seq<Location>, from: int, to: int)
    ensures Run(process, locs, from, to).locations == set l | l in locs :: l.id
    decreases |locs|
  {
    if locs != [] {
      var prefix, last := locs[..|locs| - 1], locs[|locs| - 1];
      LocationsCovered(process, prefix, from, to);
      assert Run(process, locs, from, to).locations == Run(process, prefix, from, to).locations + {last.id};
      assert locs == prefix + [last];
      assert (set l | l in locs :: l.id) == (set l | l in prefix :: l.id) + {last.id};
    }
  }

  /** The status is "Generating" exactly when no location was processed;
      otherwise it is the outcome of the last location alone. */
  lemma FinalStatus(process: Processor, locs: seq<Location>, from: int, to: int)
    ensures (Run(process, locs, from, to).status == Generating) <==> locs == []
    ensures locs != [] ==> (Run(process, locs, from, to).status ==
      StatusOf(process(locs[|locs| - 1], ShiftedFrom(from, to))))
  {
    if locs != [] {
      RunFromDate(process, locs[..|locs| - 1], from, to);
    }
  }

  /** An earlier Error is overwritten when the last location succeeds. */
  lemma LaterSuccessOverridesError(process: Processor, earlier: seq<Location>, last: Location, from: int, to: int)
    requires process(last, ShiftedFrom(from, to)).Saved?
    ensures Run(process, earlier + [last], from, to).status == Success
  {
    FinalStatus(process, earlier + [last], from, to);
  }

  /** A file is written, under the location's name, for exactly the locations
      whose workbook was saved. */
  lemma {:induction false} FilesWritten(process: Processor, locs: seq<Location>, from: int, to: int)
    ensures Run(process, locs, from, to).files.Keys ==
      set l | l in locs && process(l, ShiftedFrom(from, to)).Saved? :: l.name
    decreases |locs|
  {
    if locs != [] {
      var prefix, last := locs[..|locs| - 1], locs[|locs| - 1];
      var date := ShiftedFrom(from, to);
      FilesWritten(process, prefix, from, to);
      RunFromDate(process, prefix, from, to);
      var saved := process(last, date).Saved?;
      assert Run(process, locs, from, to).files.Keys ==
        Run(process, prefix, from, to).files.Keys + (if saved then {last.name} else {});
      assert locs == prefix + [last];
      assert (set l | l in locs && process(l, date).Saved? :: l.name) ==
        (set l | l in prefix && process(l, date).Saved? :: l.name) + (if saved then {last.name} else {});
    }
  }

  /** Position `i` holds the last location named `name` whose workbook, `book`,
      was saved: every later location of that name failed. */
  predicate SavedLastAt(process: Processor, locs: seq<Location>, date: int,
                        name: string, i: int, book: Workbook) {
    0 <= i < |locs| && locs[i].name == name && process(locs[i], date) == Saved(book) &&
    forall j :: i < j < |locs| && locs[j].name == name ==> process(locs[j], date).Failed?
  }

  /** Each written file holds the workbook saved for a listed location of that
      name, namely the last such location that was saved: a later save of the
      same name would have overwritten the file. */
  lemma {:induction false} FileContents(process: Processor, locs: seq<Location>, from: int, to: int, name: string)
    requires name in Run(process, locs, from, to).files
    ensures exists i :: SavedLastAt(process, locs, ShiftedFrom(from, to), name, i, Run(process, locs, from, to).files[name])
    decreases |locs|
  {
    var date := ShiftedFrom(from, to);
    var k := |locs| - 1;
    var prefix := locs[..k];
    var before := Run(process, prefix, from, to);
    var files := Run(process, locs, from, to).files;
    RunFromDate(process, prefix, from, to);
    assert ShiftedFrom(before.fromDate, to) == date;
    var out := process(locs[k], date);
    assert files == if out.Saved? then before.files[locs[k].name := out.book] else before.files;
    if out.Saved? && locs[k].name == name {
      assert SavedLastAt(process, locs, date, name, k, files[name]);
    } else {
      assert name in before.files && files[name] == before.files[name];
      FileContents(process, prefix, from, to, name);
      var i :| SavedLastAt(process, prefix, date, name, i, files[name]);
      assert locs[i] == prefix[i];
      forall j | i < j < |locs| && locs[j].name == name
        ensures process(locs[j], date).Failed?
      {
        if j < k {
          assert locs[j] == prefix[j];
        } else {
          assert j == k && !out.Saved?;
        }
      }
      assert SavedLastAt(process, locs, date, name, i, files[name]);
    }
  }

  /** Every file the task writes has the saved-workbook shape: the analysis
      header followed by rows carrying insolation 6000 and irradiation 250, and
      a summary whose energy, power and yield cells are "0". */
  lemma WrittenFileShape(store: seq<Reading>, locs: seq<Location>, from: int, to: int, name: string)
    requires name in Run(Process(store, to), locs, from, to).files
    ensures var book := Run(Process(store, to), locs, from, to).files[name];
      1 <= |book.analysis| && book.analysis[0] == AnalysisHeader &&
      (forall i :: 1 <= i < |book.analysis| ==>
        |book.analysis[i]| == 9 && book.analysis[i][7] == Whole(6000) && book.analysis[i][8] == Whole(250)) &&
      |book.summary| == 15 && (forall k :: 7 <= k < 15 ==> |book.summary[k]| == 3) &&
      book.summary[7][1] == book.summary[8][1] == book.summary[9][1] == book.summary[12][1] == Text("0")
  {
    var book := Run(Process(store, to), locs, from, to).files[name];
    FileContents(Process(store, to), locs, from, to, name);
    var i :| SavedLastAt(Process(store, to), locs, ShiftedFrom(from, to), name, i, book);
    SavedWorkbook(store, locs[i], ShiftedFrom(from, to), to, book);
  }

  /** The ZipReport row. `status` is the attribute on the Python object;
      `storedStatus` is the column in the database, written by `Save`;
      `locations` is the many-to-many relation, whose `add` writes through. */
  class ZipReport {
    const id: nat
    const fromDate: int
    const toDate: int
    var status: Status
    var storedStatus: Status
    var locations: set<nat>

    /** `ZipReport.objects.create(status="Generating", ...)`. */
    constructor Create(id: nat, fromDate: int, toDate: int)
      ensures this.id == id && this.fromDate == fromDate && this.toDate == toDate
      ensures status == Generating && storedStatus == Generating && locations == {}
    {
      this.id, this.fromDate, this.toDate := id, fromDate, toDate;
      status, storedStatus, locations := Generating, Generating, {};
    }

    /** `report_instance.location.add(location)`. */
    method AddLocation(loc: nat)
      modifies this`locations
      ensures locations == old(locations) + {loc}
    {
      locations := locations + {loc};
    }

    /** `report_instance.status = s`. */
    method SetStatus(s: Status)
      modifies this`status
      ensures status == s
    {
      status := s;
    }

    /** `report_instance.save()`. */
    method Save()
      modifies this`storedStatus
      ensures storedStatus == status
    {
      storedStatus := status;
    }
  }

  /** The loop over the readings of the range (`inverter_data.iterator()`):
      one row per reading, or TypeError at the first NULL specific yield. */
  method CollectAnalysisRows(window: seq<Reading>) returns (res: Result<seq<Row>>)
    ensures res.Ok? <==> AllYieldsSet(window)
    ensures res.Err? ==> res.failure == TypeError
    ensures res.Ok? ==> res.value == AnalysisRows(window)
  {
    var rows: seq<Row> := [];
    for i := 0 to |window|
      invariant AllYieldsSet(window[..i])
      invariant rows == AnalysisRows(window[..i])
    {
      var yieldInt := IntOf(window[i].specificYields);
      if yieldInt.Err? {
        return Err(yieldInt.failure);
      }
      rows := rows + [AnalysisRow(window[i])];
    }
    assert window[..|window|] == window;
    return Ok(rows);
  }

  /** The `try` block for one location (without the `add`, which the caller does). */
  method BuildLocation(store: seq<Reading>, loc: Location, from: int, to: int) returns (out: Outcome)
    ensures out == ProcessLocation(store, loc, from, to)
  {
    var start := LatestOn(store, loc.id, from);
    var end := LatestOn(store, loc.id, to);
    var context := BuildContext(start, end);
    if context.Err? {
      return Failed(context.failure);
    }
    var ctx := context.value;
    var window := Window(store, loc.id, from, to);
    var first := if window == [] then None else Some(window[0]);
    var metrics := SummaryMetrics(ctx, first);
    if metrics.Err? {
      return Failed(metrics.failure);
    }
    var m := metrics.value;
    var summary := SummaryRows(loc.name, from, to, ctx[DailyEnergyKey], ctx[ActivePowerKey],
                               ctx[SpecificYieldsKey], ctx[TotalEnergyKey], m.pr, m.cuf);
    var rows := CollectAnalysisRows(window);
    if rows.Err? {
      return Failed(rows.failure);
    }
    return Saved(Workbook(summary, [AnalysisHeader] + rows.value));
  }

  /** One pass of the loop body: add the location to the report, shift a
      one-day range, run the `try` block, record the status and the file. */
  method Iterate(store: seq<Reading>, report: ZipReport, location: Location, from: int, toDate: int,
                 directory: map<string, Workbook>)
    returns (nextFrom: int, nextDirectory: map<string, Workbook>)
    modifies report`locations, report`status
    ensures var after := Step(Process(store, toDate), RunState(old(report.status), old(report.locations), from, directory),
                              location, toDate);
      report.status == after.status && report.locations == after.locations &&
      nextFrom == after.fromDate && nextDirectory == after.files
  {
    report.AddLocation(location.id);
    nextFrom := from;
    if nextFrom == toDate {
      nextFrom := nextFrom - 1;
    }
    var out := BuildLocation(store, location, nextFrom, toDate);
    nextDirectory := directory;
    if out.Saved? {
      nextDirectory := nextDirectory[location.name := out.book];
      report.SetStatus(Success);
    } else {
      report.SetStatus(Error);
    }
  }

  /** generate_zip: creates the report in status Generating, processes the
      locations in order, and saves the report once at the end. `directory`
      is the report's media directory, file name (location name) to workbook. */
  method GenerateZip(store: seq<Reading>, locationList: seq<Location>, fromDate: int, toDate: int, reportId: nat)
    returns (report: ZipReport, directory: map<string, Workbook>)
    ensures fresh(report)
    ensures report.id == reportId && report.fromDate == fromDate && report.toDate == toDate
    ensures report.storedStatus == report.status == Run(Process(store, toDate), locationList, fromDate, toDate).status
    ensures report.locations == Run(Process(store, toDate), locationList, fromDate, toDate).locations
    ensures directory == Run(Process(store, toDate), locationList, fromDate, toDate).files
  {
    report := new ZipReport.Create(reportId, fromDate, toDate);
    directory := map[];
    var from := fromDate;
    ghost var process := Process(store, toDate);
    for i := 0 to |locationList|
      invariant report.storedStatus == Generating
      invariant from == Run(process, locationList[..i], fromDate, toDate).fromDate
      invariant report.status == Run(process, locationList[..i], fromDate, toDate).status
      invariant report.locations == Run(process, locationList[..i], fromDate, toDate).locations
      invariant directory == Run(process, locationList[..i], fromDate, toDate).files
    {
      RunSnoc(process, locationList, i, fromDate, toDate);
      from, directory := Iterate(store, report, locationList[i], from, toDate, directory);
    }
    assert locationList[..|locationList|] == locationList;
    report.Save();
  }
}
