/** The workbook generate_zip writes per location, as two lists of rows: the
    "Plant Summery" sheet and the "Plant Analysis" sheet. */
module Sheets {
  import opened PyValues
  import opened Readings
  import opened ReportContext

  /** A spreadsheet cell. `Stamp` is a reading's creation time, `Day` a report
      date, `Field` a nullable reading column written as stored. */
  datatype Cell =
    | Text(s: string)
    | Whole(i: int)
    | Frac(x: real)
    | Day(day: int)
    | Stamp(t: int)
    | Field(v: Option<real>)

  type Row = seq<Cell>

  /** `summary` is the sheet named "Plant Summery", `analysis` the sheet named
      "Plant Analysis", in that order in the file. */
  datatype Workbook = Workbook(summary: seq<Row>, analysis: seq<Row>)

  /** The fixed irradiation (W/m2) and the insolation derived from it (KWh/m2). */
  const Irradiation := 250
  const Insolation := Irradiation * 24

  const AnalysisHeader: Row := [
    Text("Timestamp"), Text("Daily Energy [ kWh ]"), Text("Output Active Power [ kWp ]"),
    Text("Specific Yield [ kWh/kWp ]"), Text("CUF [ % ]"), Text("Performance Ratio [ % ]"),
    Text("Total Energy [ MWh ]"), Text("Solar Insolation [ KWh/m2 ]"), Text("Solar Irradiation [ W/m2 ]")]

  /** A dict value written into a cell. */
  function ValueCell(v: Value): Cell {
    match v
    case IntV(i) => Whole(i)
    case StrV(s) => Text(s)
  }

  /** `(int(specific_yields) * 100) / 24`, true division. */
  function PerformanceRatio(yieldInt: int): (pr: real)
    ensures (pr < 0.0) <==> (yieldInt < 0)
  {
    (yieldInt * 100) as real / 24.0
  }

  /** The summary CUF: `pr / 365 * 24 * 12`. */
  function PlantCuf(pr: real): real
  {
    pr / 365.0 * 24.0 * 12.0
  }

  /** The per-row CUF: `int(inverter_pr) / 365 * 24 * 12`; the ratio is truncated first. */
  function InverterCuf(pr: real): real
  {
    Trunc(pr) as real / 365.0 * 24.0 * 12.0
  }

  /** The row CUF truncates the ratio before scaling and the summary CUF does
      not: they differ by less than one truncation step, 288/365, with the row
      value nearer zero. */
  lemma CufTruncationGap(pr: real)
    ensures 0.0 <= pr ==> InverterCuf(pr) <= PlantCuf(pr) < InverterCuf(pr) + 288.0 / 365.0
    ensures pr < 0.0 ==> PlantCuf(pr) <= InverterCuf(pr) < PlantCuf(pr) + 288.0 / 365.0
  {
  }

  /** One analysis row for a reading whose specific yield converts with int(). */
  function AnalysisRow(r: Reading): (row: Row)
    requires r.specificYields.Some?
    ensures |row| == |AnalysisHeader|
    ensures row[0] == Stamp(r.createdAt) && row[3] == Field(r.specificYields)
    ensures row[1] == Field(r.dailyEnergy) && row[2] == Field(r.opActivePower) && row[6] == Field(r.totalEnergy)
    ensures row[7] == Whole(6000) && row[8] == Whole(250)
  {
    var pr := PerformanceRatio(Trunc(r.specificYields.value));
    [Stamp(r.createdAt), Field(r.dailyEnergy), Field(r.opActivePower), Field(r.specificYields),
     Frac(InverterCuf(pr)), Frac(pr), Field(r.totalEnergy), Whole(Insolation), Whole(Irradiation)]
  }

  predicate AllYieldsSet(rs: seq<Reading>) {
    forall i :: 0 <= i < |rs| ==> rs[i].specificYields.Some?
  }

  /** The analysis rows of a list of readings, one per reading, in order. */
  function AnalysisRows(rs: seq<Reading>): (rows: seq<Row>)
    requires AllYieldsSet(rs)
    ensures |rows| == |rs|
  {
    seq(|rs|, i requires 0 <= i < |rs| => AnalysisRow(rs[i]))
  }

  /** The fifteen rows of the summary sheet. */
  function SummaryRows(name: string, from: int, to: int, daily: Value, power: Value,
                       specific: Value, total: Value, pr: real, cuf: real): (rows: seq<Row>)
    ensures |rows| == 15 && forall i :: 7 <= i < 15 ==> |rows[i]| == 3
    ensures rows[0] == [Text("Plant Name"), Text(name)] && rows[1] == [Text("Date"), Day(from), Day(to)]
    ensures rows[7][1] == ValueCell(daily) && rows[8][1] == ValueCell(power)
    ensures rows[9][1] == ValueCell(specific) && rows[12][1] == ValueCell(total)
    ensures rows[10][1] == Frac(cuf) && rows[11][1] == Frac(pr)
    ensures rows[13][1] == Whole(6000) && rows[14][1] == Whole(250)
  {
    [ [Text("Plant Name"), Text(name)],
      [Text("Date"), Day(from), Day(to)],
      [Text("Description")],
      [Text("Plant Capacity"), Text(""), Text("kWp")],
      [Text("Plant Manager")],
      [Text("Manager Phone")],
      [Text("")],
      [Text("Daily Energy"), ValueCell(daily), Text("kWh")],
      [Text("Output Active Power"), ValueCell(power), Text("kWp")],
      [Text("Specific Yield"), ValueCell(specific), Text("kWh/kWp")],
      [Text("CUF"), Frac(cuf), Text("%")],
      [Text("Performance Ratio"), Frac(pr), Text("%")],
      [Text("Total Energy"), ValueCell(total), Text("MWh")],
      [Text("Solar Insolation"), Whole(Insolation), Text("KWh/m2")],
      [Text("Solar Irradiation"), Whole(Irradiation), Text("W/m2")] ]
  }
}
