/** The summary context dict built per location in generate_zip: energy deltas
    between the start and end readings, or the string "0" fallback. */
module ReportContext {
  import opened PyValues
  import opened Readings

  /** A dict value: an int delta or a string. */
  datatype Value = IntV(i: int) | StrV(s: string)

  /** Python truthiness of a dict value: "0" is a non-empty string, so it is true. */
  predicate Truthy(v: Value) {
    match v
    case IntV(i) => i != 0
    case StrV(s) => s != ""
  }

  type Context = map<string, Value>

  const TotalEnergyKey := "total_energy"
  const DailyEnergyKey := "daily_energy"
  const ActivePowerKey := "op_active_power"
  const SpecificYieldsKey := "specific_yields"
  const Zero := StrV("0")

  /** The three columns the delta branch converts with int(). */
  predicate DeltaFieldsSet(r: Reading) {
    r.totalEnergy.Some? && r.dailyEnergy.Some? && r.opActivePower.Some?
  }

  /** `int(end.f) - int(start.f)`, evaluated left to right. */
  function Delta(endField: Option<real>, startField: Option<real>): (r: Result<int>)
    ensures r.Ok? <==> endField.Some? && startField.Some?
    ensures r.Err? ==> r.failure == TypeError
    ensures r.Ok? ==> r.value == Trunc(endField.value) - Trunc(startField.value)
  {
    match IntOf(endField)
    case Err(e) => Err(e)
    case Ok(e) =>
      match IntOf(startField)
      case Err(f) => Err(f)
      case Ok(s) => Ok(e - s)
  }

  /** The context dict: three deltas when both readings exist (no
      "specific_yields" key), otherwise four "0" strings. */
  function BuildContext(start: Option<Reading>, end: Option<Reading>): (r: Result<Context>)
    ensures r.Err? ==> r.failure == TypeError
    ensures r.Ok? ==> TotalEnergyKey in r.value && DailyEnergyKey in r.value && ActivePowerKey in r.value
    ensures r.Ok? ==> (SpecificYieldsKey in r.value <==> start.None? || end.None?)
    ensures start.None? || end.None? ==>
      r.Ok? && |r.value| == 4 && forall k :: k in r.value ==> r.value[k] == Zero
    ensures start.Some? && end.Some? ==>
      (r.Ok? <==> DeltaFieldsSet(start.value) && DeltaFieldsSet(end.value))
    ensures r.Ok? && start.Some? && end.Some? ==>
      |r.value| == 3 &&
      r.value[TotalEnergyKey] == IntV(Trunc(end.value.totalEnergy.value) - Trunc(start.value.totalEnergy.value)) &&
      r.value[DailyEnergyKey] == IntV(Trunc(end.value.dailyEnergy.value) - Trunc(start.value.dailyEnergy.value)) &&
      r.value[ActivePowerKey] == IntV(Trunc(end.value.opActivePower.value) - Trunc(start.value.opActivePower.value))
  {
    if end.Some? && start.Some? then
      var s, e := start.value, end.value;
      match Delta(e.totalEnergy, s.totalEnergy)
      case Err(f) => Err(f)
      case Ok(total) =>
        match Delta(e.dailyEnergy, s.dailyEnergy)
        case Err(f) => Err(f)
        case Ok(daily) =>
          match Delta(e.opActivePower, s.opActivePower)
          case Err(f) => Err(f)
          case Ok(power) =>
            Ok(map[TotalEnergyKey := IntV(total), DailyEnergyKey := IntV(daily), ActivePowerKey := IntV(power)])
    else
      Ok(map[TotalEnergyKey := Zero, DailyEnergyKey := Zero, ActivePowerKey := Zero, SpecificYieldsKey := Zero])
  }
}
