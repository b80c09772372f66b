/** The rows generate_zip reads (InverterData), and the three ORM queries it
    issues against them, as filters over a sequence of records. The sequence
    order stands for the database's order. */
module Readings {
  import opened PyValues

  const SecondsPerDay := 86400

  /** A plant; `name` is also the file name of its spreadsheet. */
  datatype Location = Location(id: nat, name: string)

  /** One inverter reading. `location` is the location of the reading's device
      (the `device__location` join); `createdAt` is the creation time in seconds. */
  datatype Reading = Reading(
    id: int,
    location: nat,
    createdAt: int,
    isActive: bool,
    totalEnergy: Option<real>,
    dailyEnergy: Option<real>,
    opActivePower: Option<real>,
    specificYields: Option<real>)

  /** The calendar day of a reading (`created_at__date`), as a day number. */
  function CreatedDate(r: Reading): int {
    r.createdAt / SecondsPerDay
  }

  /** The filter of the start/end queries: this location, this day, active. */
  predicate OnDate(r: Reading, loc: nat, day: int) {
    r.location == loc && CreatedDate(r) == day && r.isActive
  }

  /** The filter of the range queries: this location, day in [from, to], active. */
  predicate InWindow(r: Reading, loc: nat, from: int, to: int) {
    r.location == loc && from <= CreatedDate(r) <= to && r.isActive
  }

  /** `filter(location, created_at__date=day, is_active=True).order_by('-id').first()`:
      the highest-id matching reading, or none when nothing matches. */
  function LatestOn(store: seq<Reading>, loc: nat, day: int): (r: Option<Reading>)
    ensures r.None? <==> forall x :: x in store ==> !OnDate(x, loc, day)
    ensures r.Some? ==> r.value in store && OnDate(r.value, loc, day)
    ensures r.Some? ==> forall x :: x in store && OnDate(x, loc, day) ==> x.id <= r.value.id
  {
    if store == [] then None
    else
      var rest := LatestOn(store[1..], loc, day);
      if !OnDate(store[0], loc, day) || (rest.Some? && rest.value.id > store[0].id) then rest
      else Some(store[0])
  }

  /** `filter(location, from <= created_at__date <= to, is_active=True)`: every
      matching reading exactly as often as the store holds it, and nothing else. */
  function Window(store: seq<Reading>, loc: nat, from: int, to: int): (w: seq<Reading>)
    ensures forall x :: x in w ==> InWindow(x, loc, from, to)
    ensures forall x :: multiset(w)[x] == if InWindow(x, loc, from, to) then multiset(store)[x] else 0
  {
    if store == [] then []
    else
      assert store == [store[0]] + store[1..];
      (if InWindow(store[0], loc, from, to) then [store[0]] else []) + Window(store[1..], loc, from, to)
  }
}
