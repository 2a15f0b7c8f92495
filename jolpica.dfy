/** The Jolpica (Ergast-compatible) payload shapes the services read, the getters that pick the
    interesting part out of a fetched payload, and the choice of the next race. A missing key on
    the way to a list reads as an empty list, as the `.get(key, default)` chains do; fetching,
    caching and the clock are outside the model (fetched payloads and `today` are parameters). */
module Jolpica {
  import opened Wrappers
  import opened Text

  datatype Driver = Driver(driverId: string, code: string, givenName: string, familyName: string)

  datatype Constructor = Constructor(constructorId: string, name: string)

  /** A driver's line in the championship table; points are whole units. */
  datatype DriverStanding = DriverStanding(driver: Driver, constructors: seq<Constructor>,
                                           position: int, points: int, wins: int)

  datatype ConstructorStanding = ConstructorStanding(team: Constructor, position: int,
                                                     points: int, wins: int)

  /** One classified car of a race. */
  datatype RaceResult = RaceResult(driver: Driver, team: Constructor, position: int,
                                   grid: int, points: int, status: string)

  datatype QualifyingResult = QualifyingResult(driver: Driver, position: int)

  /** A race of the calendar. `date` is a day number; `isNextSeason` stands for the flag key that
      only the next-season fallback adds (false: the key is absent). */
  datatype ScheduleRace = ScheduleRace(season: string, round: int, raceName: string, date: int,
                                       isNextSeason: bool)

  /** The race object of a results or qualifying payload (`Races[0]`); either list may be absent. */
  datatype RaceData = RaceData(round: int, raceName: string, results: Option<seq<RaceResult>>,
                               qualifyingResults: Option<seq<QualifyingResult>>)

  /** One entry of `StandingsLists`. */
  datatype StandingsList = StandingsList(driverStandings: Option<seq<DriverStanding>>,
                                         constructorStandings: Option<seq<ConstructorStanding>>)

  function OrEmpty<T>(o: Option<seq<T>>): seq<T>
  {
    if o.Some? then o.value else []
  }

  /** `get_driver_standings`: the entries of the first standings list, and none when the season
      has no standings list yet. */
  function GetDriverStandings(lists: seq<StandingsList>): (r: seq<DriverStanding>)
    ensures r == [] <==> lists == [] || OrEmpty(lists[0].driverStandings) == []
    ensures r != [] ==> lists[0].driverStandings == Some(r)
  {
    if lists == [] then [] else OrEmpty(lists[0].driverStandings)
  }

  /** `get_constructor_standings`, the same for the constructors' table. */
  function GetConstructorStandings(lists: seq<StandingsList>): (r: seq<ConstructorStanding>)
    ensures r == [] <==> lists == [] || OrEmpty(lists[0].constructorStandings) == []
    ensures r != [] ==> lists[0].constructorStandings == Some(r)
  {
    if lists == [] then [] else OrEmpty(lists[0].constructorStandings)
  }

  /** `get_race_results` and `get_qualifying_results`: the first race of the payload, or the empty
      dictionary (None) when the race has not been run. */
  function FirstRace(races: seq<RaceData>): (r: Option<RaceData>)
    ensures r.None? <==> races == []
    ensures r.Some? ==> r.value == races[0]
  {
    if races == [] then None else Some(races[0])
  }

  /** `get_next_race`: the first race of the current schedule, in schedule order, dated today or
      later; failing that, a copy of the next season's first race flagged as such, or None when
      the next season's schedule is empty or could not be fetched. */
  method GetNextRace(currentSeason: int, schedule: seq<ScheduleRace>, today: int,
                     nextSchedule: Fallible<seq<ScheduleRace>>) returns (r: Option<ScheduleRace>)
    ensures (exists i :: 0 <= i < |schedule| && schedule[i].date >= today) ==>
      exists i :: 0 <= i < |schedule| && r == Some(schedule[i]) && schedule[i].date >= today &&
                  forall j :: 0 <= j < i ==> schedule[j].date < today
    ensures (forall i :: 0 <= i < |schedule| ==> schedule[i].date < today) ==>
      r == if nextSchedule.Fetched? && nextSchedule.value != [] then
             Some(nextSchedule.value[0].(isNextSeason := true, season := IntToString(currentSeason + 1)))
           else None
  {
    var i := 0;
    while i < |schedule|
      invariant 0 <= i <= |schedule|
      invariant forall j :: 0 <= j < i ==> schedule[j].date < today
    {
      if schedule[i].date >= today {
        return Some(schedule[i]);
      }
      i := i + 1;
    }
    match nextSchedule
    case Raised(_) =>
      r := None;
    case Fetched(next) =>
      if next != [] {
        var firstRace := next[0];
        firstRace := firstRace.(isNextSeason := true);
        firstRace := firstRace.(season := IntToString(currentSeason + 1));
        r := Some(firstRace);
      } else {
        r := None;
      }
  }

  /** "Driver name" as the services format it. */
  function FullName(d: Driver): string
  {
    d.givenName + " " + d.familyName
  }

  /** The name of a standing's first constructor, if it has one. */
  function TeamName(s: DriverStanding): Option<string>
  {
    if s.constructors != [] then Some(s.constructors[0].name) else None
  }

  /** The first entry whose driver has the id `driverId` (`next(...)` over a list), if any. */
  function FindDriver<T>(entries: seq<T>, driverOf: T -> Driver, driverId: string): (r: Option<T>)
    ensures r.None? <==> forall i :: 0 <= i < |entries| ==> driverOf(entries[i]).driverId != driverId
    ensures r.Some? ==> exists i :: 0 <= i < |entries| && entries[i] == r.value &&
                          driverOf(r.value).driverId == driverId &&
                          forall j :: 0 <= j < i ==> driverOf(entries[j]).driverId != driverId
  {
    if entries == [] then None
    else if driverOf(entries[0]).driverId == driverId then Some(entries[0])
    else
      var r := FindDriver(entries[1..], driverOf, driverId);
      assert forall i :: 1 <= i < |entries| ==> entries[1..][i - 1] == entries[i];
      r
  }

  function StandingDriver(s: DriverStanding): Driver { s.driver }

  function ResultDriver(r: RaceResult): Driver { r.driver }

  /** The standing of `driverId`. */
  function FindStanding(standings: seq<DriverStanding>, driverId: string): Option<DriverStanding>
  {
    FindDriver(standings, StandingDriver, driverId)
  }

  /** The result of `driverId` in a race. */
  function FindResult(results: seq<RaceResult>, driverId: string): Option<RaceResult>
  {
    FindDriver(results, ResultDriver, driverId)
  }

  /** The results of a race as the services read them from a per-round fetch: none when the fetch
      raised (the services log and skip it), the race has not been run, or it has no results. */
  function FetchedResults(f: Fallible<Option<RaceData>>): Option<seq<RaceResult>>
  {
    if f.Fetched? && f.value.Some? && f.value.value.results.Some? then Some(f.value.value.results.value)
    else None
  }
}
