/** Driver and team profiles: the season loops that count podiums and retirements, collect a
    team's races, and gather five seasons of career figures. Standings, the schedule and per-round
    results are parameters; a per-round or per-season fetch that raises is skipped, as the
    service logs and continues. Points are whole units. */
module Profile {
  import opened Wrappers
  import opened Text
  import opened Jolpica

  // ---------------------------------------------------------------------------------------------
  // Driver profile

  /** One race of a driver's season (the fastest-lap object is not modelled). */
  datatype ProfileRace = ProfileRace(race: string, round: int, position: int, grid: int, points: int,
                                     status: string)

  datatype SeasonStats = SeasonStats(season: int, position: int, points: int, wins: int,
                                     team: Option<Constructor>, podiums: nat, dnfs: nat, racesEntered: nat)

  datatype CareerSeason = CareerSeason(year: int, position: int, wins: int, points: int, team: Option<string>)

  datatype Career = Career(totalRaces: nat, totalWins: int, totalPodiums: nat, totalPoints: int,
                           championships: nat, seasons: seq<CareerSeason>)

  datatype DriverProfile = DriverProfile(driver: Driver, currentSeason: SeasonStats,
                                         raceResults: seq<ProfileRace>, career: Career)

  /** The driver's race of one scheduled round, when results exist and include the driver. */
  function DriverRace(race: ScheduleRace, fetch: int -> Fallible<Option<RaceData>>, driverId: string)
    : Option<ProfileRace>
  {
    var results := FetchedResults(fetch(race.round));
    if results.None? then None
    else
      var r := FindResult(results.value, driverId);
      if r.Some? then
        Some(ProfileRace(race.raceName, race.round, r.value.position, r.value.grid, r.value.points,
                         r.value.status))
      else None
  }

  /** The driver's races in schedule order. */
  function DriverRaces(schedule: seq<ScheduleRace>, fetch: int -> Fallible<Option<RaceData>>, driverId: string)
    : seq<ProfileRace>
  {
    if schedule == [] then []
    else
      var e := DriverRace(schedule[|schedule| - 1], fetch, driverId);
      DriverRaces(schedule[..|schedule| - 1], fetch, driverId) + (if e.Some? then [e.value] else [])
  }

  /** A podium is a finish in the top three. */
  predicate IsPodium(r: ProfileRace)
  {
    r.position <= 3
  }

  /** A retirement is any result whose status does not mention "Finished", lapped finishes
      included. */
  predicate IsDnf(r: ProfileRace)
  {
    !Contains(r.status, "Finished")
  }

  function Podiums(races: seq<ProfileRace>): (r: nat)
    ensures r <= |races|
  {
    if races == [] then 0 else Podiums(races[..|races| - 1]) + (if IsPodium(races[|races| - 1]) then 1 else 0)
  }

  function Dnfs(races: seq<ProfileRace>): (r: nat)
    ensures r <= |races|
  {
    if races == [] then 0 else Dnfs(races[..|races| - 1]) + (if IsDnf(races[|races| - 1]) then 1 else 0)
  }

  /** A race is listed exactly when the driver has a result in it. */
  lemma DriverRacesEntries(schedule: seq<ScheduleRace>, fetch: int -> Fallible<Option<RaceData>>, driverId: string)
    ensures |DriverRaces(schedule, fetch, driverId)| <= |schedule|
    ensures forall x :: x in DriverRaces(schedule, fetch, driverId) <==>
              exists i :: 0 <= i < |schedule| && DriverRace(schedule[i], fetch, driverId) == Some(x)
  {
    DriverRacesFromEntries(schedule, fetch, driverId);
    EntriesInDriverRaces(schedule, fetch, driverId);
  }

  lemma {:induction false} DriverRacesFromEntries(schedule: seq<ScheduleRace>,
                                                  fetch: int -> Fallible<Option<RaceData>>, driverId: string)
    ensures |DriverRaces(schedule, fetch, driverId)| <= |schedule|
    ensures forall x :: x in DriverRaces(schedule, fetch, driverId) ==>
              exists i :: 0 <= i < |schedule| && DriverRace(schedule[i], fetch, driverId) == Some(x)
    decreases |schedule|
  {
    if schedule != [] {
      var init, n := schedule[..|schedule| - 1], |schedule| - 1;
      DriverRacesFromEntries(init, fetch, driverId);
      forall x | x in DriverRaces(schedule, fetch, driverId)
        ensures exists i :: 0 <= i < |schedule| && DriverRace(schedule[i], fetch, driverId) == Some(x)
      {
        if x in DriverRaces(init, fetch, driverId) {
          var i :| 0 <= i < |init| && DriverRace(init[i], fetch, driverId) == Some(x);
          assert schedule[i] == init[i];
        } else {
          assert DriverRace(schedule[n], fetch, driverId) == Some(x);
        }
      }
    }
  }

  lemma {:induction false} EntriesInDriverRaces(schedule: seq<ScheduleRace>,
                                                fetch: int -> Fallible<Option<RaceData>>, driverId: string)
    ensures forall i :: 0 <= i < |schedule| && DriverRace(schedule[i], fetch, driverId).Some? ==>
              DriverRace(schedule[i], fetch, driverId).value in DriverRaces(schedule, fetch, driverId)
    decreases |schedule|
  {
    if schedule != [] {
      var init, n := schedule[..|schedule| - 1], |schedule| - 1;
      EntriesInDriverRaces(init, fetch, driverId);
      forall i | 0 <= i < |schedule| && DriverRace(schedule[i], fetch, driverId).Some?
        ensures DriverRace(schedule[i], fetch, driverId).value in DriverRaces(schedule, fetch, driverId)
      {
        var e := DriverRace(schedule[i], fetch, driverId);
        if i < n {
          assert init[i] == schedule[i];
          assert e.value in DriverRaces(init, fetch, driverId);
        } else {
          assert DriverRaces(schedule, fetch, driverId) == DriverRaces(init, fetch, driverId) + [e.value];
        }
      }
    }
  }

  /** A lapped finish counts as a retirement: "+1 Lap" does not contain "Finished". */
  lemma LappedCountsAsDnf(r: ProfileRace)
    requires r.status == "+1 Lap"
    ensures Dnfs([r]) == 1
  {
    if Contains(r.status, "Finished") {
      var i := ContainsWitness(r.status, "Finished");
      assert false;
    }
    assert [r][..0] == [];
  }

  /** The season loop of `get_driver_profile`: the driver's races with podiums and retirements
      counted as they are appended. */
  method CollectDriverRaces(schedule: seq<ScheduleRace>, fetch: int -> Fallible<Option<RaceData>>, driverId: string)
    returns (raceResults: seq<ProfileRace>, podiums: nat, dnfs: nat)
    ensures raceResults == DriverRaces(schedule, fetch, driverId)
    ensures podiums == Podiums(raceResults) && dnfs == Dnfs(raceResults)
  {
    raceResults := [];
    podiums, dnfs := 0, 0;
    for i := 0 to |schedule|
      invariant raceResults == DriverRaces(schedule[..i], fetch, driverId)
      invariant podiums == Podiums(raceResults) && dnfs == Dnfs(raceResults)
    {
      DriverRacesSnoc(schedule, fetch, driverId, i);
      var entry := FetchDriverRace(schedule[i], fetch, driverId);
      if entry.Some? {
        CountsSnoc(raceResults, entry.value);
        if entry.value.position <= 3 {
          podiums := podiums + 1;
        }
        if !Contains(entry.value.status, "Finished") {
          dnfs := dnfs + 1;
        }
        raceResults := raceResults + [entry.value];
      }
    }
    assert schedule[..|schedule|] == schedule;
  }

  /** The body of one iteration: the round's results and the driver's line in them. */
  method FetchDriverRace(race: ScheduleRace, fetch: int -> Fallible<Option<RaceData>>, driverId: string)
    returns (entry: Option<ProfileRace>)
    ensures entry == DriverRace(race, fetch, driverId)
  {
    var results := FetchedResults(fetch(race.round));
    if results.None? {
      return None;
    }
    var driverResult := FindResult(results.value, driverId);
    if driverResult.None? {
      return None;
    }
    entry := Some(ProfileRace(race.raceName, race.round, driverResult.value.position,
                              driverResult.value.grid, driverResult.value.points, driverResult.value.status));
  }

  lemma DriverRacesSnoc(schedule: seq<ScheduleRace>, fetch: int -> Fallible<Option<RaceData>>, driverId: string, i: nat)
    requires i < |schedule|
    ensures DriverRaces(schedule[..i + 1], fetch, driverId)
         == DriverRaces(schedule[..i], fetch, driverId) +
            (if DriverRace(schedule[i], fetch, driverId).Some? then [DriverRace(schedule[i], fetch, driverId).value] else [])
  {
    assert schedule[..i + 1][..i] == schedule[..i];
  }

  lemma CountsSnoc(races: seq<ProfileRace>, entry: ProfileRace)
    ensures Podiums(races + [entry]) == Podiums(races) + (if IsPodium(entry) then 1 else 0)
    ensures Dnfs(races + [entry]) == Dnfs(races) + (if IsDnf(entry) then 1 else 0)
  {
    assert (races + [entry])[..|races|] == races;
  }

  function CurrentSeason(season: int, s: DriverStanding, races: seq<ProfileRace>): SeasonStats
  {
    SeasonStats(season, s.position, s.points, s.wins, if s.constructors != [] then Some(s.constructors[0]) else None,
                Podiums(races), Dnfs(races), |races|)
  }

  /** `get_driver_profile`: fails for a driver absent from the standings; otherwise lists the
      driver's races and counts podiums and retirements among them. */
  method GetDriverProfile(driverId: string, season: int, standings: seq<DriverStanding>,
                          schedule: seq<ScheduleRace>, fetch: int -> Fallible<Option<RaceData>>,
                          standingsOf: int -> Fallible<seq<DriverStanding>>)
    returns (r: Result<DriverProfile, string>)
    ensures r.Err? <==> FindStanding(standings, driverId).None?
    ensures r.Err? ==> r.error == "Driver " + driverId + " not found in " + IntToString(season) + " season"
    ensures r.Ok? ==>
              var standing := FindStanding(standings, driverId).value;
              var races := DriverRaces(schedule, fetch, driverId);
              r.value.driver == standing.driver &&
              r.value.raceResults == races &&
              r.value.currentSeason == CurrentSeason(season, standing, races) &&
              r.value.currentSeason.podiums <= r.value.currentSeason.racesEntered &&
              r.value.currentSeason.dnfs <= r.value.currentSeason.racesEntered &&
              r.value.career == CareerOf(driverId, season, standingsOf)
  {
    var driverStanding := FindStanding(standings, driverId);
    if driverStanding.None? {
      return Err("Driver " + driverId + " not found in " + IntToString(season) + " season");
    }
    var raceResults, podiums, dnfs := CollectDriverRaces(schedule, fetch, driverId);
    var career := GetCareerStats(driverId, season, standingsOf);
    r := Ok(DriverProfile(driverStanding.value.driver, CurrentSeason(season, driverStanding.value, raceResults),
                          raceResults, career));
  }

  // ---------------------------------------------------------------------------------------------
  // Career over the last five seasons

  /** The seasons a career covers: current - 4 up to current, ascending. */
  function CareerYears(currentSeason: int): (r: seq<int>)
    ensures |r| == 5
    ensures forall i :: 0 <= i < 5 ==> r[i] == currentSeason - 4 + i
  {
    seq(5, i requires 0 <= i < 5 => currentSeason - 4 + i)
  }

  /** The driver's line of one season, when that season's standings were fetched and list them. */
  function SeasonEntry(driverId: string, year: int, standingsOf: int -> Fallible<seq<DriverStanding>>)
    : Option<CareerSeason>
  {
    var f := standingsOf(year);
    if f.Raised? then None
    else
      var s := FindStanding(f.value, driverId);
      if s.Some? then Some(CareerSeason(year, s.value.position, s.value.wins, s.value.points, TeamName(s.value)))
      else None
  }

  function Seasons(driverId: string, years: seq<int>, standingsOf: int -> Fallible<seq<DriverStanding>>)
    : seq<CareerSeason>
  {
    if years == [] then []
    else
      var e := SeasonEntry(driverId, years[|years| - 1], standingsOf);
      Seasons(driverId, years[..|years| - 1], standingsOf) + (if e.Some? then [e.value] else [])
  }

  function Championships(seasons: seq<CareerSeason>): (r: nat)
    ensures r <= |seasons|
  {
    if seasons == [] then 0
    else Championships(seasons[..|seasons| - 1]) + (if seasons[|seasons| - 1].position == 1 then 1 else 0)
  }

  function TotalWins(seasons: seq<CareerSeason>): int
  {
    if seasons == [] then 0 else TotalWins(seasons[..|seasons| - 1]) + seasons[|seasons| - 1].wins
  }

  function TotalPoints(seasons: seq<CareerSeason>): int
  {
    if seasons == [] then 0 else TotalPoints(seasons[..|seasons| - 1]) + seasons[|seasons| - 1].points
  }

  /** The career record: the seasons found and their totals; races and podiums are never
      accumulated and stay zero. */
  function CareerOf(driverId: string, currentSeason: int, standingsOf: int -> Fallible<seq<DriverStanding>>)
    : Career
  {
    var seasons := Seasons(driverId, CareerYears(currentSeason), standingsOf);
    Career(0, TotalWins(seasons), 0, TotalPoints(seasons), Championships(seasons), seasons)
  }

  /** `_get_career_stats`: one pass over the five seasons, adding up wins and points and counting
      titles (a standing position of 1). */
  method GetCareerStats(driverId: string, currentSeason: int, standingsOf: int -> Fallible<seq<DriverStanding>>)
    returns (career: Career)
    ensures career == CareerOf(driverId, currentSeason, standingsOf)
    ensures career.totalRaces == 0 && career.totalPodiums == 0
    ensures career.championships <= |career.seasons| <= 5
  {
    ghost var years := CareerYears(currentSeason);
    var totalWins, totalPoints, championships := 0, 0, 0;
    var seasons: seq<CareerSeason> := [];
    for k := 0 to 5
      invariant seasons == Seasons(driverId, years[..k], standingsOf)
      invariant CareerTallied(seasons, totalWins, totalPoints, championships)
    {
      var year := currentSeason - 4 + k;
      assert years[k] == year;
      SeasonsSnoc(driverId, years, k, standingsOf);
      var entry := FetchSeason(driverId, year, standingsOf);
      if entry.Some? {
        CareerCountsSnoc(seasons, entry.value);
        totalWins := totalWins + entry.value.wins;
        totalPoints := totalPoints + entry.value.points;
        if entry.value.position == 1 {
          championships := championships + 1;
        }
        seasons := seasons + [entry.value];
      }
    }
    assert years[..5] == years;
    career := Career(0, totalWins, 0, totalPoints, championships, seasons);
    CareerOfBounds(driverId, currentSeason, standingsOf);
  }

  /** The running totals of the career loop agree with the seasons collected so far. */
  ghost predicate CareerTallied(seasons: seq<CareerSeason>, totalWins: int, totalPoints: int, championships: int)
  {
    totalWins == TotalWins(seasons) && totalPoints == TotalPoints(seasons) && championships == Championships(seasons)
  }

  /** At most five seasons, and no more titles than seasons. */
  lemma CareerOfBounds(driverId: string, currentSeason: int, standingsOf: int -> Fallible<seq<DriverStanding>>)
    ensures var career := CareerOf(driverId, currentSeason, standingsOf);
            career.championships <= |career.seasons| <= 5
  {
    SeasonsWithin(driverId, CareerYears(currentSeason), standingsOf);
  }

  /** The body of one iteration: the season's standings and the driver's line in them. */
  method FetchSeason(driverId: string, year: int, standingsOf: int -> Fallible<seq<DriverStanding>>)
    returns (entry: Option<CareerSeason>)
    ensures entry == SeasonEntry(driverId, year, standingsOf)
  {
    var fetched := standingsOf(year);
    if fetched.Raised? {
      return None;
    }
    var driverStanding := FindStanding(fetched.value, driverId);
    if driverStanding.None? {
      return None;
    }
    var s := driverStanding.value;
    entry := Some(CareerSeason(year, s.position, s.wins, s.points, TeamName(s)));
  }

  lemma SeasonsSnoc(driverId: string, years: seq<int>, k: nat, standingsOf: int -> Fallible<seq<DriverStanding>>)
    requires k < |years|
    ensures Seasons(driverId, years[..k + 1], standingsOf)
         == Seasons(driverId, years[..k], standingsOf) +
            (if SeasonEntry(driverId, years[k], standingsOf).Some?
             then [SeasonEntry(driverId, years[k], standingsOf).value] else [])
  {
    assert years[..k + 1][..k] == years[..k];
  }

  lemma CareerCountsSnoc(seasons: seq<CareerSeason>, entry: CareerSeason)
    ensures TotalWins(seasons + [entry]) == TotalWins(seasons) + entry.wins
    ensures TotalPoints(seasons + [entry]) == TotalPoints(seasons) + entry.points
    ensures Championships(seasons + [entry]) == Championships(seasons) + (if entry.position == 1 then 1 else 0)
  {
    assert (seasons + [entry])[..|seasons|] == seasons;
  }

  /** Each season entry comes from one of the years asked for, in the order asked. */
  lemma {:induction false} SeasonsWithin(driverId: string, years: seq<int>, standingsOf: int -> Fallible<seq<DriverStanding>>)
    ensures |Seasons(driverId, years, standingsOf)| <= |years|
    ensures forall s :: s in Seasons(driverId, years, standingsOf) ==> s.year in years
    decreases |years|
  {
    if years != [] {
      SeasonsWithin(driverId, years[..|years| - 1], standingsOf);
      assert forall y :: y in years[..|years| - 1] ==> y in years;
    }
  }

  /** The career seasons lie between current - 4 and current, strictly ascending. */
  lemma CareerSeasonsAscending(driverId: string, currentSeason: int,
                               standingsOf: int -> Fallible<seq<DriverStanding>>)
    ensures var seasons := CareerOf(driverId, currentSeason, standingsOf).seasons;
            (forall i :: 0 <= i < |seasons| ==> currentSeason - 4 <= seasons[i].year <= currentSeason) &&
            (forall i, j :: 0 <= i < j < |seasons| ==> seasons[i].year < seasons[j].year)
  {
    var years := CareerYears(currentSeason);
    SeasonsAscending(driverId, years, standingsOf);
    forall y | y in years ensures currentSeason - 4 <= y <= currentSeason {
      var k :| 0 <= k < |years| && years[k] == y;
    }
  }

  lemma {:induction false} SeasonsAscending(driverId: string, years: seq<int>,
                                            standingsOf: int -> Fallible<seq<DriverStanding>>)
    requires forall i, j :: 0 <= i < j < |years| ==> years[i] < years[j]
    ensures forall i :: 0 <= i < |Seasons(driverId, years, standingsOf)| ==>
              Seasons(driverId, years, standingsOf)[i].year in years
    ensures forall i, j :: 0 <= i < j < |Seasons(driverId, years, standingsOf)| ==>
              Seasons(driverId, years, standingsOf)[i].year < Seasons(driverId, years, standingsOf)[j].year
    decreases |years|
  {
    if years != [] {
      var init, y := years[..|years| - 1], years[|years| - 1];
      SeasonsAscending(driverId, init, standingsOf);
      forall x | x in init ensures x < y && x in years {
        var k :| 0 <= k < |init| && init[k] == x;
        assert years[k] == x;
      }
    }
  }

  // ---------------------------------------------------------------------------------------------
  // Team profile

  datatype TeamDriver = TeamDriver(driver: Driver, position: int, points: int, wins: int)

  datatype TeamResult = TeamResult(driverCode: string, position: int, points: int, status: string)

  datatype TeamRace = TeamRace(race: string, round: int, results: seq<TeamResult>, totalPoints: int)

  datatype TeamProfile = TeamProfile(team: Constructor, season: int, position: int, points: int, wins: int,
                                     drivers: seq<TeamDriver>, raceResults: seq<TeamRace>)

  /** The standing of a constructor: the first line with that id, if any. */
  function FindConstructorStanding(standings: seq<ConstructorStanding>, constructorId: string)
    : (r: Option<ConstructorStanding>)
    ensures r.None? <==> forall i :: 0 <= i < |standings| ==> standings[i].team.constructorId != constructorId
    ensures r.Some? ==> exists i :: 0 <= i < |standings| && standings[i] == r.value &&
                          r.value.team.constructorId == constructorId &&
                          forall j :: 0 <= j < i ==> standings[j].team.constructorId != constructorId
  {
    if standings == [] then None
    else if standings[0].team.constructorId == constructorId then Some(standings[0])
    else
      var r := FindConstructorStanding(standings[1..], constructorId);
      assert forall i :: 1 <= i < |standings| ==> standings[1..][i - 1] == standings[i];
      r
  }

  /** A driver belongs to a team when the first constructor of their standing is that team. */
  predicate DrivesFor(s: DriverStanding, constructorId: string)
  {
    s.constructors != [] && s.constructors[0].constructorId == constructorId
  }

  function TeamDriverOf(s: DriverStanding): TeamDriver
  {
    TeamDriver(s.driver, s.position, s.points, s.wins)
  }

  /** `team_drivers`, a filtering comprehension over the driver standings. */
  function TeamDrivers(standings: seq<DriverStanding>, constructorId: string): seq<TeamDriver>
  {
    if standings == [] then []
    else
      var s := standings[|standings| - 1];
      TeamDrivers(standings[..|standings| - 1], constructorId) +
        (if DrivesFor(s, constructorId) then [TeamDriverOf(s)] else [])
  }

  /** The team's drivers are exactly the standings whose first constructor is the team. */
  lemma {:induction false} TeamDriversExact(standings: seq<DriverStanding>, constructorId: string)
    ensures forall d :: d in TeamDrivers(standings, constructorId) <==>
              exists i :: 0 <= i < |standings| && DrivesFor(standings[i], constructorId) &&
                          d == TeamDriverOf(standings[i])
    decreases |standings|
  {
    if standings != [] {
      var init := standings[..|standings| - 1];
      TeamDriversExact(init, constructorId);
      forall d ensures d in TeamDrivers(standings, constructorId) <==>
                       exists i :: 0 <= i < |standings| && DrivesFor(standings[i], constructorId) &&
                                   d == TeamDriverOf(standings[i])
      {
        if d in TeamDrivers(init, constructorId) {
          var i :| 0 <= i < |init| && DrivesFor(init[i], constructorId) && d == TeamDriverOf(init[i]);
          assert standings[i] == init[i];
        }
        if exists i :: 0 <= i < |standings| && DrivesFor(standings[i], constructorId) && d == TeamDriverOf(standings[i]) {
          var i :| 0 <= i < |standings| && DrivesFor(standings[i], constructorId) && d == TeamDriverOf(standings[i]);
          if i < |init| {
            assert init[i] == standings[i];
          }
        }
      }
    }
  }

  function TeamResultOf(r: RaceResult): TeamResult
  {
    TeamResult(r.driver.code, r.position, r.points, r.status)
  }

  /** `team_results`: the results of the team's cars, in classification order. */
  function TeamResults(results: seq<RaceResult>, constructorId: string): seq<TeamResult>
  {
    if results == [] then []
    else
      var r := results[|results| - 1];
      TeamResults(results[..|results| - 1], constructorId) +
        (if r.team.constructorId == constructorId then [TeamResultOf(r)] else [])
  }

  function ResultPoints(results: seq<TeamResult>): int
  {
    if results == [] then 0 else ResultPoints(results[..|results| - 1]) + results[|results| - 1].points
  }

  /** The team's entry for one round: present when results exist and include a team car. */
  function TeamRaceOf(race: ScheduleRace, fetch: int -> Fallible<Option<RaceData>>, constructorId: string)
    : Option<TeamRace>
  {
    var results := FetchedResults(fetch(race.round));
    if results.None? then None
    else
      var teamResults := TeamResults(results.value, constructorId);
      if teamResults != [] then Some(TeamRace(race.raceName, race.round, teamResults, ResultPoints(teamResults)))
      else None
  }

  function TeamRaces(schedule: seq<ScheduleRace>, fetch: int -> Fallible<Option<RaceData>>, constructorId: string)
    : seq<TeamRace>
  {
    if schedule == [] then []
    else
      var e := TeamRaceOf(schedule[|schedule| - 1], fetch, constructorId);
      TeamRaces(schedule[..|schedule| - 1], fetch, constructorId) + (if e.Some? then [e.value] else [])
  }

  /** Every listed race holds at least one result of the team, each of the team's cars, and the
      sum of their points. */
  lemma {:induction false} TeamRacesEntries(schedule: seq<ScheduleRace>, fetch: int -> Fallible<Option<RaceData>>,
                                            constructorId: string)
    ensures forall e :: e in TeamRaces(schedule, fetch, constructorId) ==>
              e.results != [] && e.totalPoints == ResultPoints(e.results) &&
              exists i :: 0 <= i < |schedule| && FetchedResults(fetch(schedule[i].round)).Some? &&
                          e.results == TeamResults(FetchedResults(fetch(schedule[i].round)).value, constructorId)
    decreases |schedule|
  {
    if schedule != [] {
      var init := schedule[..|schedule| - 1];
      TeamRacesEntries(init, fetch, constructorId);
      forall e | e in TeamRaces(init, fetch, constructorId)
        ensures exists i :: 0 <= i < |schedule| && FetchedResults(fetch(schedule[i].round)).Some? &&
                            e.results == TeamResults(FetchedResults(fetch(schedule[i].round)).value, constructorId)
      {
        var i :| 0 <= i < |init| && FetchedResults(fetch(init[i].round)).Some? &&
                 e.results == TeamResults(FetchedResults(fetch(init[i].round)).value, constructorId);
        assert schedule[i] == init[i];
      }
    }
  }

  /** A race's team results are exactly its results for the team's cars. */
  lemma {:induction false} TeamResultsExact(results: seq<RaceResult>, constructorId: string)
    ensures forall t :: t in TeamResults(results, constructorId) <==>
              exists i :: 0 <= i < |results| && results[i].team.constructorId == constructorId &&
                          t == TeamResultOf(results[i])
    decreases |results|
  {
    if results != [] {
      var init := results[..|results| - 1];
      TeamResultsExact(init, constructorId);
      forall t ensures t in TeamResults(results, constructorId) <==>
                       exists i :: 0 <= i < |results| && results[i].team.constructorId == constructorId &&
                                   t == TeamResultOf(results[i])
      {
        if t in TeamResults(init, constructorId) {
          var i :| 0 <= i < |init| && init[i].team.constructorId == constructorId && t == TeamResultOf(init[i]);
          assert results[i] == init[i];
        }
        if exists i :: 0 <= i < |results| && results[i].team.constructorId == constructorId && t == TeamResultOf(results[i]) {
          var i :| 0 <= i < |results| && results[i].team.constructorId == constructorId && t == TeamResultOf(results[i]);
          if i < |init| {
            assert init[i] == results[i];
          }
        }
      }
    }
  }

  /** `get_team_profile`: fails for a constructor absent from the standings; otherwise the team's
      drivers and the races in which the team has a result. */
  method GetTeamProfile(constructorId: string, season: int, standings: seq<ConstructorStanding>,
                        driverStandings: seq<DriverStanding>, schedule: seq<ScheduleRace>,
                        fetch: int -> Fallible<Option<RaceData>>)
    returns (r: Result<TeamProfile, string>)
    ensures r.Err? <==> FindConstructorStanding(standings, constructorId).None?
    ensures r.Err? ==> r.error == "Constructor " + constructorId + " not found in " + IntToString(season) + " season"
    ensures r.Ok? ==>
              var standing := FindConstructorStanding(standings, constructorId).value;
              r.value.team == standing.team && r.value.season == season &&
              r.value.position == standing.position && r.value.points == standing.points &&
              r.value.wins == standing.wins &&
              r.value.drivers == TeamDrivers(driverStandings, constructorId) &&
              r.value.raceResults == TeamRaces(schedule, fetch, constructorId)
  {
    var teamStanding := FindConstructorStanding(standings, constructorId);
    if teamStanding.None? {
      return Err("Constructor " + constructorId + " not found in " + IntToString(season) + " season");
    }
    var teamDrivers := TeamDrivers(driverStandings, constructorId);
    var raceResults: seq<TeamRace> := [];
    for i := 0 to |schedule|
      invariant raceResults == TeamRaces(schedule[..i], fetch, constructorId)
    {
      var race := schedule[i];
      assert schedule[..i + 1][..i] == schedule[..i];
      var results := FetchedResults(fetch(race.round));
      if results.Some? {
        var teamResults := TeamResults(results.value, constructorId);
        if teamResults != [] {
          raceResults := raceResults + [TeamRace(race.raceName, race.round, teamResults, ResultPoints(teamResults))];
        }
      }
    }
    assert schedule[..|schedule|] == schedule;
    var s := teamStanding.value;
    r := Ok(TeamProfile(s.team, season, s.position, s.points, s.wins, teamDrivers, raceResults));
  }
}
