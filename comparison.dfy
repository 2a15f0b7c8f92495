/** Head-to-head comparison of two drivers over a season: the race-by-race list built by a loop
    over the schedule and the statistics computed from it. Per-round results are fetched by the
    parameter `fetch`, whose failure skips the round; points are whole units. */
module Comparison {
  import opened Wrappers
  import opened Jolpica

  /** One driver's side of a compared race. */
  datatype RaceLine = RaceLine(position: int, points: int, grid: int, status: string)

  datatype RaceComparison = RaceComparison(race: string, round: int, driver1: RaceLine, driver2: RaceLine,
                                           winner: string)

  /** `_calculate_h2h_stats`; the totals are absent (None) when nothing was compared. */
  datatype H2HStats = H2HStats(racesCompared: nat, driver1Wins: nat, driver2Wins: nat,
                               totalPointsDriver1: Option<int>, totalPointsDriver2: Option<int>,
                               pointsDifference: int)

  datatype DriverSummary = DriverSummary(id: string, info: Driver, team: Option<Constructor>,
                                         position: int, points: int, wins: int)

  datatype SeasonComparison = SeasonComparison(season: int, driver1: DriverSummary, driver2: DriverSummary,
                                               headToHead: H2HStats, raceByRace: seq<RaceComparison>)

  function Line(r: RaceResult): RaceLine
  {
    RaceLine(r.position, r.points, r.grid, r.status)
  }

  /** Driver 1 wins a race only when strictly ahead; a tie goes to driver 2. */
  function Winner(driver1Id: string, driver2Id: string, position1: int, position2: int): string
  {
    if position1 < position2 then driver1Id else driver2Id
  }

  /** The comparison of one scheduled race: present when results exist and both drivers have one. */
  function RaceEntry(race: ScheduleRace, fetch: int -> Fallible<Option<RaceData>>,
                     driver1Id: string, driver2Id: string): Option<RaceComparison>
  {
    var results := FetchedResults(fetch(race.round));
    if results.None? then None
    else
      var r1 := FindResult(results.value, driver1Id);
      var r2 := FindResult(results.value, driver2Id);
      if r1.Some? && r2.Some? then
        Some(RaceComparison(race.raceName, race.round, Line(r1.value), Line(r2.value),
                            Winner(driver1Id, driver2Id, r1.value.position, r2.value.position)))
      else None
  }

  /** The race-by-race list: the entries of the races compared, in schedule order. */
  function Comparisons(schedule: seq<ScheduleRace>, fetch: int -> Fallible<Option<RaceData>>,
                       driver1Id: string, driver2Id: string): seq<RaceComparison>
  {
    if schedule == [] then []
    else
      var e := RaceEntry(schedule[|schedule| - 1], fetch, driver1Id, driver2Id);
      Comparisons(schedule[..|schedule| - 1], fetch, driver1Id, driver2Id) + (if e.Some? then [e.value] else [])
  }

  /** A race is listed exactly when both drivers have a result in it. */
  lemma ComparisonsEntries(schedule: seq<ScheduleRace>, fetch: int -> Fallible<Option<RaceData>>,
                           driver1Id: string, driver2Id: string)
    ensures |Comparisons(schedule, fetch, driver1Id, driver2Id)| <= |schedule|
    ensures forall c :: c in Comparisons(schedule, fetch, driver1Id, driver2Id) <==>
              exists i :: 0 <= i < |schedule| && RaceEntry(schedule[i], fetch, driver1Id, driver2Id) == Some(c)
  {
    ComparisonsFromEntries(schedule, fetch, driver1Id, driver2Id);
    EntriesInComparisons(schedule, fetch, driver1Id, driver2Id);
  }

  lemma {:induction false} ComparisonsFromEntries(schedule: seq<ScheduleRace>, fetch: int -> Fallible<Option<RaceData>>,
                                                  driver1Id: string, driver2Id: string)
    ensures |Comparisons(schedule, fetch, driver1Id, driver2Id)| <= |schedule|
    ensures forall c :: c in Comparisons(schedule, fetch, driver1Id, driver2Id) ==>
              exists i :: 0 <= i < |schedule| && RaceEntry(schedule[i], fetch, driver1Id, driver2Id) == Some(c)
    decreases |schedule|
  {
    if schedule != [] {
      var init, n := schedule[..|schedule| - 1], |schedule| - 1;
      ComparisonsFromEntries(init, fetch, driver1Id, driver2Id);
      var before := Comparisons(init, fetch, driver1Id, driver2Id);
      forall c | c in Comparisons(schedule, fetch, driver1Id, driver2Id)
        ensures exists i :: 0 <= i < |schedule| && RaceEntry(schedule[i], fetch, driver1Id, driver2Id) == Some(c)
      {
        if c in before {
          var i :| 0 <= i < |init| && RaceEntry(init[i], fetch, driver1Id, driver2Id) == Some(c);
          assert schedule[i] == init[i];
        } else {
          assert RaceEntry(schedule[n], fetch, driver1Id, driver2Id) == Some(c);
        }
      }
    }
  }

  lemma {:induction false} EntriesInComparisons(schedule: seq<ScheduleRace>, fetch: int -> Fallible<Option<RaceData>>,
                                                driver1Id: string, driver2Id: string)
    ensures forall i :: 0 <= i < |schedule| && RaceEntry(schedule[i], fetch, driver1Id, driver2Id).Some? ==>
              RaceEntry(schedule[i], fetch, driver1Id, driver2Id).value in Comparisons(schedule, fetch, driver1Id, driver2Id)
    decreases |schedule|
  {
    if schedule != [] {
      var init, n := schedule[..|schedule| - 1], |schedule| - 1;
      EntriesInComparisons(init, fetch, driver1Id, driver2Id);
      forall i | 0 <= i < |schedule| && RaceEntry(schedule[i], fetch, driver1Id, driver2Id).Some?
        ensures RaceEntry(schedule[i], fetch, driver1Id, driver2Id).value in Comparisons(schedule, fetch, driver1Id, driver2Id)
      {
        var e := RaceEntry(schedule[i], fetch, driver1Id, driver2Id);
        if i < n {
          assert init[i] == schedule[i];
          assert e.value in Comparisons(init, fetch, driver1Id, driver2Id);
        } else {
          assert Comparisons(schedule, fetch, driver1Id, driver2Id) ==
                 Comparisons(init, fetch, driver1Id, driver2Id) + [e.value];
        }
      }
    }
  }

  /** A compared race is won by driver 1 exactly when driver 1 finished strictly ahead. */
  lemma RaceEntryWinner(race: ScheduleRace, fetch: int -> Fallible<Option<RaceData>>,
                        driver1Id: string, driver2Id: string)
    requires driver1Id != driver2Id
    requires RaceEntry(race, fetch, driver1Id, driver2Id).Some?
    ensures var c := RaceEntry(race, fetch, driver1Id, driver2Id).value;
            (c.winner == driver1Id <==> c.driver1.position < c.driver2.position) &&
            (c.winner == driver2Id <==> c.driver1.position >= c.driver2.position) &&
            c.race == race.raceName && c.round == race.round
  {
  }

  /** Every compared race has one of the two drivers as its winner. */
  lemma {:induction false} ComparisonsWinners(schedule: seq<ScheduleRace>, fetch: int -> Fallible<Option<RaceData>>,
                                              driver1Id: string, driver2Id: string)
    ensures forall c :: c in Comparisons(schedule, fetch, driver1Id, driver2Id) ==>
              c.winner == driver1Id || c.winner == driver2Id
  {
    ComparisonsEntries(schedule, fetch, driver1Id, driver2Id);
  }

  function Wins(comparisons: seq<RaceComparison>, driverId: string): (r: nat)
    ensures r <= |comparisons|
  {
    if comparisons == [] then 0
    else Wins(comparisons[..|comparisons| - 1], driverId) +
           (if comparisons[|comparisons| - 1].winner == driverId then 1 else 0)
  }

  function Points1(comparisons: seq<RaceComparison>): int
  {
    if comparisons == [] then 0
    else Points1(comparisons[..|comparisons| - 1]) + comparisons[|comparisons| - 1].driver1.points
  }

  function Points2(comparisons: seq<RaceComparison>): int
  {
    if comparisons == [] then 0
    else Points2(comparisons[..|comparisons| - 1]) + comparisons[|comparisons| - 1].driver2.points
  }

  /** The statistics of a list of compared races: zero counts and no totals for an empty list;
      otherwise the wins of each driver, both points totals and their difference. */
  function H2H(driver1Id: string, driver2Id: string, comparisons: seq<RaceComparison>): (r: H2HStats)
    ensures r.racesCompared == |comparisons|
    ensures comparisons == [] ==> r == H2HStats(0, 0, 0, None, None, 0)
    ensures comparisons != [] ==>
              r.totalPointsDriver1.Some? && r.totalPointsDriver2.Some? &&
              r.pointsDifference == r.totalPointsDriver1.value - r.totalPointsDriver2.value
    ensures r.driver1Wins <= r.racesCompared && r.driver2Wins <= r.racesCompared
  {
    if comparisons == [] then H2HStats(0, 0, 0, None, None, 0)
    else
      var total1 := Points1(comparisons);
      var total2 := Points2(comparisons);
      H2HStats(|comparisons|, Wins(comparisons, driver1Id), Wins(comparisons, driver2Id),
               Some(total1), Some(total2), total1 - total2)
  }

  /** With two distinct drivers each compared race is won by exactly one of them, so the wins add
      up to the number of races compared. */
  lemma {:induction false} WinsAddUp(comparisons: seq<RaceComparison>, driver1Id: string, driver2Id: string)
    requires driver1Id != driver2Id
    requires forall c :: c in comparisons ==> c.winner == driver1Id || c.winner == driver2Id
    ensures Wins(comparisons, driver1Id) + Wins(comparisons, driver2Id) == |comparisons|
    decreases |comparisons|
  {
    if comparisons != [] {
      var init := comparisons[..|comparisons| - 1];
      assert forall c :: c in init ==> c in comparisons;
      assert comparisons[|comparisons| - 1] in comparisons;
      WinsAddUp(init, driver1Id, driver2Id);
    }
  }

  /** The head-to-head of a season: driver 1's and driver 2's wins partition the compared races. */
  lemma SeasonWinsPartition(schedule: seq<ScheduleRace>, fetch: int -> Fallible<Option<RaceData>>,
                            driver1Id: string, driver2Id: string)
    requires driver1Id != driver2Id
    ensures var stats := H2H(driver1Id, driver2Id, Comparisons(schedule, fetch, driver1Id, driver2Id));
            stats.driver1Wins + stats.driver2Wins == stats.racesCompared
  {
    var comparisons := Comparisons(schedule, fetch, driver1Id, driver2Id);
    ComparisonsWinners(schedule, fetch, driver1Id, driver2Id);
    if comparisons != [] {
      WinsAddUp(comparisons, driver1Id, driver2Id);
    }
  }

  function Summary(id: string, s: DriverStanding): DriverSummary
  {
    DriverSummary(id, s.driver, if s.constructors != [] then Some(s.constructors[0]) else None,
                  s.position, s.points, s.wins)
  }

  /** `compare_drivers_season`: fails unless both drivers are in the standings; otherwise walks the
      schedule, keeps the races where both have a result, and summarises them. */
  method CompareDriversSeason(season: int, driver1Id: string, driver2Id: string,
                              standings: seq<DriverStanding>, schedule: seq<ScheduleRace>,
                              fetch: int -> Fallible<Option<RaceData>>)
    returns (r: Result<SeasonComparison, string>)
    ensures r.Err? <==> FindStanding(standings, driver1Id).None? || FindStanding(standings, driver2Id).None?
    ensures r.Err? ==> r.error == "One or both drivers not found in standings"
    ensures r.Ok? ==>
              r.value.season == season &&
              r.value.driver1 == Summary(driver1Id, FindStanding(standings, driver1Id).value) &&
              r.value.driver2 == Summary(driver2Id, FindStanding(standings, driver2Id).value) &&
              r.value.raceByRace == Comparisons(schedule, fetch, driver1Id, driver2Id) &&
              r.value.headToHead == H2H(driver1Id, driver2Id, r.value.raceByRace)
  {
    var driver1Data := FindStanding(standings, driver1Id);
    var driver2Data := FindStanding(standings, driver2Id);
    if driver1Data.None? || driver2Data.None? {
      return Err("One or both drivers not found in standings");
    }
    var raceComparisons: seq<RaceComparison> := [];
    for i := 0 to |schedule|
      invariant raceComparisons == Comparisons(schedule[..i], fetch, driver1Id, driver2Id)
    {
      var race := schedule[i];
      assert schedule[..i + 1][..i] == schedule[..i];
      var results := FetchedResults(fetch(race.round));
      if results.Some? {
        var driver1Result := FindResult(results.value, driver1Id);
        var driver2Result := FindResult(results.value, driver2Id);
        if driver1Result.Some? && driver2Result.Some? {
          var winner := if driver1Result.value.position < driver2Result.value.position then driver1Id
                        else driver2Id;
          raceComparisons := raceComparisons + [RaceComparison(race.raceName, race.round,
                                                               Line(driver1Result.value),
                                                               Line(driver2Result.value), winner)];
        }
      }
    }
    assert schedule[..|schedule|] == schedule;
    var stats := H2H(driver1Id, driver2Id, raceComparisons);
    r := Ok(SeasonComparison(season, Summary(driver1Id, driver1Data.value),
                             Summary(driver2Id, driver2Data.value), stats, raceComparisons));
  }
}
