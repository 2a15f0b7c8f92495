/** The race-weekend hub's derived data: the ordered list of sessions of a weekend, the weekend's
    status on a given day, and the pit stops reconstructed from consecutive stints. */
module RaceWeekend {
  import opened Wrappers
  import opened Sorting
  import opened Grouping
  import opened StintData
  import PitStopsChart

  // ---------------------------------------------------------------------------------------------
  // Sessions

  /** The date (a day number) and time of a session, each absent when its key is missing. */
  datatype SessionTime = SessionTime(date: Option<int>, time: Option<string>)

  /** The schedule entry of one race: the race's own date and time and the optional sessions. */
  datatype RaceInfo = RaceInfo(date: Option<int>, time: Option<string>,
                               firstPractice: Option<SessionTime>, secondPractice: Option<SessionTime>,
                               thirdPractice: Option<SessionTime>, qualifying: Option<SessionTime>,
                               sprint: Option<SessionTime>)

  datatype SessionKind = Race | Practice | QualifyingSession | SprintSession

  datatype Session = Session(kind: SessionKind, name: string, date: Option<int>, time: Option<string>)

  /** The optional sessions in the order they are listed, each with its kind and display name. */
  function OptionalSlots(info: RaceInfo): seq<(SessionKind, string, Option<SessionTime>)>
  {
    [(Practice, "Practice 1", info.firstPractice), (Practice, "Practice 2", info.secondPractice),
     (Practice, "Practice 3", info.thirdPractice), (QualifyingSession, "Qualifying", info.qualifying),
     (SprintSession, "Sprint", info.sprint)]
  }

  function SlotSession(slot: (SessionKind, string, Option<SessionTime>)): Session
    requires slot.2.Some?
  {
    Session(slot.0, slot.1, slot.2.value.date, slot.2.value.time)
  }

  /** The sessions of the present slots among slots, in slot order. */
  function Present(slots: seq<(SessionKind, string, Option<SessionTime>)>): (r: seq<Session>)
    ensures |r| <= |slots|
  {
    if slots == [] then []
    else
      var (kind, name, t) := slots[|slots| - 1];
      Present(slots[..|slots| - 1]) + (if t.Some? then [SlotSession(slots[|slots| - 1])] else [])
  }

  /** The race first, then every optional session whose key is present, in the fixed order. */
  ghost function ExpectedSessions(info: RaceInfo): seq<Session>
  {
    [Session(Race, "Race", info.date, info.time)] + Present(OptionalSlots(info))
  }

  /** Builds the session list by appending, one optional session at a time. */
  method SessionSchedule(info: RaceInfo) returns (sessions: seq<Session>)
    ensures sessions == ExpectedSessions(info)
  {
    sessions := [Session(Race, "Race", info.date, info.time)];
    var slots := OptionalSlots(info);
    var i := 0;
    while i < |slots|
      invariant 0 <= i <= |slots|
      invariant sessions == [Session(Race, "Race", info.date, info.time)] + Present(slots[..i])
    {
      var (kind, name, t) := slots[i];
      assert slots[..i + 1][..i] == slots[..i];
      if t.Some? {
        sessions := sessions + [Session(kind, name, t.value.date, t.value.time)];
        assert Session(kind, name, t.value.date, t.value.time) == SlotSession(slots[i]);
      }
      i := i + 1;
    }
    assert slots[..|slots|] == slots;
  }

  lemma {:induction false} PresentMembers(slots: seq<(SessionKind, string, Option<SessionTime>)>, s: Session)
    ensures s in Present(slots) <==>
            exists j :: 0 <= j < |slots| && slots[j].2.Some? &&
                        s == SlotSession(slots[j])
    decreases |slots|
  {
    if slots != [] {
      var init := slots[..|slots| - 1];
      PresentMembers(init, s);
      if s in Present(init) {
        var j :| 0 <= j < |init| && init[j].2.Some? && s == SlotSession(init[j]);
        assert slots[j] == init[j];
      }
      if exists j :: 0 <= j < |slots| && slots[j].2.Some? && s == SlotSession(slots[j]) {
        var j :| 0 <= j < |slots| && slots[j].2.Some? && s == SlotSession(slots[j]);
        if j < |init| {
          assert init[j] == slots[j];
        }
      }
    }
  }

  /** The list starts with the race (carrying the race's date and time), has between one and six
      entries, and lists an optional session exactly when its key is present. */
  lemma SessionScheduleShape(info: RaceInfo)
    ensures var r := ExpectedSessions(info);
            1 <= |r| <= 6 && r[0] == Session(Race, "Race", info.date, info.time)
  {
  }

  /** The entries after the race are exactly the sessions of the present optional keys. */
  lemma SessionsListed(info: RaceInfo, s: Session)
    ensures s in ExpectedSessions(info)[1..] <==>
            exists j :: 0 <= j < 5 && OptionalSlots(info)[j].2.Some? &&
                        s == SlotSession(OptionalSlots(info)[j])
  {
    var slots := OptionalSlots(info);
    assert ExpectedSessions(info)[1..] == Present(slots);
    PresentMembers(slots, s);
  }

  // ---------------------------------------------------------------------------------------------
  // Weekend status

  datatype Status = Upcoming | InProgress | Completed

  function Rank(s: Status): nat
  {
    match s
    case Upcoming => 0
    case InProgress => 1
    case Completed => 2
  }

  /** The status on day `today`: before first practice (or before the race when there is none)
      upcoming, from the race day on completed, in between in progress. A missing date, which
      the source cannot parse, is an error. */
  function WeekendStatus(info: RaceInfo, today: int): (r: Result<Status, string>)
    ensures r.Err? <==> info.date.None? || (info.firstPractice.Some? && info.firstPractice.value.date.None?)
    ensures r.Ok? && info.firstPractice.None? ==> (r.value == Upcoming <==> today < info.date.value)
    ensures r.Ok? && info.firstPractice.None? ==> r.value != InProgress
  {
    if info.date.None? then Err("race date missing")
    else if info.firstPractice.Some? then
      if info.firstPractice.value.date.None? then Err("first practice date missing")
      else if today < info.firstPractice.value.date.value then Ok(Upcoming)
      else if today >= info.date.value then Ok(Completed)
      else Ok(InProgress)
    else if today < info.date.value then Ok(Upcoming)
    else Ok(Completed)
  }

  /** With a first practice: upcoming exactly before it, completed exactly from the race day on
      once practice has begun, in progress otherwise. */
  lemma WeekendStatusWithPractice(info: RaceInfo, today: int)
    requires info.date.Some? && info.firstPractice.Some? && info.firstPractice.value.date.Some?
    ensures var fp1, race := info.firstPractice.value.date.value, info.date.value;
            var r := WeekendStatus(info, today);
            r.Ok? &&
            (r.value == Upcoming <==> today < fp1) &&
            (r.value == Completed <==> fp1 <= today && race <= today) &&
            (r.value == InProgress <==> fp1 <= today < race)
  {
  }

  /** Time only moves a weekend forward: the status never goes back as the day advances. */
  lemma WeekendStatusMonotone(info: RaceInfo, day1: int, day2: int)
    requires day1 <= day2 && WeekendStatus(info, day1).Ok?
    ensures WeekendStatus(info, day2).Ok?
    ensures Rank(WeekendStatus(info, day1).value) <= Rank(WeekendStatus(info, day2).value)
  {
  }

  // ---------------------------------------------------------------------------------------------
  // Pit stops from consecutive stints

  datatype PitStop = PitStop(driver: string, stopNumber: nat, lap: int,
                             fromCompound: Option<string>, toCompound: Option<string>, stintLength: int)

  datatype PitStops = PitStops(totalStops: nat, stops: seq<PitStop>)

  /** The stop made before stint i of a driver's sorted stints. */
  function StopBefore(driver: string, sorted: seq<Stint>, i: nat): PitStop
    requires 0 < i < |sorted|
  {
    PitStop(driver, i, sorted[i].startLap, sorted[i - 1].compound, sorted[i].compound, sorted[i - 1].numLaps)
  }

  /** The stops of one driver: one before every stint but the first. */
  function DriverStops(driver: string, sorted: seq<Stint>): (r: seq<PitStop>)
    ensures |r| == if sorted == [] then 0 else |sorted| - 1
    ensures forall j :: 0 <= j < |r| ==> r[j] == StopBefore(driver, sorted, j + 1)
  {
    if |sorted| <= 1 then []
    else
      var init := sorted[..|sorted| - 1];
      assert forall j :: 0 < j < |init| ==> StopBefore(driver, init, j) == StopBefore(driver, sorted, j);
      DriverStops(driver, init) + [StopBefore(driver, sorted, |sorted| - 1)]
  }

  /** The stops of the drivers ks, driver after driver. */
  function StopsOf(stints: seq<Stint>, ks: seq<string>): seq<PitStop>
  {
    if ks == [] then []
    else
      var d := ks[|ks| - 1];
      StopsOf(stints, ks[..|ks| - 1]) + DriverStops(d, SortBy(Group(stints, DriverOf, d), StintNumber))
  }

  /** The inner loop: walks one driver's sorted stints and appends a stop before each one but
      the first. */
  method AppendDriverStops(stops: seq<PitStop>, driver: string, sorted: seq<Stint>)
    returns (r: seq<PitStop>)
    ensures r == stops + DriverStops(driver, sorted)
  {
    r := stops;
    var i := 0;
    while i < |sorted|
      invariant 0 <= i <= |sorted|
      invariant r == stops + DriverStops(driver, sorted[..i])
    {
      if i > 0 {
        assert sorted[..i + 1][..i] == sorted[..i];
        r := r + [PitStop(driver, i, sorted[i].startLap, sorted[i - 1].compound,
                          sorted[i].compound, sorted[i - 1].numLaps)];
      }
      i := i + 1;
    }
    assert sorted[..|sorted|] == sorted;
  }

  /** Groups the stints by driver, sorts each driver's stints by stint number (a stable sort) and
      emits one stop per transition between consecutive stints. */
  method ProcessPitStops(stints: seq<Stint>) returns (r: PitStops)
    ensures r.stops == StopsOf(stints, Keys(stints, DriverOf))
    ensures r.totalStops == |r.stops|
  {
    var groups, order := GroupInto(stints, DriverOf);
    var stops: seq<PitStop> := [];
    var k := 0;
    while k < |order|
      invariant 0 <= k <= |order|
      invariant stops == StopsOf(stints, order[..k])
    {
      var driver := order[k];
      stops := AppendDriverStops(stops, driver, SortBy(groups[driver], StintNumber));
      assert order[..k + 1][..k] == order[..k];
      k := k + 1;
    }
    assert order[..|order|] == order;
    r := PitStops(|stops|, stops);
  }

  /** Each driver with k stints contributes k − 1 stops, so the backend's stop count equals the
      chart's "Total Pit Stops" for the same stints. */
  lemma {:induction false} StopsCount(stints: seq<Stint>, n: nat)
    requires n <= |Keys(stints, DriverOf)|
    ensures |StopsOf(stints, Keys(stints, DriverOf)[..n])|
         == PitStopsChart.StopsOver(stints, Keys(stints, DriverOf)[..n])
    decreases n
  {
    if n > 0 {
      var ks := Keys(stints, DriverOf);
      assert ks[..n][..n - 1] == ks[..n - 1];
      StopsCount(stints, n - 1);
      var d := ks[n - 1];
      GroupEmpty(stints, DriverOf, d);
      SortByCorrect(Group(stints, DriverOf, d), StintNumber);
    }
  }

  lemma TotalStopsMatchesChart(stints: seq<Stint>)
    ensures |StopsOf(stints, Keys(stints, DriverOf))| == PitStopsChart.TotalPitStops(stints)
    ensures |StopsOf(stints, Keys(stints, DriverOf))| == |stints| - |Keys(stints, DriverOf)|
  {
    var ks := Keys(stints, DriverOf);
    StopsCount(stints, |ks|);
    assert ks[..|ks|] == ks;
  }

  /** Stop i of a driver is made on the first lap of the driver's (i+1)-th stint in stint order,
      from the compound of the stint before, whose length it reports. */
  lemma DriverStopFields(driver: string, group: seq<Stint>, j: nat)
    requires j + 1 < |group|
    ensures |SortBy(group, StintNumber)| == |group|
    ensures var sorted := SortBy(group, StintNumber);
            |sorted| == |group| &&
            var stop := DriverStops(driver, sorted)[j];
            stop.driver == driver && stop.stopNumber == j + 1 &&
            stop.lap == sorted[j + 1].startLap && stop.toCompound == sorted[j + 1].compound &&
            stop.fromCompound == sorted[j].compound && stop.stintLength == sorted[j].numLaps &&
            sorted[j].stint <= sorted[j + 1].stint
  {
    SortByCorrect(group, StintNumber);
  }
}
