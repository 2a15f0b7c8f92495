/** Dashboard widgets: the dispatch from a widget id to the data behind it, with the standings
    truncation, the favourite-preference checks, the choice of the last completed race and the
    conversion of any raised error into an error response. Every collaborator (the Jolpica
    getters, the profile service, the lap timing service) is a `Fallible` field of `Sources`;
    `today` is a day number. */
module Widgets {
  import opened Wrappers
  import opened Jolpica
  import Profile
  import LapData

  /** The user's preferences; a missing key is None. */
  datatype Preferences = Preferences(favoriteDriver: Option<string>, favoriteTeam: Option<string>)

  /** What the widgets fetch. */
  datatype Sources = Sources(
    nextRace: Fallible<Option<ScheduleRace>>,
    driverStandings: Fallible<seq<DriverStanding>>,
    constructorStandings: Fallible<seq<ConstructorStanding>>,
    schedule: Fallible<seq<ScheduleRace>>,
    driverProfile: string -> Fallible<Profile.DriverProfile>,
    teamProfile: string -> Fallible<Profile.TeamProfile>,
    raceResults: int -> Fallible<Option<RaceData>>,
    fastestLap: int -> Fallible<LapData.Lap>)

  datatype WidgetData =
    | NextRaceData(nextRace: Option<ScheduleRace>)
    | DriverStandingsData(driverStandings: seq<DriverStanding>, total: nat)
    | ConstructorStandingsData(constructorStandings: seq<ConstructorStanding>, total: nat)
    | DriverProfileData(driverProfile: Profile.DriverProfile)
    | TeamProfileData(teamProfile: Profile.TeamProfile)
    | CalendarData(races: seq<ScheduleRace>, total: nat)
    | RaceResultsData(results: Option<RaceData>)
    | FastestLapData(race: string, fastestLap: LapData.Lap)
    | LeaderData(leader: DriverStanding)

  /** A widget payload with its optional `message` and `error` keys, or the bare `{"error": ...}`
      of an unknown widget or a raised error. */
  datatype Response =
    | Widget(widgetId: string, data: Option<WidgetData>, message: Option<string>, error: Option<string>)
    | Error(reason: string)

  /** The ids `get_available_widgets` advertises, in its order. */
  const AvailableWidgetIds: seq<string> := ["next_race", "driver_standings", "constructor_standings",
    "favorite_driver", "favorite_team", "race_calendar", "last_race_results", "fastest_lap",
    "championship_leader", "recent_predictions"]

  /** The ids `get_widget_data` has a branch for. */
  const HandledWidgetIds: set<string> := {"next_race", "driver_standings", "constructor_standings",
    "favorite_driver", "favorite_team", "race_calendar", "last_race_results", "fastest_lap",
    "championship_leader"}

  const StandingsLimit: nat := 10

  // ---------------------------------------------------------------------------------------------
  // The last completed race

  /** The last race of the schedule dated strictly before today. */
  function LastBefore(schedule: seq<ScheduleRace>, today: int): (r: Option<ScheduleRace>)
    ensures r.Some? ==> r.value.date < today
  {
    if schedule == [] then None
    else if schedule[|schedule| - 1].date < today then Some(schedule[|schedule| - 1])
    else LastBefore(schedule[..|schedule| - 1], today)
  }

  /** None exactly when no race is dated before today; otherwise a race of the schedule dated
      before today with every later race dated today or after. */
  lemma {:induction false} LastBeforeExact(schedule: seq<ScheduleRace>, today: int)
    ensures LastBefore(schedule, today).None? <==> forall i :: 0 <= i < |schedule| ==> schedule[i].date >= today
    ensures LastBefore(schedule, today).Some? ==>
              exists i :: 0 <= i < |schedule| && schedule[i] == LastBefore(schedule, today).value &&
                          forall j :: i < j < |schedule| ==> schedule[j].date >= today
    decreases |schedule|
  {
    if schedule != [] {
      var n := |schedule| - 1;
      var init := schedule[..n];
      if schedule[n].date >= today {
        LastBeforeExact(init, today);
        var last := LastBefore(init, today);
        if last.Some? {
          var i :| 0 <= i < |init| && init[i] == last.value && forall j :: i < j < |init| ==> init[j].date >= today;
          assert schedule[i] == init[i];
          forall j | i < j < |schedule| ensures schedule[j].date >= today {
            if j < n {
              assert schedule[j] == init[j];
            }
          }
        } else {
          forall i | 0 <= i < |schedule| ensures schedule[i].date >= today {
            if i < n {
              assert schedule[i] == init[i];
            }
          }
        }
      }
    }
  }

  /** The scan both race widgets run: every earlier-dated race replaces the previous pick. */
  method LastCompletedRace(schedule: seq<ScheduleRace>, today: int) returns (lastRace: Option<ScheduleRace>)
    ensures lastRace == LastBefore(schedule, today)
  {
    lastRace := None;
    for i := 0 to |schedule|
      invariant lastRace == LastBefore(schedule[..i], today)
    {
      assert schedule[..i + 1][..i] == schedule[..i];
      if schedule[i].date < today {
        lastRace := Some(schedule[i]);
      }
    }
    assert schedule[..|schedule|] == schedule;
  }

  // ---------------------------------------------------------------------------------------------
  // The widgets; Raised is an error the widget lets escape to the dispatcher

  function NextRaceWidget(src: Sources): Fallible<Response>
  {
    match src.nextRace
    case Raised(m) => Raised(m)
    case Fetched(n) => Fetched(Widget("next_race", Some(NextRaceData(n)), None, None))
  }

  function Truncated<T>(s: seq<T>): (r: seq<T>)
    ensures |r| == if |s| < StandingsLimit then |s| else StandingsLimit
    ensures r <= s
  {
    s[..if |s| < StandingsLimit then |s| else StandingsLimit]
  }

  function DriverStandingsWidget(src: Sources): Fallible<Response>
  {
    match src.driverStandings
    case Raised(m) => Raised(m)
    case Fetched(s) => Fetched(Widget("driver_standings", Some(DriverStandingsData(Truncated(s), |s|)), None, None))
  }

  function ConstructorStandingsWidget(src: Sources): Fallible<Response>
  {
    match src.constructorStandings
    case Raised(m) => Raised(m)
    case Fetched(s) =>
      Fetched(Widget("constructor_standings", Some(ConstructorStandingsData(Truncated(s), |s|)), None, None))
  }

  /** Python truthiness of an optional preference. */
  predicate IsSet(pref: Option<string>)
  {
    pref.Some? && pref.value != ""
  }

  function FavoriteDriverWidget(prefs: Preferences, src: Sources): Fallible<Response>
  {
    if !IsSet(prefs.favoriteDriver) then
      Fetched(Widget("favorite_driver", None, Some("No favorite driver set"), None))
    else
      match src.driverProfile(prefs.favoriteDriver.value)
      case Raised(m) => Fetched(Widget("favorite_driver", None, None, Some(m)))
      case Fetched(p) => Fetched(Widget("favorite_driver", Some(DriverProfileData(p)), None, None))
  }

  function FavoriteTeamWidget(prefs: Preferences, src: Sources): Fallible<Response>
  {
    if !IsSet(prefs.favoriteTeam) then
      Fetched(Widget("favorite_team", None, Some("No favorite team set"), None))
    else
      match src.teamProfile(prefs.favoriteTeam.value)
      case Raised(m) => Fetched(Widget("favorite_team", None, None, Some(m)))
      case Fetched(p) => Fetched(Widget("favorite_team", Some(TeamProfileData(p)), None, None))
  }

  function CalendarWidget(src: Sources): Fallible<Response>
  {
    match src.schedule
    case Raised(m) => Raised(m)
    case Fetched(s) => Fetched(Widget("race_calendar", Some(CalendarData(s, |s|)), None, None))
  }

  function LastRaceResultsWidget(src: Sources, today: int): Fallible<Response>
  {
    match src.schedule
    case Raised(m) => Raised(m)
    case Fetched(s) =>
      var last := LastBefore(s, today);
      if last.None? then Fetched(Widget("last_race_results", None, Some("No completed races yet"), None))
      else
        match src.raceResults(last.value.round)
        case Raised(m) => Fetched(Widget("last_race_results", None, None, Some(m)))
        case Fetched(results) => Fetched(Widget("last_race_results", Some(RaceResultsData(results)), None, None))
  }

  function FastestLapWidget(src: Sources, today: int): Fallible<Response>
  {
    match src.schedule
    case Raised(m) => Raised(m)
    case Fetched(s) =>
      var last := LastBefore(s, today);
      if last.None? then Fetched(Widget("fastest_lap", None, Some("No completed races yet"), None))
      else
        match src.fastestLap(last.value.round)
        case Raised(m) => Fetched(Widget("fastest_lap", None, None, Some(m)))
        case Fetched(lap) =>
          Fetched(Widget("fastest_lap", Some(FastestLapData(last.value.raceName, lap)), None, None))
  }

  function LeaderWidget(src: Sources): Fallible<Response>
  {
    match src.driverStandings
    case Raised(m) => Raised(m)
    case Fetched(s) =>
      if s == [] then Fetched(Widget("championship_leader", None, Some("No standings available"), None))
      else Fetched(Widget("championship_leader", Some(LeaderData(s[0])), None, None))
  }

  /** The widget a dispatch runs, before errors are caught. */
  function Dispatched(widgetId: string, prefs: Preferences, src: Sources, today: int): Fallible<Response>
  {
    if widgetId == "next_race" then NextRaceWidget(src)
    else if widgetId == "driver_standings" then DriverStandingsWidget(src)
    else if widgetId == "constructor_standings" then ConstructorStandingsWidget(src)
    else if widgetId == "favorite_driver" then FavoriteDriverWidget(prefs, src)
    else if widgetId == "favorite_team" then FavoriteTeamWidget(prefs, src)
    else if widgetId == "race_calendar" then CalendarWidget(src)
    else if widgetId == "last_race_results" then LastRaceResultsWidget(src, today)
    else if widgetId == "fastest_lap" then FastestLapWidget(src, today)
    else if widgetId == "championship_leader" then LeaderWidget(src)
    else Fetched(Error("Widget not found"))
  }

  /** The `except` of `get_widget_data`: a raised error becomes an error response. */
  function Caught(f: Fallible<Response>): Response
  {
    match f
    case Raised(m) => Error(m)
    case Fetched(r) => r
  }

  // ---------------------------------------------------------------------------------------------
  // The dispatcher

  /** The two race widgets as the service runs them, with the scan for the last completed race. */
  method RaceWidget(widgetId: string, src: Sources, today: int) returns (r: Fallible<Response>)
    requires widgetId == "last_race_results" || widgetId == "fastest_lap"
    ensures widgetId == "last_race_results" ==> r == LastRaceResultsWidget(src, today)
    ensures widgetId == "fastest_lap" ==> r == FastestLapWidget(src, today)
  {
    if src.schedule.Raised? {
      return Raised(src.schedule.message);
    }
    var lastRace := LastCompletedRace(src.schedule.value, today);
    if lastRace.None? {
      return Fetched(Widget(widgetId, None, Some("No completed races yet"), None));
    }
    if widgetId == "last_race_results" {
      var results := src.raceResults(lastRace.value.round);
      r := if results.Raised? then Fetched(Widget(widgetId, None, None, Some(results.message)))
           else Fetched(Widget(widgetId, Some(RaceResultsData(results.value)), None, None));
    } else {
      var fastest := src.fastestLap(lastRace.value.round);
      r := if fastest.Raised? then Fetched(Widget(widgetId, None, None, Some(fastest.message)))
           else Fetched(Widget(widgetId, Some(FastestLapData(lastRace.value.raceName, fastest.value)), None, None));
    }
  }

  /** `get_widget_data`: runs the widget's branch and turns anything it raises into an error
      response; an id without a branch is "Widget not found". */
  method GetWidgetData(widgetId: string, prefs: Preferences, src: Sources, today: int) returns (r: Response)
    ensures r == Caught(Dispatched(widgetId, prefs, src, today))
  {
    var outcome: Fallible<Response>;
    if widgetId == "last_race_results" || widgetId == "fastest_lap" {
      outcome := RaceWidget(widgetId, src, today);
    } else {
      outcome := Dispatched(widgetId, prefs, src, today);
    }
    r := match outcome
         case Raised(m) => Error(m)
         case Fetched(x) => x;
  }

  // ---------------------------------------------------------------------------------------------
  // What the dispatch promises

  /** An id without a branch yields the not-found error; "recent_predictions" is advertised yet
      has no branch, and it is the only advertised id without one. */
  lemma UnknownWidget(widgetId: string, prefs: Preferences, src: Sources, today: int)
    ensures widgetId !in HandledWidgetIds ==> Caught(Dispatched(widgetId, prefs, src, today)) == Error("Widget not found")
    ensures "recent_predictions" in AvailableWidgetIds && "recent_predictions" !in HandledWidgetIds
    ensures forall i :: 0 <= i < |AvailableWidgetIds| && AvailableWidgetIds[i] != "recent_predictions" ==>
              AvailableWidgetIds[i] in HandledWidgetIds
  {
  }

  /** A handled widget answers with its own id, or with the error a collaborator raised. */
  lemma HandledWidget(widgetId: string, prefs: Preferences, src: Sources, today: int)
    requires widgetId in HandledWidgetIds
    ensures Dispatched(widgetId, prefs, src, today).Fetched? ==>
              Dispatched(widgetId, prefs, src, today).value.Widget? &&
              Dispatched(widgetId, prefs, src, today).value.widgetId == widgetId
    ensures Dispatched(widgetId, prefs, src, today).Raised? ==>
              Caught(Dispatched(widgetId, prefs, src, today)) == Error(Dispatched(widgetId, prefs, src, today).message)
  {
  }

  /** Whatever a widget's fetch raises comes back as an error response carrying its message. */
  lemma RaisedBecomesError(widgetId: string, prefs: Preferences, src: Sources, today: int)
    requires src.driverStandings.Raised?
    requires widgetId == "driver_standings" || widgetId == "championship_leader"
    ensures Caught(Dispatched(widgetId, prefs, src, today)) == Error(src.driverStandings.message)
  {
  }

  /** The standings widgets show the first min(10, n) entries and report n as the total. */
  lemma StandingsTruncated(prefs: Preferences, src: Sources, today: int)
    requires src.driverStandings.Fetched?
    ensures var r := Caught(Dispatched("driver_standings", prefs, src, today));
            var s := src.driverStandings.value;
            r.Widget? && r.data.Some? && r.data.value.DriverStandingsData? &&
            r.data.value.total == |s| &&
            |r.data.value.driverStandings| == (if |s| < 10 then |s| else 10) &&
            forall i :: 0 <= i < |r.data.value.driverStandings| ==> r.data.value.driverStandings[i] == s[i]
  {
  }

  lemma ConstructorStandingsTruncated(prefs: Preferences, src: Sources, today: int)
    requires src.constructorStandings.Fetched?
    ensures var r := Caught(Dispatched("constructor_standings", prefs, src, today));
            var s := src.constructorStandings.value;
            r.Widget? && r.data.Some? && r.data.value.ConstructorStandingsData? &&
            r.data.value.total == |s| &&
            |r.data.value.constructorStandings| == (if |s| < 10 then |s| else 10) &&
            forall i :: 0 <= i < |r.data.value.constructorStandings| ==> r.data.value.constructorStandings[i] == s[i]
  {
  }

  /** A missing or empty favourite gives no data and a message, without asking the profile
      service; a set one gives the profile, or the profile service's error. */
  lemma FavoriteDriverPreference(prefs: Preferences, src: Sources, today: int)
    ensures var r := Caught(Dispatched("favorite_driver", prefs, src, today));
            r.Widget? && r.widgetId == "favorite_driver" &&
            (!IsSet(prefs.favoriteDriver) <==> r.message == Some("No favorite driver set")) &&
            (r.data.Some? <==> IsSet(prefs.favoriteDriver) && src.driverProfile(prefs.favoriteDriver.value).Fetched?)
  {
  }

  lemma FavoriteTeamPreference(prefs: Preferences, src: Sources, today: int)
    ensures var r := Caught(Dispatched("favorite_team", prefs, src, today));
            r.Widget? && r.widgetId == "favorite_team" &&
            (!IsSet(prefs.favoriteTeam) <==> r.message == Some("No favorite team set")) &&
            (r.data.Some? <==> IsSet(prefs.favoriteTeam) && src.teamProfile(prefs.favoriteTeam.value).Fetched?)
  {
  }

  /** With no race dated before today both race widgets say so; otherwise they show the last
      such race. */
  lemma LastRaceChoice(src: Sources, today: int, prefs: Preferences)
    requires src.schedule.Fetched?
    ensures var s := src.schedule.value;
            var r := Caught(Dispatched("last_race_results", prefs, src, today));
            ((forall i :: 0 <= i < |s| ==> s[i].date >= today) <==> r.Widget? && r.message == Some("No completed races yet")) &&
            (r.Widget? && r.data.Some? ==>
               exists i :: 0 <= i < |s| && s[i].date < today && src.raceResults(s[i].round).Fetched? &&
                           r.data.value == RaceResultsData(src.raceResults(s[i].round).value) &&
                           forall j :: i < j < |s| ==> s[j].date >= today)
  {
    var s := src.schedule.value;
    var last := LastBefore(s, today);
    LastBeforeExact(s, today);
    if last.Some? {
      var i :| 0 <= i < |s| && s[i] == last.value && last.value.date < today &&
               forall j :: i < j < |s| ==> s[j].date >= today;
    }
  }

  /** The leader widget shows the first standing, or no data with a message when the table is
      empty. */
  lemma LeaderShown(src: Sources, today: int, prefs: Preferences)
    requires src.driverStandings.Fetched?
    ensures var s := src.driverStandings.value;
            var r := Caught(Dispatched("championship_leader", prefs, src, today));
            r.Widget? &&
            (s == [] <==> r.data.None?) &&
            (s == [] ==> r.message == Some("No standings available")) &&
            (s != [] ==> r.data == Some(LeaderData(s[0])))
  {
  }
}
