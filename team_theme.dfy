/** The team theme hook: the set of CSS classes on the document element and the `teamTheme`
    state. The class list is a field the operations update in place. */
module TeamTheme {
  import opened Wrappers

  /** `teamClassMap`, in declaration order: team name and theme class. */
  const TeamClasses: seq<(string, string)> := [
    ("Red Bull Racing", "theme-red-bull"),
    ("Ferrari", "theme-ferrari"),
    ("Mercedes", "theme-mercedes"),
    ("McLaren", "theme-mclaren"),
    ("Aston Martin", "theme-aston-martin"),
    ("Alpine F1 Team", "theme-alpine"),
    ("Williams", "theme-williams"),
    ("RB F1 Team", "theme-rb"),
    ("Kick Sauber", "theme-kick-sauber"),
    ("Haas F1 Team", "theme-haas")
  ]

  /** `Object.values(teamClassMap)`. */
  function ThemeClassList(): (r: seq<string>)
    ensures |r| == |TeamClasses|
    ensures forall i :: 0 <= i < |r| ==> r[i] == TeamClasses[i].1
  {
    seq(|TeamClasses|, i requires 0 <= i < |TeamClasses| => TeamClasses[i].1)
  }

  /** Every class the map can apply. */
  function ThemeClasses(): set<string>
  {
    set i | 0 <= i < |TeamClasses| :: TeamClasses[i].1
  }

  /** `teamClassMap[team]`: the theme class of a listed team. */
  function ClassOf(team: string): (r: Option<string>)
    ensures r.Some? <==> exists i :: 0 <= i < |TeamClasses| && TeamClasses[i].0 == team
    ensures r.Some? ==> r.value in ThemeClasses()
  {
    Lookup(TeamClasses, team)
  }

  function Lookup(entries: seq<(string, string)>, team: string): (r: Option<string>)
    ensures r.Some? <==> exists i :: 0 <= i < |entries| && entries[i].0 == team
    ensures r.Some? ==> exists i :: 0 <= i < |entries| && entries[i] == (team, r.value)
  {
    if entries == [] then None
    else if entries[0].0 == team then Some(entries[0].1)
    else
      var r := Lookup(entries[1..], team);
      assert forall i :: 1 <= i < |entries| ==> entries[1..][i - 1] == entries[i];
      r
  }

  /** The classes after applying a theme class: every theme class removed, then that one added. */
  function Applied(classes: set<string>, themeClass: string): set<string>
  {
    classes - ThemeClasses() + {themeClass}
  }

  /** After applying a listed team's class, it is the only theme class present, and every other
      class is as before. */
  lemma AppliedExact(classes: set<string>, team: string)
    requires ClassOf(team).Some?
    ensures Applied(classes, ClassOf(team).value) * ThemeClasses() == {ClassOf(team).value}
    ensures Applied(classes, ClassOf(team).value) - ThemeClasses() == classes - ThemeClasses()
  {
  }

  /** Applying the same class twice leaves the classes as applying it once. */
  lemma AppliedIdempotent(classes: set<string>, team: string)
    requires ClassOf(team).Some?
    ensures Applied(Applied(classes, ClassOf(team).value), ClassOf(team).value) == Applied(classes, ClassOf(team).value)
  {
  }

  /** The onboarding page offers "Alpine" and "RB", which are not keys of the map. */
  lemma OnboardingNamesUnmapped()
    ensures ClassOf("Alpine").None? && ClassOf("RB").None?
  {
    assert forall i :: 0 <= i < |TeamClasses| ==> |TeamClasses[i].0| > 6;
  }

  class ThemeState {
    /** `document.documentElement.classList`. */
    var classes: set<string>
    /** The `teamTheme` state. */
    var teamTheme: Option<string>
    /** The `isLoading` state. */
    var isLoading: bool

    constructor(documentClasses: set<string>)
      ensures classes == documentClasses && teamTheme == None && isLoading
    {
      classes := documentClasses;
      teamTheme := None;
      isLoading := true;
    }

    /** The forEach removing every theme class, then the add. */
    method ApplyClass(themeClass: string)
      modifies this
      ensures classes == Applied(old(classes), themeClass)
      ensures teamTheme == old(teamTheme) && isLoading == old(isLoading)
    {
      var values := ThemeClassList();
      for k := 0 to |values|
        invariant classes == old(classes) - (set i | 0 <= i < k :: values[i])
        invariant teamTheme == old(teamTheme) && isLoading == old(isLoading)
      {
        classes := classes - {values[k]};
      }
      assert (set i | 0 <= i < |values| :: values[i]) == ThemeClasses();
      classes := classes + {themeClass};
    }

    /** `updateTeamTheme`: a listed team sets its class and the state; any other name changes
        nothing. */
    method UpdateTeamTheme(team: string)
      modifies this
      ensures ClassOf(team).Some? ==>
                classes == Applied(old(classes), ClassOf(team).value) && teamTheme == ClassOf(team)
      ensures ClassOf(team).None? ==> classes == old(classes) && teamTheme == old(teamTheme)
      ensures isLoading == old(isLoading)
    {
      var themeClass := ClassOf(team);
      if themeClass.Some? {
        ApplyClass(themeClass.value);
        teamTheme := themeClass;
      }
    }

    /** The effect after fetching preferences: with a token and a successful fetch, a non-empty
        favourite team sets the state to its class (none when unlisted) and applies a listed one;
        loading always ends. */
    method LoadPreferences(token: Option<string>, favoriteTeam: Fallible<Option<string>>)
      modifies this
      ensures !isLoading
      ensures var chosen := token.Some? && token.value != "" && favoriteTeam.Fetched? &&
                            favoriteTeam.value.Some? && favoriteTeam.value.value != "";
              (!chosen ==> classes == old(classes) && teamTheme == old(teamTheme)) &&
              (chosen ==> teamTheme == ClassOf(favoriteTeam.value.value)) &&
              (chosen && ClassOf(favoriteTeam.value.value).Some? ==>
                 classes == Applied(old(classes), ClassOf(favoriteTeam.value.value).value)) &&
              (chosen && ClassOf(favoriteTeam.value.value).None? ==> classes == old(classes))
    {
      if token.None? || token.value == "" {
        isLoading := false;
        return;
      }
      if favoriteTeam.Fetched? && favoriteTeam.value.Some? && favoriteTeam.value.value != "" {
        var themeClass := ClassOf(favoriteTeam.value.value);
        teamTheme := themeClass;
        if themeClass.Some? {
          ApplyClass(themeClass.value);
        }
      }
      isLoading := false;
    }
  }
}
