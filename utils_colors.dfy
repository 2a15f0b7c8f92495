/** The two colour classifiers of the frontend: team names and tyre compound names are mapped to
    CSS class tokens by case-insensitive substring tests tried in a fixed order. */
module UtilsColors {
  import opened Wrappers
  import opened Text
  import PitStopsChart

  // ---------------------------------------------------------------------------------------------
  // A priority list of keyword rules: the reference reading of an `if (includes) return` chain

  /** A rule fires when the name contains any of its keywords. */
  datatype Rule = Rule(keywords: seq<string>, token: string)

  predicate Fires(rule: Rule, name: string)
  {
    AnyContained(name, rule.keywords)
  }

  predicate AnyContained(name: string, keywords: seq<string>)
  {
    keywords != [] && (Contains(name, keywords[0]) || AnyContained(name, keywords[1..]))
  }

  /** The token of the first rule that fires, or the fallback when none does. */
  function FirstMatch(rules: seq<Rule>, name: string, fallback: string): (r: string)
    ensures r == fallback || exists i :: 0 <= i < |rules| && r == rules[i].token
  {
    if rules == [] then fallback
    else if Fires(rules[0], name) then rules[0].token
    else FirstMatch(rules[1..], name, fallback)
  }

  /** The first rule that fires decides, whatever later rules would say. */
  lemma {:induction false} FirstMatchWins(rules: seq<Rule>, name: string, fallback: string, i: nat)
    requires i < |rules| && Fires(rules[i], name)
    requires forall j :: 0 <= j < i ==> !Fires(rules[j], name)
    ensures FirstMatch(rules, name, fallback) == rules[i].token
    decreases i
  {
    if i > 0 {
      assert !Fires(rules[0], name);
      FirstMatchWins(rules[1..], name, fallback, i - 1);
    }
  }

  /** When no rule fires the fallback is returned. */
  lemma {:induction false} FirstMatchFallback(rules: seq<Rule>, name: string, fallback: string)
    requires forall j :: 0 <= j < |rules| ==> !Fires(rules[j], name)
    ensures FirstMatch(rules, name, fallback) == fallback
    decreases |rules|
  {
    if rules != [] {
      assert !Fires(rules[0], name);
      FirstMatchFallback(rules[1..], name, fallback);
    }
  }

  /** FirstMatch on the rules from position i on: rule i is tried, then the rest. */
  lemma FirstMatchFrom(rules: seq<Rule>, name: string, fallback: string, i: nat)
    requires i < |rules|
    ensures FirstMatch(rules[i..], name, fallback)
         == if Fires(rules[i], name) then rules[i].token else FirstMatch(rules[i + 1..], name, fallback)
  {
    assert rules[i..][1..] == rules[i + 1..];
  }

  lemma FiresOne(k: string, token: string, name: string)
    ensures Fires(Rule([k], token), name) <==> Contains(name, k)
  {
    assert [k][1..] == [];
    assert !AnyContained(name, []);
  }

  lemma FiresTwo(k1: string, k2: string, token: string, name: string)
    ensures Fires(Rule([k1, k2], token), name) <==> Contains(name, k1) || Contains(name, k2)
  {
    assert [k1, k2][1..] == [k2];
    FiresOne(k2, token, name);
  }

  // ---------------------------------------------------------------------------------------------
  // Team colours

  const TeamRules: seq<Rule> := [
    Rule(["red bull"], "team-red-bull"),
    Rule(["ferrari"], "team-ferrari"),
    Rule(["mercedes"], "team-mercedes"),
    Rule(["mclaren"], "team-mclaren"),
    Rule(["aston"], "team-aston-martin"),
    Rule(["alpine"], "team-alpine"),
    Rule(["williams"], "team-williams"),
    Rule(["rb", "racing bulls"], "team-rb"),
    Rule(["sauber", "kick"], "team-kick-sauber"),
    Rule(["haas"], "team-haas")
  ]

  const TeamFallback := "bg-gray-600"

  /** The CSS class of a team, from keywords in its lower-cased name. */
  function GetTeamColor(teamName: string): (r: string)
    ensures r in {"team-red-bull", "team-ferrari", "team-mercedes", "team-mclaren",
                  "team-aston-martin", "team-alpine", "team-williams", "team-rb",
                  "team-kick-sauber", "team-haas", "bg-gray-600"}
  {
    var team := Lower(teamName);
    if Contains(team, "red bull") then "team-red-bull"
    else if Contains(team, "ferrari") then "team-ferrari"
    else if Contains(team, "mercedes") then "team-mercedes"
    else if Contains(team, "mclaren") then "team-mclaren"
    else if Contains(team, "aston") then "team-aston-martin"
    else if Contains(team, "alpine") then "team-alpine"
    else if Contains(team, "williams") then "team-williams"
    else if Contains(team, "rb") || Contains(team, "racing bulls") then "team-rb"
    else if Contains(team, "sauber") || Contains(team, "kick") then "team-kick-sauber"
    else if Contains(team, "haas") then "team-haas"
    else "bg-gray-600"
  }

  /** The if-chain is the priority list TeamRules read top to bottom. */
  lemma TeamColorIsFirstMatch(teamName: string)
    ensures GetTeamColor(teamName) == FirstMatch(TeamRules, Lower(teamName), TeamFallback)
  {
    var team, rules, fb := Lower(teamName), TeamRules, TeamFallback;
    FirstMatchFrom(rules, team, fb, 0); FiresOne("red bull", "team-red-bull", team);
    FirstMatchFrom(rules, team, fb, 1); FiresOne("ferrari", "team-ferrari", team);
    FirstMatchFrom(rules, team, fb, 2); FiresOne("mercedes", "team-mercedes", team);
    FirstMatchFrom(rules, team, fb, 3); FiresOne("mclaren", "team-mclaren", team);
    FirstMatchFrom(rules, team, fb, 4); FiresOne("aston", "team-aston-martin", team);
    assert rules[0..] == rules;
    TeamRulesFromAlpine(team);
  }

  /** The second half of the team list, from "alpine" on. */
  lemma TeamRulesFromAlpine(team: string)
    ensures FirstMatch(TeamRules[5..], team, TeamFallback)
         == if Contains(team, "alpine") then "team-alpine"
            else if Contains(team, "williams") then "team-williams"
            else if Contains(team, "rb") || Contains(team, "racing bulls") then "team-rb"
            else if Contains(team, "sauber") || Contains(team, "kick") then "team-kick-sauber"
            else if Contains(team, "haas") then "team-haas"
            else TeamFallback
  {
    var rules, fb := TeamRules, TeamFallback;
    FirstMatchFrom(rules, team, fb, 5); FiresOne("alpine", "team-alpine", team);
    FirstMatchFrom(rules, team, fb, 6); FiresOne("williams", "team-williams", team);
    TeamRulesFromRb(team);
  }

  /** The last three team rules, from "rb" on. */
  lemma TeamRulesFromRb(team: string)
    ensures FirstMatch(TeamRules[7..], team, TeamFallback)
         == if Contains(team, "rb") || Contains(team, "racing bulls") then "team-rb"
            else if Contains(team, "sauber") || Contains(team, "kick") then "team-kick-sauber"
            else if Contains(team, "haas") then "team-haas"
            else TeamFallback
  {
    var rules, fb := TeamRules, TeamFallback;
    FirstMatchFrom(rules, team, fb, 7); FiresTwo("rb", "racing bulls", "team-rb", team);
    FirstMatchFrom(rules, team, fb, 8); FiresTwo("sauber", "kick", "team-kick-sauber", team);
    FirstMatchFrom(rules, team, fb, 9); FiresOne("haas", "team-haas", team);
    assert rules[10..] == [];
  }

  /** The first keyword of the list found in the name decides the colour: later keywords cannot
      change it, and a name without any keyword gets the grey fallback. */
  lemma TeamColorPriority(teamName: string, i: nat)
    requires i < |TeamRules| && Fires(TeamRules[i], Lower(teamName))
    requires forall j :: 0 <= j < i ==> !Fires(TeamRules[j], Lower(teamName))
    ensures GetTeamColor(teamName) == TeamRules[i].token
  {
    TeamColorIsFirstMatch(teamName);
    FirstMatchWins(TeamRules, Lower(teamName), TeamFallback, i);
  }

  lemma TeamColorFallback(teamName: string)
    requires forall j :: 0 <= j < |TeamRules| ==> !Fires(TeamRules[j], Lower(teamName))
    ensures GetTeamColor(teamName) == "bg-gray-600"
  {
    TeamColorIsFirstMatch(teamName);
    FirstMatchFallback(TeamRules, Lower(teamName), TeamFallback);
  }

  /** Only the lower-cased name matters. */
  lemma TeamColorCaseInsensitive(teamName: string)
    ensures GetTeamColor(teamName) == GetTeamColor(Lower(teamName))
  {
    LowerIdempotent(teamName);
  }

  // ---------------------------------------------------------------------------------------------
  // Compound colours

  const CompoundRules: seq<Rule> := [
    Rule(["soft"], "compound-soft"),
    Rule(["medium"], "compound-medium"),
    Rule(["hard"], "compound-hard"),
    Rule(["intermediate"], "compound-intermediate"),
    Rule(["wet"], "compound-wet")
  ]

  /** The CSS class of a compound; missing and empty names are grey. Unlike the pit-stop chart's
      classifier, "soft" wins even when the name also mentions medium or hard. */
  function GetCompoundColor(compound: Option<string>): (r: string)
    ensures r in {"compound-soft", "compound-medium", "compound-hard", "compound-intermediate",
                  "compound-wet", "bg-gray-400"}
    ensures compound.None? || compound == Some("") ==> r == "bg-gray-400"
  {
    if compound.None? || compound.value == "" then "bg-gray-400"
    else
      var comp := Lower(compound.value);
      if Contains(comp, "soft") then "compound-soft"
      else if Contains(comp, "medium") then "compound-medium"
      else if Contains(comp, "hard") then "compound-hard"
      else if Contains(comp, "intermediate") then "compound-intermediate"
      else if Contains(comp, "wet") then "compound-wet"
      else "bg-gray-400"
  }

  /** For a present name the if-chain is the priority list CompoundRules read top to bottom. */
  lemma CompoundColorIsFirstMatch(name: string)
    requires name != ""
    ensures GetCompoundColor(Some(name)) == FirstMatch(CompoundRules, Lower(name), "bg-gray-400")
  {
    var comp, rules, fb := Lower(name), CompoundRules, "bg-gray-400";
    FirstMatchFrom(rules, comp, fb, 0); FiresOne("soft", "compound-soft", comp);
    FirstMatchFrom(rules, comp, fb, 1); FiresOne("medium", "compound-medium", comp);
    assert rules[0..] == rules;
    CompoundRulesFromHard(comp);
  }

  /** The tail of the compound list, from "hard" on. */
  lemma CompoundRulesFromHard(comp: string)
    ensures FirstMatch(CompoundRules[2..], comp, "bg-gray-400")
         == if Contains(comp, "hard") then "compound-hard"
            else if Contains(comp, "intermediate") then "compound-intermediate"
            else if Contains(comp, "wet") then "compound-wet"
            else "bg-gray-400"
  {
    var rules, fb := CompoundRules, "bg-gray-400";
    FirstMatchFrom(rules, comp, fb, 2); FiresOne("hard", "compound-hard", comp);
    FirstMatchFrom(rules, comp, fb, 3); FiresOne("intermediate", "compound-intermediate", comp);
    FirstMatchFrom(rules, comp, fb, 4); FiresOne("wet", "compound-wet", comp);
    assert rules[5..] == [];
  }

  lemma CompoundColorCaseInsensitive(name: string)
    ensures GetCompoundColor(Some(name)) == GetCompoundColor(Some(Lower(name)))
  {
    LowerIdempotent(name);
  }

  /** The two compound classifiers agree on every present name except one that mentions soft
      together with medium or hard: the chart then shows medium or hard, this one soft. */
  lemma CompoundClassifiersCompared(name: string)
    requires name != ""
    ensures var comp := Lower(name);
            var info := PitStopsChart.GetCompoundInfo(Some(name));
            var color := GetCompoundColor(Some(name));
            if Contains(comp, "soft") && (Contains(comp, "medium") || Contains(comp, "hard")) then
              color == "compound-soft" && info.caption in {"MEDIUM", "HARD"}
            else
              (color == "compound-soft" <==> info.caption == "SOFT") &&
              (color == "compound-medium" <==> info.caption == "MEDIUM") &&
              (color == "compound-hard" <==> info.caption == "HARD") &&
              (color == "compound-intermediate" <==> info.color == "bg-green-500") &&
              (color == "compound-wet" <==> info.color == "bg-blue-500") &&
              (color == "bg-gray-400" <==> info.color == "bg-gray-400")
  {
    var comp := Lower(name);
    var info := PitStopsChart.GetCompoundInfo(Some(name));
    if !Contains(comp, "soft") && !Contains(comp, "medium") && !Contains(comp, "hard") &&
       !Contains(comp, "intermediate") && !Contains(comp, "wet") {
      assert |info.caption| <= 3 && info.color == "bg-gray-400";
    }
  }
}
