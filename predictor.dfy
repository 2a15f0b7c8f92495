/** The race predictor: the prediction template a user fills in, the score of a filled-in
    prediction against the race result, and the rule-based "AI" ranking. Fetched payloads are
    parameters; a fetch whose error the service swallows is a `Fallible`. Caching is left out. */
module Predictor {
  import opened Wrappers
  import opened Text
  import opened Sorting
  import opened Jolpica

  // ---------------------------------------------------------------------------------------------
  // Positions by driver

  /** A dictionary built by a comprehension over rs: the key of each element maps to its value,
      a later element overwriting an earlier one with the same key. */
  function PositionMap<T>(rs: seq<T>, id: T -> string, pos: T -> int): map<string, int>
  {
    if rs == [] then map[]
    else PositionMap(rs[..|rs| - 1], id, pos)[id(rs[|rs| - 1]) := pos(rs[|rs| - 1])]
  }

  /** The keys are exactly the ids that occur. */
  lemma {:induction false} PositionMapKeys<T>(rs: seq<T>, id: T -> string, pos: T -> int)
    ensures forall k :: k in PositionMap(rs, id, pos) <==> exists i :: 0 <= i < |rs| && id(rs[i]) == k
    decreases |rs|
  {
    if rs != [] {
      var init := rs[..|rs| - 1];
      PositionMapKeys(init, id, pos);
      forall k ensures k in PositionMap(rs, id, pos) <==> exists i :: 0 <= i < |rs| && id(rs[i]) == k {
        if k in PositionMap(init, id, pos) {
          var i :| 0 <= i < |init| && id(init[i]) == k;
          assert id(rs[i]) == k;
        }
        if exists i :: 0 <= i < |rs| && id(rs[i]) == k {
          var i :| 0 <= i < |rs| && id(rs[i]) == k;
          if i < |init| {
            assert id(init[i]) == k;
          }
        }
      }
    }
  }

  /** The keys are the ids that occur, and each maps to the value of its last occurrence. */
  lemma PositionMapLastWins<T>(rs: seq<T>, id: T -> string, pos: T -> int)
    ensures forall k :: k in PositionMap(rs, id, pos) <==> exists i :: 0 <= i < |rs| && id(rs[i]) == k
    ensures forall k :: k in PositionMap(rs, id, pos) ==>
              exists i :: 0 <= i < |rs| && id(rs[i]) == k && PositionMap(rs, id, pos)[k] == pos(rs[i]) &&
                          forall j :: i < j < |rs| ==> id(rs[j]) != k
  {
    PositionMapKeys(rs, id, pos);
    PositionMapValues(rs, id, pos);
  }

  lemma {:induction false} PositionMapValues<T>(rs: seq<T>, id: T -> string, pos: T -> int)
    ensures forall k :: k in PositionMap(rs, id, pos) ==>
              exists i :: 0 <= i < |rs| && id(rs[i]) == k && PositionMap(rs, id, pos)[k] == pos(rs[i]) &&
                          forall j :: i < j < |rs| ==> id(rs[j]) != k
    decreases |rs|
  {
    if rs != [] {
      var init, x := rs[..|rs| - 1], rs[|rs| - 1];
      PositionMapValues(init, id, pos);
      var m := PositionMap(rs, id, pos);
      forall k | k in m
        ensures exists i :: 0 <= i < |rs| && id(rs[i]) == k && m[k] == pos(rs[i]) &&
                            forall j :: i < j < |rs| ==> id(rs[j]) != k
      {
        if k == id(x) {
          assert id(rs[|rs| - 1]) == k && m[k] == pos(rs[|rs| - 1]);
        } else {
          assert k in PositionMap(init, id, pos);
          var i :| 0 <= i < |init| && id(init[i]) == k && PositionMap(init, id, pos)[k] == pos(init[i]) &&
                   forall j :: i < j < |init| ==> id(init[j]) != k;
          assert id(rs[i]) == k && m[k] == pos(rs[i]);
          forall j | i < j < |rs| ensures id(rs[j]) != k {
            if j < |init| {
              assert rs[j] == init[j];
            }
          }
        }
      }
    }
  }

  lemma PositionMapSnoc<T>(rs: seq<T>, k: nat, id: T -> string, pos: T -> int)
    requires k < |rs|
    ensures PositionMap(rs[..k + 1], id, pos) == PositionMap(rs[..k], id, pos)[id(rs[k]) := pos(rs[k])]
  {
    assert rs[..k + 1][..k] == rs[..k];
  }

  function ResultDriver(r: RaceResult): string { r.driver.driverId }
  function ResultPosition(r: RaceResult): int { r.position }
  function QualifyingDriver(q: QualifyingResult): string { q.driver.driverId }
  function QualifyingPosition(q: QualifyingResult): int { q.position }

  /** `actual_results`: finishing position by driver id. */
  function ActualPositions(results: seq<RaceResult>): map<string, int>
  {
    PositionMap(results, ResultDriver, ResultPosition)
  }

  /** Qualifying position by driver id. */
  function QualifyingPositions(results: seq<QualifyingResult>): map<string, int>
  {
    PositionMap(results, QualifyingDriver, QualifyingPosition)
  }

  // ---------------------------------------------------------------------------------------------
  // Prediction template

  datatype TemplateDriver = TemplateDriver(driverId: string, code: string, name: string,
                                           team: Option<string>, currentPosition: int,
                                           currentPoints: int, qualifyingPosition: Option<int>)

  datatype Template = Template(year: int, round: int, race: ScheduleRace, drivers: seq<TemplateDriver>,
                               qualifyingAvailable: bool)

  /** A template line for one standing, before qualifying is merged in. */
  function TemplateEntry(s: DriverStanding): TemplateDriver
  {
    TemplateDriver(s.driver.driverId, s.driver.code, FullName(s.driver), TeamName(s), s.position,
                   s.points, None)
  }

  /** The first race of the schedule with the requested round. */
  function FindRound(schedule: seq<ScheduleRace>, round: int): (r: Option<ScheduleRace>)
    ensures r.None? <==> forall i :: 0 <= i < |schedule| ==> schedule[i].round != round
    ensures r.Some? ==> exists i :: 0 <= i < |schedule| && schedule[i] == r.value && r.value.round == round &&
                          forall j :: 0 <= j < i ==> schedule[j].round != round
  {
    if schedule == [] then None
    else if schedule[0].round == round then Some(schedule[0])
    else
      var r := FindRound(schedule[1..], round);
      assert forall i :: 1 <= i < |schedule| ==> schedule[1..][i - 1] == schedule[i];
      r
  }

  /** A line after the qualifying results qs have been merged: the position of the driver's last
      qualifying entry when there is one, the line unchanged otherwise. */
  function MergedLine(d: TemplateDriver, qs: seq<QualifyingResult>): TemplateDriver
  {
    var positions := QualifyingPositions(qs);
    if d.driverId in positions then d.(qualifyingPosition := Some(positions[d.driverId])) else d
  }

  /** The qualifying results a template merges: those of a fetched race that has them. */
  function FetchedQualifying(q: Fallible<Option<RaceData>>): Option<seq<QualifyingResult>>
  {
    if q.Fetched? && q.value.Some? && q.value.value.qualifyingResults.Some? then
      Some(q.value.value.qualifyingResults.value)
    else None
  }

  /** The nested merge loop: for each qualifying result, every template line of that driver takes
      its position. */
  method MergeQualifying(drivers: seq<TemplateDriver>, qs: seq<QualifyingResult>)
    returns (merged: seq<TemplateDriver>)
    ensures |merged| == |drivers|
    ensures forall i :: 0 <= i < |drivers| ==> merged[i] == MergedLine(drivers[i], qs)
  {
    merged := drivers;
    var k := 0;
    while k < |qs|
      invariant 0 <= k <= |qs|
      invariant |merged| == |drivers|
      invariant forall i :: 0 <= i < |drivers| ==> merged[i] == MergedLine(drivers[i], qs[..k])
    {
      var driverId := qs[k].driver.driverId;
      PositionMapSnoc(qs, k, QualifyingDriver, QualifyingPosition);
      var j := 0;
      while j < |merged|
        invariant 0 <= j <= |merged| == |drivers|
        invariant forall i :: 0 <= i < j ==> merged[i] == MergedLine(drivers[i], qs[..k + 1])
        invariant forall i :: j <= i < |drivers| ==> merged[i] == MergedLine(drivers[i], qs[..k])
      {
        if merged[j].driverId == driverId {
          merged := merged[j := merged[j].(qualifyingPosition := Some(qs[k].position))];
        }
        j := j + 1;
      }
      k := k + 1;
    }
    assert qs[..|qs|] == qs;
  }

  /** `get_prediction_template`: the requested race, one line per standing with the qualifying
      position merged in when a qualifying result exists; "available" only says the qualifying
      fetch did not fail, so it also holds for a race that has not been qualified yet. */
  method GetPredictionTemplate(year: int, roundNumber: int, schedule: seq<ScheduleRace>,
                               standings: seq<DriverStanding>, qualifying: Fallible<Option<RaceData>>)
    returns (r: Result<Template, string>)
    ensures FindRound(schedule, roundNumber).None? ==>
              r == Err("Race not found: " + IntToString(year) + " round " + IntToString(roundNumber))
    ensures FindRound(schedule, roundNumber).Some? ==>
              r.Ok? && r.value.year == year && r.value.round == roundNumber &&
              r.value.race == FindRound(schedule, roundNumber).value &&
              r.value.qualifyingAvailable == qualifying.Fetched? &&
              |r.value.drivers| == |standings| &&
              forall i :: 0 <= i < |standings| ==>
                r.value.drivers[i] ==
                  (if FetchedQualifying(qualifying).Some?
                   then MergedLine(TemplateEntry(standings[i]), FetchedQualifying(qualifying).value)
                   else TemplateEntry(standings[i]))
  {
    var raceInfo := FindRound(schedule, roundNumber);
    if raceInfo.None? {
      return Err("Race not found: " + IntToString(year) + " round " + IntToString(roundNumber));
    }
    var drivers := seq(|standings|, i requires 0 <= i < |standings| => TemplateEntry(standings[i]));
    if qualifying.Fetched? && qualifying.value.Some? && qualifying.value.value.qualifyingResults.Some? {
      drivers := MergeQualifying(drivers, qualifying.value.value.qualifyingResults.value);
    }
    r := Ok(Template(year, roundNumber, raceInfo.value, drivers, qualifying.Fetched?));
  }

  /** A driver without a qualifying result keeps no qualifying position, and a driver with one
      gets the position of their last qualifying entry. */
  lemma MergedLineQualifying(d: TemplateDriver, qs: seq<QualifyingResult>)
    requires d.qualifyingPosition.None?
    ensures MergedLine(d, qs).qualifyingPosition.None? <==>
              forall i :: 0 <= i < |qs| ==> qs[i].driver.driverId != d.driverId
    ensures MergedLine(d, qs).qualifyingPosition.Some? ==>
              exists i :: 0 <= i < |qs| && qs[i].driver.driverId == d.driverId &&
                          MergedLine(d, qs).qualifyingPosition == Some(qs[i].position) &&
                          forall j :: i < j < |qs| ==> qs[j].driver.driverId != d.driverId
    ensures MergedLine(d, qs).(qualifyingPosition := None) == d
  {
    PositionMapLastWins(qs, QualifyingDriver, QualifyingPosition);
    var positions := QualifyingPositions(qs);
    assert d.driverId in positions <==> exists i :: 0 <= i < |qs| && QualifyingDriver(qs[i]) == d.driverId;
  }

  // ---------------------------------------------------------------------------------------------
  // Prediction score

  datatype Prediction = Prediction(driverId: string, predictedPosition: int)

  datatype DetailedScore = DetailedScore(driverId: string, predictedPosition: int, actualPosition: int,
                                         difference: nat, pointsEarned: nat)

  datatype ScoreReport = ScoreReport(year: int, round: int, totalScore: int, maxPossibleScore: int,
                                     accuracyPercentage: real, detailedScores: seq<DetailedScore>)

  function Distance(a: int, b: int): nat
  {
    if a >= b then a - b else b - a
  }

  /** The points for a prediction off by `difference` places: 25, 18, 15, 12, 10, 8, then ten
      minus the difference, never below zero. */
  function Points(difference: nat): (r: nat)
    ensures r <= 25
    ensures r == 25 <==> difference == 0
    ensures difference >= 10 ==> r == 0
    ensures 0 < difference < 10 ==> 0 < r < 25
  {
    if difference == 0 then 25
    else if difference == 1 then 18
    else if difference == 2 then 15
    else if difference == 3 then 12
    else if difference == 4 then 10
    else if difference == 5 then 8
    else if 10 - difference > 0 then 10 - difference else 0
  }

  /** A closer prediction never earns fewer points. */
  lemma PointsMonotone(d1: nat, d2: nat)
    requires d1 <= d2
    ensures Points(d1) >= Points(d2)
  {
  }

  function Detail(p: Prediction, actual: int): DetailedScore
  {
    var d := Distance(p.predictedPosition, actual);
    DetailedScore(p.driverId, p.predictedPosition, actual, d, Points(d))
  }

  /** The detailed scores: one entry per prediction whose driver was classified, in order. */
  function Scored(predictions: seq<Prediction>, actual: map<string, int>): seq<DetailedScore>
  {
    if predictions == [] then []
    else
      var p := predictions[|predictions| - 1];
      Scored(predictions[..|predictions| - 1], actual) +
        (if p.driverId in actual then [Detail(p, actual[p.driverId])] else [])
  }

  function PointsEarned(d: DetailedScore): int
  {
    d.pointsEarned
  }

  /** Every entry scores a classified driver's prediction against that driver's finishing place,
      every such prediction is scored, and unclassified drivers are skipped. */
  lemma {:induction false} ScoredEntries(predictions: seq<Prediction>, actual: map<string, int>)
    ensures |Scored(predictions, actual)| <= |predictions|
    ensures forall x :: x in Scored(predictions, actual) <==>
              exists i :: 0 <= i < |predictions| && predictions[i].driverId in actual &&
                          x == Detail(predictions[i], actual[predictions[i].driverId])
    decreases |predictions|
  {
    if predictions != [] {
      var init, p := predictions[..|predictions| - 1], predictions[|predictions| - 1];
      ScoredEntries(init, actual);
      forall x ensures x in Scored(predictions, actual) <==>
                       exists i :: 0 <= i < |predictions| && predictions[i].driverId in actual &&
                                   x == Detail(predictions[i], actual[predictions[i].driverId])
      {
        if x in Scored(init, actual) {
          var i :| 0 <= i < |init| && init[i].driverId in actual && x == Detail(init[i], actual[init[i].driverId]);
          assert predictions[i] == init[i];
        }
        if exists i :: 0 <= i < |predictions| && predictions[i].driverId in actual &&
                       x == Detail(predictions[i], actual[predictions[i].driverId]) {
          var i :| 0 <= i < |predictions| && predictions[i].driverId in actual &&
                   x == Detail(predictions[i], actual[predictions[i].driverId]);
          if i < |init| {
            assert init[i] == predictions[i];
          }
        }
      }
    }
  }

  lemma {:induction false} ScoreTotalBounds(predictions: seq<Prediction>, actual: map<string, int>)
    ensures 0 <= SumOf(Scored(predictions, actual), PointsEarned) <= 25 * |predictions|
    decreases |predictions|
  {
    if predictions != [] {
      ScoreTotalBounds(predictions[..|predictions| - 1], actual);
      ScoredTotalSnoc(predictions, actual);
    }
  }

  /** The total grows by the points of the last prediction, or by nothing when its driver was not
      classified. */
  lemma ScoredTotalSnoc(predictions: seq<Prediction>, actual: map<string, int>)
    requires predictions != []
    ensures var init, p := predictions[..|predictions| - 1], predictions[|predictions| - 1];
            SumOf(Scored(predictions, actual), PointsEarned) ==
            SumOf(Scored(init, actual), PointsEarned) +
              (if p.driverId in actual then Points(Distance(p.predictedPosition, actual[p.driverId])) else 0)
  {
    var init, p := predictions[..|predictions| - 1], predictions[|predictions| - 1];
    var tail := if p.driverId in actual then [Detail(p, actual[p.driverId])] else [];
    SumOfAppend(Scored(init, actual), tail, PointsEarned);
    if tail != [] {
      assert tail[..0] == [];
    }
  }

  predicate AllExact(predictions: seq<Prediction>, actual: map<string, int>)
  {
    forall i :: 0 <= i < |predictions| ==>
      predictions[i].driverId in actual && actual[predictions[i].driverId] == predictions[i].predictedPosition
  }

  lemma AllExactSnoc(predictions: seq<Prediction>, actual: map<string, int>)
    requires predictions != []
    ensures var init, p := predictions[..|predictions| - 1], predictions[|predictions| - 1];
            AllExact(predictions, actual) <==>
            AllExact(init, actual) && p.driverId in actual && actual[p.driverId] == p.predictedPosition
  {
    var init := predictions[..|predictions| - 1];
    assert forall i :: 0 <= i < |init| ==> init[i] == predictions[i];
  }

  /** The maximum is reached exactly when every predicted driver was classified at the predicted
      place. */
  lemma {:induction false} PerfectScore(predictions: seq<Prediction>, actual: map<string, int>)
    ensures SumOf(Scored(predictions, actual), PointsEarned) == 25 * |predictions| <==> AllExact(predictions, actual)
    decreases |predictions|
  {
    if predictions != [] {
      var init := predictions[..|predictions| - 1];
      PerfectScore(init, actual);
      ScoreTotalBounds(init, actual);
      ScoredTotalSnoc(predictions, actual);
      AllExactSnoc(predictions, actual);
    }
  }

  /** `calculate_prediction_score`: fails when the race has no results yet; otherwise scores each
      prediction of a classified driver, totals the points and relates them to 25 per prediction. */
  method CalculatePredictionScore(year: int, round: int, results: Option<RaceData>,
                                  predictions: seq<Prediction>)
    returns (r: Result<ScoreReport, string>)
    ensures r.Err? <==> results.None? || results.value.results.None?
    ensures r.Err? ==> r.error == "Race results not yet available"
    ensures r.Ok? ==>
              var actual := ActualPositions(results.value.results.value);
              r.value.year == year && r.value.round == round &&
              r.value.detailedScores == Scored(predictions, actual) &&
              r.value.totalScore == SumOf(r.value.detailedScores, PointsEarned) &&
              r.value.maxPossibleScore == 25 * |predictions| &&
              0 <= r.value.totalScore <= r.value.maxPossibleScore &&
              r.value.accuracyPercentage ==
                (if predictions == [] then 0.0
                 else r.value.totalScore as real * 100.0 / r.value.maxPossibleScore as real) &&
              0.0 <= r.value.accuracyPercentage <= 100.0
  {
    if results.None? || results.value.results.None? {
      return Err("Race results not yet available");
    }
    var actual := ActualPositions(results.value.results.value);
    var totalScore := 0;
    var detailedScores: seq<DetailedScore> := [];
    for i := 0 to |predictions|
      invariant detailedScores == Scored(predictions[..i], actual)
      invariant totalScore == SumOf(detailedScores, PointsEarned)
    {
      var prediction := predictions[i];
      assert predictions[..i + 1][..i] == predictions[..i];
      if prediction.driverId in actual {
        var actualPosition := actual[prediction.driverId];
        var difference := Distance(prediction.predictedPosition, actualPosition);
        var points := Points(difference);
        var entry := DetailedScore(prediction.driverId, prediction.predictedPosition, actualPosition,
                                   difference, points);
        SumOfAppend(detailedScores, [entry], PointsEarned);
        assert [entry][..0] == [];
        totalScore := totalScore + points;
        detailedScores := detailedScores + [entry];
      }
    }
    assert predictions[..|predictions|] == predictions;
    ScoreTotalBounds(predictions, actual);
    var maxScore := |predictions| * 25;
    var accuracy := if predictions != [] then totalScore as real * 100.0 / maxScore as real else 0.0;
    if predictions != [] {
      AccuracyRange(totalScore, maxScore);
    }
    r := Ok(ScoreReport(year, round, totalScore, maxScore, accuracy, detailedScores));
  }

  lemma AccuracyRange(total: int, max: int)
    requires 0 <= total <= max && max > 0
    ensures 0.0 <= total as real * 100.0 / max as real <= 100.0
  {
    assert total as real <= max as real;
    assert total as real * 100.0 <= max as real * 100.0;
  }

  // ---------------------------------------------------------------------------------------------
  // Rule-based ranking

  datatype AIPrediction = AIPrediction(driverId: string, driverCode: string, name: string,
                                       team: Option<string>, predictionScore: real,
                                       qualifyingPosition: Option<int>, championshipPosition: int,
                                       predictedPosition: Option<nat>)

  datatype AIResult = AIResult(year: int, round: int, predictions: seq<AIPrediction>, confidence: string,
                               basedOn: seq<Option<string>>)

  /** The qualifying positions the ranking uses: none when the fetch failed or the race has no
      qualifying results. */
  function QualifyingUsed(q: Fallible<Option<RaceData>>): map<string, int>
  {
    if FetchedQualifying(q).Some? then QualifyingPositions(FetchedQualifying(q).value) else map[]
  }

  /** The ranking score (ascending is better): 60% qualifying, 30% championship, 10% wins when
      the driver qualified, otherwise 70% championship and 30% wins; the championship term is
      100 minus the standing position and the wins term ten per win. */
  function PredictionScore(s: DriverStanding, qualifying: map<string, int>): real
  {
    var championshipScore := (100 - s.position) as real;
    var winsScore := (s.wins * 10) as real;
    if s.driver.driverId in qualifying then
      qualifying[s.driver.driverId] as real * 0.6 + championshipScore * 0.3 + winsScore * 0.1
    else
      championshipScore * 0.7 + winsScore * 0.3
  }

  function Candidate(s: DriverStanding, qualifying: map<string, int>): AIPrediction
  {
    AIPrediction(s.driver.driverId, s.driver.code, FullName(s.driver), TeamName(s),
                 PredictionScore(s, qualifying),
                 if s.driver.driverId in qualifying then Some(qualifying[s.driver.driverId]) else None,
                 s.position, None)
  }

  function Candidates(standings: seq<DriverStanding>, qualifying: map<string, int>): (r: seq<AIPrediction>)
    ensures |r| == |standings|
  {
    seq(|standings|, i requires 0 <= i < |standings| => Candidate(standings[i], qualifying))
  }

  function ScoreOf(p: AIPrediction): real
  {
    p.predictionScore
  }

  /** The list after `predicted_position` has been set to one more than each index. */
  function Numbered(s: seq<AIPrediction>): (r: seq<AIPrediction>)
    ensures |r| == |s|
  {
    seq(|s|, i requires 0 <= i < |s| => s[i].(predictedPosition := Some(i + 1)))
  }

  /** `get_ai_prediction`: one candidate per standing, sorted by ascending score (stably), numbered
      from 1; the confidence is high exactly when some qualifying position was used. */
  method GetAIPrediction(year: int, round: int, standings: seq<DriverStanding>,
                         qualifying: Fallible<Option<RaceData>>) returns (r: AIResult)
    ensures r.year == year && r.round == round
    ensures r.predictions == Numbered(SortBy(Candidates(standings, QualifyingUsed(qualifying)), ScoreOf))
    ensures r.confidence == if |QualifyingUsed(qualifying)| > 0 then "high" else "medium"
    ensures r.basedOn == [if |QualifyingUsed(qualifying)| > 0 then Some("qualifying_results") else None,
                          Some("championship_standings"), Some("season_wins")]
  {
    var qualifyingPositions: map<string, int> := map[];
    if qualifying.Fetched? && qualifying.value.Some? && qualifying.value.value.qualifyingResults.Some? {
      qualifyingPositions := QualifyingPositions(qualifying.value.value.qualifyingResults.value);
    }
    assert qualifyingPositions == QualifyingUsed(qualifying);
    var predictions: seq<AIPrediction> := [];
    for i := 0 to |standings|
      invariant |predictions| == i
      invariant forall k :: 0 <= k < i ==> predictions[k] == Candidate(standings[k], qualifyingPositions)
    {
      predictions := predictions + [Candidate(standings[i], qualifyingPositions)];
    }
    var a := new AIPrediction[|predictions|](i requires 0 <= i < |predictions| => predictions[i]);
    assert a[..] == Candidates(standings, qualifyingPositions);
    SortInPlace(a, ScoreOf);
    AssignPositions(a);
    var confidence := if |qualifyingPositions| > 0 then "high" else "medium";
    var basedOn := [if |qualifyingPositions| > 0 then Some("qualifying_results") else None,
                    Some("championship_standings"), Some("season_wins")];
    r := AIResult(year, round, a[..], confidence, basedOn);
  }

  /** The enumerate loop: entry i gets predicted position i + 1. */
  method AssignPositions(a: array<AIPrediction>)
    modifies a
    ensures a[..] == Numbered(old(a[..]))
  {
    ghost var sorted := a[..];
    for i := 0 to a.Length
      invariant forall k :: 0 <= k < i ==> a[k] == sorted[k].(predictedPosition := Some(k + 1))
      invariant forall k :: i <= k < a.Length ==> a[k] == sorted[k]
    {
      a[i] := a[i].(predictedPosition := Some(i + 1));
    }
  }

  /** The ranking numbers its entries 1..n in ascending score order, and each entry is, its number
      aside, one of the candidates. */
  lemma RankingFacts(standings: seq<DriverStanding>, qualifying: map<string, int>)
    ensures var ranked := Numbered(SortBy(Candidates(standings, qualifying), ScoreOf));
            |ranked| == |standings| &&
            (forall i :: 0 <= i < |ranked| ==> ranked[i].predictedPosition == Some(i + 1)) &&
            (forall i, j :: 0 <= i < j < |ranked| ==> ranked[i].predictionScore <= ranked[j].predictionScore) &&
            forall i :: 0 <= i < |ranked| ==> ranked[i].(predictedPosition := None) in Candidates(standings, qualifying)
  {
    var cands := Candidates(standings, qualifying);
    var sorted := SortBy(cands, ScoreOf);
    SortBySorted(cands, ScoreOf);
    var ranked := Numbered(sorted);
    forall i | 0 <= i < |ranked| ensures ranked[i].(predictedPosition := None) in cands {
      var k := PermutedIndex(sorted, cands, i);
      assert cands[k].predictedPosition == None;
      assert ranked[i].(predictedPosition := None) == cands[k];
    }
  }

  /** A ranked driver's score follows the weighting of their standing and qualifying place. */
  lemma RankedDriverScored(standings: seq<DriverStanding>, qualifying: map<string, int>, i: nat)
    requires i < |standings|
    ensures |SortBy(Candidates(standings, qualifying), ScoreOf)| == |standings|
    ensures exists k :: 0 <= k < |standings| &&
              Numbered(SortBy(Candidates(standings, qualifying), ScoreOf))[k]
                == Candidate(standings[i], qualifying).(predictedPosition := Some(k + 1))
  {
    var cands := Candidates(standings, qualifying);
    var sorted := SortBy(cands, ScoreOf);
    SortByPermutes(cands, ScoreOf);
    var k := PermutedIndex(cands, sorted, i);
    assert Numbered(sorted)[k] == Candidate(standings[i], qualifying).(predictedPosition := Some(k + 1));
  }

  /** With qualifying absent the score rises with a better championship place and with more wins,
      so the ascending sort ranks the championship leader behind a driver placed lower with fewer
      wins: here P1 with ten wins is predicted second behind P2 with two. */
  lemma LeaderRankedLast()
    ensures var leader := DriverStanding(Driver("max", "VER", "Max", "Verstappen"), [], 1, 400, 10);
            var second := DriverStanding(Driver("lando", "NOR", "Lando", "Norris"), [], 2, 300, 2);
            var ranked := Numbered(SortBy(Candidates([leader, second], map[]), ScoreOf));
            ranked[0].driverId == "lando" && ranked[1].driverId == "max"
  {
    var leader := DriverStanding(Driver("max", "VER", "Max", "Verstappen"), [], 1, 400, 10);
    var second := DriverStanding(Driver("lando", "NOR", "Lando", "Norris"), [], 2, 300, 2);
    var cands := Candidates([leader, second], map[]);
    assert cands == [Candidate(leader, map[]), Candidate(second, map[])];
    assert PredictionScore(leader, map[]) == 99.3;
    assert PredictionScore(second, map[]) == 74.6;
    assert SortBy(cands[..1], ScoreOf) == [cands[0]];
    assert SortBy(cands, ScoreOf) == Insert([cands[0]], cands[1], ScoreOf);
    assert Insert([cands[0]], cands[1], ScoreOf) == Insert([], cands[1], ScoreOf) + [cands[0]];
  }

  /** The ranking score as the comments describe it: a better (smaller) championship position and
      more wins both lower the score. */
  function IntendedPredictionScore(s: DriverStanding, qualifying: map<string, int>): real
  {
    var championshipScore := s.position as real;
    var winsScore := -(s.wins * 10) as real;
    if s.driver.driverId in qualifying then
      qualifying[s.driver.driverId] as real * 0.6 + championshipScore * 0.3 + winsScore * 0.1
    else
      championshipScore * 0.7 + winsScore * 0.3
  }

  /** Under the intended score a driver who is at least as good on every criterion never ranks
      behind: their score is no larger. */
  lemma IntendedScoreMonotone(a: DriverStanding, b: DriverStanding, qualifying: map<string, int>)
    requires a.position <= b.position && a.wins >= b.wins
    requires a.driver.driverId in qualifying <==> b.driver.driverId in qualifying
    requires a.driver.driverId in qualifying ==>
               qualifying[a.driver.driverId] <= qualifying[b.driver.driverId]
    ensures IntendedPredictionScore(a, qualifying) <= IntendedPredictionScore(b, qualifying)
  {
  }

  /** A candidate scored by the corrected score. */
  function IntendedCandidate(s: DriverStanding, qualifying: map<string, int>): AIPrediction
  {
    Candidate(s, qualifying).(predictionScore := IntendedPredictionScore(s, qualifying))
  }

  /** The ranking with the corrected score: the same stable ascending sort and numbering. */
  function IntendedRanking(standings: seq<DriverStanding>, qualifying: map<string, int>): (r: seq<AIPrediction>)
    ensures |r| == |standings|
  {
    var cands := seq(|standings|, i requires 0 <= i < |standings| => IntendedCandidate(standings[i], qualifying));
    SortByPermutes(cands, ScoreOf);
    Numbered(SortBy(cands, ScoreOf))
  }

  /** On the input that shows the fault, the corrected ranking puts the championship leader first. */
  lemma IntendedLeaderFirst()
    ensures var leader := DriverStanding(Driver("max", "VER", "Max", "Verstappen"), [], 1, 400, 10);
            var second := DriverStanding(Driver("lando", "NOR", "Lando", "Norris"), [], 2, 300, 2);
            var ranked := IntendedRanking([leader, second], map[]);
            ranked[0].driverId == "max" && ranked[0].predictedPosition == Some(1) &&
            ranked[1].driverId == "lando" && ranked[1].predictedPosition == Some(2)
  {
    var leader := DriverStanding(Driver("max", "VER", "Max", "Verstappen"), [], 1, 400, 10);
    var second := DriverStanding(Driver("lando", "NOR", "Lando", "Norris"), [], 2, 300, 2);
    var cands := seq(2, i requires 0 <= i < 2 => IntendedCandidate([leader, second][i], map[]));
    assert cands == [IntendedCandidate(leader, map[]), IntendedCandidate(second, map[])];
    assert IntendedPredictionScore(leader, map[]) == -29.3;
    assert IntendedPredictionScore(second, map[]) == -4.6;
    assert SortBy(cands[..1], ScoreOf) == [cands[0]];
    assert SortBy(cands, ScoreOf) == Insert([cands[0]], cands[1], ScoreOf);
    assert Insert([cands[0]], cands[1], ScoreOf) == [cands[0], cands[1]];
  }
}
