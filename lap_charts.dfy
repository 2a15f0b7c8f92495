/** The lap-based views of the race page: the page's driver list, the final classification it
    hands to the pit-stop chart, the per-lap ranking of the position chart (which the page renders
    without a driver list) and the lap-by-driver table of the lap-time chart. JavaScript sorts are
    stable; a comparator `(a, b) => a - b` is the sort by that numeric key. */
module LapCharts {
  import opened Wrappers
  import opened Sorting
  import opened Grouping
  import opened LapData

  // ---------------------------------------------------------------------------------------------
  // Shared pieces

  function IntKey(n: int): real
  {
    n as real
  }

  /** The sort key of `(a.lap_time_seconds || 0) - (b.lap_time_seconds || 0)`. */
  function TimeKey(lap: Lap): real
  {
    if lap.lapTime.Some? then lap.lapTime.value as real else 0.0
  }

  /** The distinct lap numbers in ascending order (`new Set` of the numbers, sorted). */
  function LapNumbers(laps: seq<Lap>): seq<int>
  {
    SortBy(Keys(laps, LapNumberOf), IntKey)
  }

  /** The lap numbers are strictly ascending and are exactly the numbers the laps carry. */
  lemma LapNumbersExact(laps: seq<Lap>)
    ensures forall i, j :: 0 <= i < j < |LapNumbers(laps)| ==> LapNumbers(laps)[i] < LapNumbers(laps)[j]
    ensures forall n :: n in LapNumbers(laps) <==> exists i :: 0 <= i < |laps| && laps[i].lapNumber == n
  {
    var ks := Keys(laps, LapNumberOf);
    var sorted := SortBy(ks, IntKey);
    SortBySorted(ks, IntKey);
    KeysCorrect(laps, LapNumberOf);
    forall n ensures n in sorted <==> n in ks {
      assert n in sorted <==> n in multiset(sorted);
      assert n in ks <==> n in multiset(ks);
    }
    forall i, j | 0 <= i < j < |sorted| ensures sorted[i] < sorted[j] {
      assert IntKey(sorted[i]) <= IntKey(sorted[j]);
      if sorted[i] == sorted[j] {
        RepeatedMultiplicity(sorted, i, j);
        DistinctMultiplicity(ks, sorted[i]);
        assert false;
      }
    }
  }

  /** With any lap present the last lap number is the largest one. */
  lemma LastLapIsMax(laps: seq<Lap>)
    requires laps != []
    ensures LapNumbers(laps) != []
    ensures exists i :: 0 <= i < |laps| && laps[i].lapNumber == LapNumbers(laps)[|LapNumbers(laps)| - 1]
    ensures forall i :: 0 <= i < |laps| ==> laps[i].lapNumber <= LapNumbers(laps)[|LapNumbers(laps)| - 1]
  {
    LapNumbersExact(laps);
    var nums := LapNumbers(laps);
    assert laps[0].lapNumber in nums;
    var last := nums[|nums| - 1];
    assert last in nums;
    forall i | 0 <= i < |laps| ensures laps[i].lapNumber <= last {
      assert laps[i].lapNumber in nums;
      var k :| 0 <= k < |nums| && nums[k] == laps[i].lapNumber;
      assert k == |nums| - 1 || nums[k] < last;
    }
  }

  /** The laps with lap number n, in input order. */
  function OnLap(laps: seq<Lap>, n: int): seq<Lap>
  {
    if laps == [] then []
    else OnLap(laps[..|laps| - 1], n) + (if laps[|laps| - 1].lapNumber == n then [laps[|laps| - 1]] else [])
  }

  /** The laps that have a time (`lap_time_seconds !== null`), in input order. */
  function Timed(laps: seq<Lap>): seq<Lap>
  {
    if laps == [] then []
    else Timed(laps[..|laps| - 1]) + (if laps[|laps| - 1].lapTime.Some? then [laps[|laps| - 1]] else [])
  }

  lemma {:induction false} OnLapMembers(laps: seq<Lap>, n: int)
    ensures forall l :: l in OnLap(laps, n) <==> l in laps && l.lapNumber == n
    decreases |laps|
  {
    if laps != [] {
      OnLapMembers(laps[..|laps| - 1], n);
      assert laps == laps[..|laps| - 1] + [laps[|laps| - 1]];
    }
  }

  lemma {:induction false} TimedMembers(laps: seq<Lap>)
    ensures forall l :: l in Timed(laps) <==> l in laps && l.lapTime.Some?
    decreases |laps|
  {
    if laps != [] {
      TimedMembers(laps[..|laps| - 1]);
      assert laps == laps[..|laps| - 1] + [laps[|laps| - 1]];
    }
  }

  /** The timed laps of lap n, fastest first: the order both charts rank by. */
  function RankedLaps(laps: seq<Lap>, n: int): seq<Lap>
  {
    SortBy(Timed(OnLap(laps, n)), TimeKey)
  }

  /** The ranked laps are the timed laps of lap n, each once, in ascending time. */
  lemma RankedLapsExact(laps: seq<Lap>, n: int)
    ensures multiset(RankedLaps(laps, n)) == multiset(Timed(OnLap(laps, n)))
    ensures forall l :: l in RankedLaps(laps, n) <==> l in laps && l.lapNumber == n && l.lapTime.Some?
    ensures forall i, j :: 0 <= i < j < |RankedLaps(laps, n)| ==>
              RankedLaps(laps, n)[i].lapTime.value <= RankedLaps(laps, n)[j].lapTime.value
  {
    var timed := Timed(OnLap(laps, n));
    var ranked := RankedLaps(laps, n);
    SortBySorted(timed, TimeKey);
    OnLapMembers(laps, n);
    TimedMembers(OnLap(laps, n));
    forall l ensures l in ranked <==> l in timed {
      assert l in ranked <==> l in multiset(ranked);
      assert l in timed <==> l in multiset(timed);
    }
    forall i, j | 0 <= i < j < |ranked| ensures ranked[i].lapTime.value <= ranked[j].lapTime.value {
      assert ranked[i] in ranked && ranked[j] in ranked;
      assert TimeKey(ranked[i]) <= TimeKey(ranked[j]);
    }
  }

  // ---------------------------------------------------------------------------------------------
  // Race page

  /** `drivers`: the distinct drivers of the laps in order of first appearance; none without data. */
  function PageDrivers(laps: Option<seq<Lap>>): seq<string>
  {
    if laps.None? then [] else Keys(laps.value, LapDriver)
  }

  lemma PageDriversExact(laps: Option<seq<Lap>>)
    ensures Distinct(PageDrivers(laps))
    ensures forall d :: d in PageDrivers(laps) <==> laps.Some? && exists i :: 0 <= i < |laps.value| && laps.value[i].driver == d
  {
    if laps.Some? {
      KeysCorrect(laps.value, LapDriver);
    }
  }

  datatype FinalPosition = FinalPosition(driver: string, position: nat)

  /** `finalPositions`: the timed laps of the last lap number, fastest first, numbered from 1.
      Without laps there is no last lap number and nothing matches it. */
  function FinalPositions(laps: Option<seq<Lap>>): seq<FinalPosition>
  {
    if laps.None? || LapNumbers(laps.value) == [] then []
    else
      var lapNumbers := LapNumbers(laps.value);
      var sortedDrivers := RankedLaps(laps.value, lapNumbers[|lapNumbers| - 1]);
      seq(|sortedDrivers|, i requires 0 <= i < |sortedDrivers| => FinalPosition(sortedDrivers[i].driver, i + 1))
  }

  /** Positions run 1..k in order of lap time on the highest lap number, one per timed lap there;
      no data gives no positions. */
  lemma FinalPositionsExact(laps: Option<seq<Lap>>)
    ensures laps.None? || laps.value == [] ==> FinalPositions(laps) == []
    ensures forall i :: 0 <= i < |FinalPositions(laps)| ==> FinalPositions(laps)[i].position == i + 1
    ensures laps.Some? && laps.value != [] ==>
              var nums := LapNumbers(laps.value);
              var last := nums[|nums| - 1];
              (forall i :: 0 <= i < |laps.value| ==> laps.value[i].lapNumber <= last) &&
              |FinalPositions(laps)| == |Timed(OnLap(laps.value, last))| &&
              forall i :: 0 <= i < |FinalPositions(laps)| ==>
                FinalPositions(laps)[i].driver == RankedLaps(laps.value, last)[i].driver &&
                RankedLaps(laps.value, last)[i] in laps.value &&
                RankedLaps(laps.value, last)[i].lapNumber == last &&
                RankedLaps(laps.value, last)[i].lapTime.Some?
  {
    if laps.Some? && laps.value == [] {
      assert Keys(laps.value, LapNumberOf) == [];
    }
    if laps.Some? && laps.value != [] {
      LastLapIsMax(laps.value);
      var nums := LapNumbers(laps.value);
      var last := nums[|nums| - 1];
      RankedLapsAt(laps.value, last);
    }
  }

  /** One ranked entry per timed lap with number n, each a lap of the input with that number. */
  lemma RankedLapsAt(laps: seq<Lap>, n: int)
    ensures |RankedLaps(laps, n)| == |Timed(OnLap(laps, n))|
    ensures forall i :: 0 <= i < |RankedLaps(laps, n)| ==>
              RankedLaps(laps, n)[i] in laps && RankedLaps(laps, n)[i].lapNumber == n &&
              RankedLaps(laps, n)[i].lapTime.Some?
  {
    RankedLapsExact(laps, n);
    SortByPermutes(Timed(OnLap(laps, n)), TimeKey);
    var ranked := RankedLaps(laps, n);
    forall i | 0 <= i < |ranked| ensures ranked[i] in laps && ranked[i].lapNumber == n && ranked[i].lapTime.Some? {
      assert ranked[i] in ranked;
    }
  }

  /** `maxLaps={lapsData?.total_laps || 60}`: a missing or zero lap count falls back to 60. */
  function MaxLaps(totalLaps: Option<int>): (r: int)
    ensures r != 0
    ensures totalLaps.None? || totalLaps.value == 0 ==> r == 60
    ensures totalLaps.Some? && totalLaps.value != 0 ==> r == totalLaps.value
  {
    if totalLaps.Some? && totalLaps.value != 0 then totalLaps.value else 60
  }

  // ---------------------------------------------------------------------------------------------
  // Position chart

  /** The fields the forEach writes: each listed driver's 1-based index in the ranking, a later
      index overwriting an earlier one for the same driver. */
  function Positions(ranked: seq<Lap>, drivers: seq<string>): map<string, nat>
  {
    if ranked == [] then map[]
    else
      var m := Positions(ranked[..|ranked| - 1], drivers);
      if ranked[|ranked| - 1].driver in drivers then m[ranked[|ranked| - 1].driver := |ranked|] else m
  }

  /** Only listed drivers get a field, and each listed driver who has a timed lap gets one. */
  lemma {:induction false} PositionsKeys(ranked: seq<Lap>, drivers: seq<string>)
    ensures forall d :: d in Positions(ranked, drivers) <==>
              d in drivers && exists i :: 0 <= i < |ranked| && ranked[i].driver == d
    decreases |ranked|
  {
    if ranked != [] {
      var init := ranked[..|ranked| - 1];
      PositionsKeys(init, drivers);
      forall d ensures d in Positions(ranked, drivers) <==> d in drivers && exists i :: 0 <= i < |ranked| && ranked[i].driver == d {
        if d in Positions(init, drivers) {
          var i :| 0 <= i < |init| && init[i].driver == d;
          assert ranked[i].driver == d;
        }
        if d in drivers && exists i :: 0 <= i < |ranked| && ranked[i].driver == d {
          var i :| 0 <= i < |ranked| && ranked[i].driver == d;
          if i < |init| {
            assert init[i].driver == d;
          }
        }
      }
    }
  }

  /** Only listed drivers get a field; the field holds the rank of that driver's last entry among
      all timed laps, listed or not, so the ranks shown may skip values. */
  lemma PositionsExact(ranked: seq<Lap>, drivers: seq<string>)
    ensures forall d :: d in Positions(ranked, drivers) <==>
              d in drivers && exists i :: 0 <= i < |ranked| && ranked[i].driver == d
    ensures forall d :: d in Positions(ranked, drivers) ==>
              exists i :: 0 <= i < |ranked| && ranked[i].driver == d && Positions(ranked, drivers)[d] == i + 1 &&
                          forall j :: i < j < |ranked| ==> ranked[j].driver != d
  {
    PositionsKeys(ranked, drivers);
    PositionsRanks(ranked, drivers);
  }

  lemma {:induction false} PositionsRanks(ranked: seq<Lap>, drivers: seq<string>)
    ensures forall d :: d in Positions(ranked, drivers) ==>
              exists i :: 0 <= i < |ranked| && ranked[i].driver == d && Positions(ranked, drivers)[d] == i + 1 &&
                          forall j :: i < j < |ranked| ==> ranked[j].driver != d
    decreases |ranked|
  {
    if ranked != [] {
      var init, x := ranked[..|ranked| - 1], ranked[|ranked| - 1];
      PositionsRanks(init, drivers);
      var m := Positions(ranked, drivers);
      forall d | d in m
        ensures exists i :: 0 <= i < |ranked| && ranked[i].driver == d && m[d] == i + 1 &&
                            forall j :: i < j < |ranked| ==> ranked[j].driver != d
      {
        if d == x.driver && x.driver in drivers {
          assert ranked[|ranked| - 1].driver == d && m[d] == |ranked|;
        } else {
          assert d in Positions(init, drivers);
          PositionsKeys(init, drivers);
          var i :| 0 <= i < |init| && init[i].driver == d && Positions(init, drivers)[d] == i + 1 &&
                   forall j :: i < j < |init| ==> init[j].driver != d;
          assert ranked[i].driver == d && m[d] == i + 1;
          forall j | i < j < |ranked| ensures ranked[j].driver != d {
            if j < |init| {
              assert ranked[j] == init[j];
            }
          }
        }
      }
    }
  }

  datatype PositionPoint = PositionPoint(lap: int, positions: map<string, nat>)

  /** One `dataPoint`: the forEach over the ranked laps of one lap number. */
  method FillPositionPoint(ranked: seq<Lap>, drivers: seq<string>, lapNum: int) returns (point: PositionPoint)
    ensures point == PositionPoint(lapNum, Positions(ranked, drivers))
  {
    var positions: map<string, nat> := map[];
    for index := 0 to |ranked|
      invariant positions == Positions(ranked[..index], drivers)
    {
      assert ranked[..index + 1][..index] == ranked[..index];
      if ranked[index].driver in drivers {
        positions := positions[ranked[index].driver := index + 1];
      }
    }
    assert ranked[..|ranked|] == ranked;
    point := PositionPoint(lapNum, positions);
  }

  /** `chartData` of the position chart: one point per distinct lap number, ascending. */
  method PositionChartData(laps: seq<Lap>, drivers: seq<string>) returns (chartData: seq<PositionPoint>)
    ensures |chartData| == |LapNumbers(laps)|
    ensures forall i :: 0 <= i < |chartData| ==>
              chartData[i] == PositionPoint(LapNumbers(laps)[i], Positions(RankedLaps(laps, LapNumbers(laps)[i]), drivers))
  {
    var lapNumbers := LapNumbers(laps);
    chartData := [];
    for k := 0 to |lapNumbers|
      invariant |chartData| == k
      invariant forall i :: 0 <= i < k ==>
                  chartData[i] == PositionPoint(lapNumbers[i], Positions(RankedLaps(laps, lapNumbers[i]), drivers))
    {
      var point := FillPositionPoint(RankedLaps(laps, lapNumbers[k]), drivers, lapNumbers[k]);
      chartData := chartData + [point];
    }
  }

  /** The points the chart builds for a given `drivers` array. */
  function PositionPoints(laps: seq<Lap>, drivers: seq<string>): seq<PositionPoint>
  {
    seq(|LapNumbers(laps)|, i requires 0 <= i < |LapNumbers(laps)| =>
      PositionPoint(LapNumbers(laps)[i], Positions(RankedLaps(laps, LapNumbers(laps)[i]), drivers)))
  }

  /** The forEach of some lap reaches `drivers.includes`: some lap number has a ranked lap. */
  predicate ReachesIncludes(laps: seq<Lap>)
  {
    exists k :: 0 <= k < |LapNumbers(laps)| && RankedLaps(laps, LapNumbers(laps)[k]) != []
  }

  /** `drivers.includes` is reached exactly when some lap has a time. */
  lemma ReachesIncludesExact(laps: seq<Lap>)
    ensures ReachesIncludes(laps) <==> exists i :: 0 <= i < |laps| && laps[i].lapTime.Some?
  {
    LapNumbersExact(laps);
    if ReachesIncludes(laps) {
      var k :| 0 <= k < |LapNumbers(laps)| && RankedLaps(laps, LapNumbers(laps)[k]) != [];
      var ranked := RankedLaps(laps, LapNumbers(laps)[k]);
      RankedLapsExact(laps, LapNumbers(laps)[k]);
      assert ranked[0] in ranked;
      var i :| 0 <= i < |laps| && laps[i] == ranked[0];
      assert laps[i].lapTime.Some?;
    }
    if exists i :: 0 <= i < |laps| && laps[i].lapTime.Some? {
      var i :| 0 <= i < |laps| && laps[i].lapTime.Some?;
      var n := laps[i].lapNumber;
      assert n in LapNumbers(laps);
      var k :| 0 <= k < |LapNumbers(laps)| && LapNumbers(laps)[k] == n;
      RankedLapsExact(laps, n);
      assert laps[i] in RankedLaps(laps, n);
    }
  }

  /** What rendering throws when `drivers` is undefined: the forEach's `drivers.includes` when
      some ranked lap reaches it, otherwise the `drivers.map` that draws the lines. */
  const IncludesOfUndefined := "TypeError: Cannot read properties of undefined (reading 'includes')"
  const MapOfUndefined := "TypeError: Cannot read properties of undefined (reading 'map')"

  /** The position chart rendered with an optional `drivers` prop: without the prop rendering
      always throws, at the first ranked lap's `includes` or else at the lines' `drivers.map`. */
  function RenderPositionChart(laps: seq<Lap>, drivers: Option<seq<string>>): (r: Result<seq<PositionPoint>, string>)
    ensures r.Err? <==> drivers.None?
    ensures r.Err? ==> r.error in {IncludesOfUndefined, MapOfUndefined}
    ensures r.Err? ==> (r.error == IncludesOfUndefined <==> exists i :: 0 <= i < |laps| && laps[i].lapTime.Some?)
    ensures r.Ok? ==> |r.value| == |LapNumbers(laps)| && r.value == PositionPoints(laps, drivers.value)
  {
    ReachesIncludesExact(laps);
    if drivers.None? then
      Err(if ReachesIncludes(laps) then IncludesOfUndefined else MapOfUndefined)
    else Ok(PositionPoints(laps, drivers.value))
  }

  /** The race page as written: `<PositionChart laps={lapsData.laps} />`, without `drivers`. */
  function RacePagePositionChart(laps: seq<Lap>): Result<seq<PositionPoint>, string>
  {
    RenderPositionChart(laps, None)
  }

  /** As written, the position chart throws for any lap data, even an empty list; with a timed
      lap it already throws while building the points. */
  lemma RacePagePositionChartThrows(laps: seq<Lap>)
    ensures RacePagePositionChart(laps).Err?
    ensures RacePagePositionChart(laps).error == IncludesOfUndefined <==>
              exists i :: 0 <= i < |laps| && laps[i].lapTime.Some?
    ensures RacePagePositionChart([]) == Err(MapOfUndefined)
    ensures RacePagePositionChart([Lap("VER", 1, Some(90))]) == Err(IncludesOfUndefined)
  {
    assert [Lap("VER", 1, Some(90))][0].lapTime.Some?;
  }

  /** The race page with the page's own driver list passed as `drivers`. */
  function CorrectedRacePagePositionChart(laps: seq<Lap>): Result<seq<PositionPoint>, string>
  {
    RenderPositionChart(laps, Some(PageDrivers(Some(laps))))
  }

  /** With every driver of the laps listed, a driver is positioned at lap n exactly when they have
      a timed lap with that number. */
  lemma PositionedWithAllDrivers(laps: seq<Lap>, n: int)
    ensures forall d :: d in Positions(RankedLaps(laps, n), PageDrivers(Some(laps))) <==>
              exists i :: 0 <= i < |laps| && laps[i].driver == d && laps[i].lapNumber == n && laps[i].lapTime.Some?
  {
    var drivers := PageDrivers(Some(laps));
    var ranked := RankedLaps(laps, n);
    PageDriversExact(Some(laps));
    PositionsKeys(ranked, drivers);
    RankedLapsExact(laps, n);
    forall d ensures d in Positions(ranked, drivers) <==>
              exists i :: 0 <= i < |laps| && laps[i].driver == d && laps[i].lapNumber == n && laps[i].lapTime.Some?
    {
      if d in Positions(ranked, drivers) {
        var j :| 0 <= j < |ranked| && ranked[j].driver == d;
        assert ranked[j] in ranked;
        var i :| 0 <= i < |laps| && laps[i] == ranked[j];
        assert laps[i].driver == d && laps[i].lapNumber == n && laps[i].lapTime.Some?;
      }
      if exists i :: 0 <= i < |laps| && laps[i].driver == d && laps[i].lapNumber == n && laps[i].lapTime.Some? {
        var i :| 0 <= i < |laps| && laps[i].driver == d && laps[i].lapNumber == n && laps[i].lapTime.Some?;
        assert laps[i] in ranked;
        var j :| 0 <= j < |ranked| && ranked[j] == laps[i];
        assert d in drivers;
      }
    }
  }

  /** With the driver list passed, the chart renders one point per lap number, and a driver has a
      position at a lap exactly when they have a timed lap with that number. */
  lemma CorrectedPositionChartComplete(laps: seq<Lap>)
    ensures CorrectedRacePagePositionChart(laps).Ok?
    ensures var points := CorrectedRacePagePositionChart(laps).value;
            |points| == |LapNumbers(laps)| &&
            forall k :: 0 <= k < |points| ==>
              points[k].lap == LapNumbers(laps)[k] &&
              forall d :: d in points[k].positions <==>
                exists i :: 0 <= i < |laps| && laps[i].driver == d && laps[i].lapNumber == LapNumbers(laps)[k] &&
                            laps[i].lapTime.Some?
  {
    var drivers := PageDrivers(Some(laps));
    var points := CorrectedRacePagePositionChart(laps).value;
    assert points == PositionPoints(laps, drivers);
    forall k | 0 <= k < |points|
      ensures points[k].lap == LapNumbers(laps)[k]
      ensures forall d :: d in points[k].positions <==>
                exists i :: 0 <= i < |laps| && laps[i].driver == d && laps[i].lapNumber == LapNumbers(laps)[k] &&
                            laps[i].lapTime.Some?
    {
      assert points[k] == PositionPoint(LapNumbers(laps)[k], Positions(RankedLaps(laps, LapNumbers(laps)[k]), drivers));
      PositionedWithAllDrivers(laps, LapNumbers(laps)[k]);
    }
  }

  // ---------------------------------------------------------------------------------------------
  // Lap-time chart

  /** `filteredLaps`: with a driver list only their laps, otherwise all laps. */
  function Filtered(laps: seq<Lap>, drivers: Option<seq<string>>): seq<Lap>
  {
    if drivers.None? || laps == [] then laps
    else
      Filtered(laps[..|laps| - 1], drivers) +
        (if laps[|laps| - 1].driver in drivers.value then [laps[|laps| - 1]] else [])
  }

  lemma {:induction false} FilteredExact(laps: seq<Lap>, drivers: Option<seq<string>>)
    ensures drivers.None? ==> Filtered(laps, drivers) == laps
    ensures forall l :: l in Filtered(laps, drivers) <==> l in laps && (drivers.None? || l.driver in drivers.value)
    decreases |laps|
  {
    if drivers.Some? && laps != [] {
      FilteredExact(laps[..|laps| - 1], drivers);
      assert laps == laps[..|laps| - 1] + [laps[|laps| - 1]];
    }
  }

  /** The first lap of a driver's list with lap number n (`find`). */
  function FirstOnLap(group: seq<Lap>, n: int): (r: Option<Lap>)
    ensures r.None? <==> forall i :: 0 <= i < |group| ==> group[i].lapNumber != n
    ensures r.Some? ==> exists i :: 0 <= i < |group| && group[i] == r.value && r.value.lapNumber == n &&
                          forall j :: 0 <= j < i ==> group[j].lapNumber != n
  {
    if group == [] then None
    else if group[0].lapNumber == n then Some(group[0])
    else
      var r := FirstOnLap(group[1..], n);
      assert forall i :: 1 <= i < |group| ==> group[1..][i - 1] == group[i];
      r
  }

  /** `lap?.lap_time_seconds || null`: a missing lap, a missing time and a zero time are all null. */
  function Cell(group: seq<Lap>, n: int): (r: Option<int>)
    ensures r.Some? <==> FirstOnLap(group, n).Some? && FirstOnLap(group, n).value.lapTime.Some? &&
                         FirstOnLap(group, n).value.lapTime.value != 0
    ensures r.Some? ==> r == FirstOnLap(group, n).value.lapTime
  {
    var lap := FirstOnLap(group, n);
    if lap.Some? && lap.value.lapTime.Some? && lap.value.lapTime.value != 0 then lap.value.lapTime else None
  }

  datatype LapTimeRow = LapTimeRow(lap: int, times: map<string, Option<int>>)

  /** One `point`: a field for every grouped driver. */
  method FillLapTimeRow(driverLaps: map<string, seq<Lap>>, drivers: seq<string>, lapNumber: int)
    returns (row: LapTimeRow)
    requires forall d :: d in drivers ==> d in driverLaps
    ensures row.lap == lapNumber
    ensures forall d :: d in row.times <==> d in drivers
    ensures forall d :: d in row.times ==> row.times[d] == Cell(driverLaps[d], lapNumber)
  {
    var times: map<string, Option<int>> := map[];
    for k := 0 to |drivers|
      invariant forall d :: d in times <==> d in drivers[..k]
      invariant forall d :: d in times ==> times[d] == Cell(driverLaps[d], lapNumber)
    {
      assert drivers[..k + 1] == drivers[..k] + [drivers[k]];
      times := times[drivers[k] := Cell(driverLaps[drivers[k]], lapNumber)];
    }
    assert drivers[..|drivers|] == drivers;
    row := LapTimeRow(lapNumber, times);
  }

  /** `chartData` of the lap-time chart: the laps (filtered) grouped by driver, then one row per
      distinct lap number, ascending, holding each driver's time on that lap. */
  method LapTimeChartData(laps: seq<Lap>, drivers: Option<seq<string>>) returns (chartData: seq<LapTimeRow>)
    ensures var filtered := Filtered(laps, drivers);
            |chartData| == |LapNumbers(filtered)| &&
            forall i :: 0 <= i < |chartData| ==>
              chartData[i].lap == LapNumbers(filtered)[i] &&
              (forall d :: d in chartData[i].times <==> d in Keys(filtered, LapDriver)) &&
              forall d :: d in chartData[i].times ==>
                chartData[i].times[d] == Cell(Group(filtered, LapDriver, d), chartData[i].lap)
  {
    var filteredLaps := Filtered(laps, drivers);
    var driverLaps, order := GroupInto(filteredLaps, LapDriver);
    var allLapNumbers := LapNumbers(filteredLaps);
    chartData := FillLapTimeRows(driverLaps, order, filteredLaps, allLapNumbers);
    forall i | 0 <= i < |chartData|
      ensures chartData[i].lap == allLapNumbers[i]
      ensures forall d :: d in chartData[i].times <==> d in Keys(filteredLaps, LapDriver)
      ensures forall d :: d in chartData[i].times ==>
                chartData[i].times[d] == Cell(Group(filteredLaps, LapDriver, d), chartData[i].lap)
    {
      assert LapRowOf(chartData[i], filteredLaps, order, allLapNumbers[i]);
    }
  }

  /** The loop over the lap numbers: one row per number, in order. */
  method FillLapTimeRows(driverLaps: map<string, seq<Lap>>, order: seq<string>, ghost filtered: seq<Lap>,
                         lapNumbers: seq<int>)
    returns (chartData: seq<LapTimeRow>)
    requires forall d :: d in driverLaps <==> d in order
    requires forall d :: d in driverLaps ==> driverLaps[d] == Group(filtered, LapDriver, d)
    ensures |chartData| == |lapNumbers|
    ensures forall i :: 0 <= i < |chartData| ==> LapRowOf(chartData[i], filtered, order, lapNumbers[i])
  {
    chartData := [];
    for k := 0 to |lapNumbers|
      invariant |chartData| == k
      invariant forall i :: 0 <= i < k ==> LapRowOf(chartData[i], filtered, order, lapNumbers[i])
    {
      var row := FillLapTimeRow(driverLaps, order, lapNumbers[k]);
      chartData := chartData + [row];
    }
  }

  /** The row for lap number `lap`: a field for each of the drivers, holding the cell of their
      group. */
  ghost predicate LapRowOf(row: LapTimeRow, filtered: seq<Lap>, drivers: seq<string>, lap: int)
  {
    row.lap == lap &&
    (forall d :: d in row.times <==> d in drivers) &&
    forall d :: d in row.times ==> row.times[d] == Cell(Group(filtered, LapDriver, d), lap)
  }

  /** A driver's group holds exactly their filtered laps, in order, so a cell is the time of the
      driver's first filtered lap with that number. */
  lemma GroupedLaps(laps: seq<Lap>, drivers: Option<seq<string>>, d: string)
    ensures forall l :: l in Group(Filtered(laps, drivers), LapDriver, d) <==>
              l in laps && l.driver == d && (drivers.None? || d in drivers.value)
  {
    FilteredExact(laps, drivers);
    GroupMembers(Filtered(laps, drivers), LapDriver, d);
  }
}
