/** The strategy analysis helpers of the backend: per-driver strategies from the stints of a race,
    the pit-lap histogram and its busiest windows, the ranking of strategies by finishing slot, the
    per-stint lap filters and the summary counts. */
module StrategyService {
  import opened Wrappers
  import opened Text
  import opened Sorting
  import opened Grouping
  import opened StintData
  import opened LapData

  // ---------------------------------------------------------------------------------------------
  // Per-driver strategies

  /** One driver's entry; `compoundsUsed` is the set of compounds seen (its list order is the
      order of a Python set and is not modelled). */
  datatype DriverStrategy = DriverStrategy(driver: string, numStops: int, stints: seq<Stint>,
                                           compoundsUsed: set<Option<string>>, totalLaps: int,
                                           strategyName: string)

  /** The running maximum of `end_lap`, starting from 0. */
  function TotalLaps(group: seq<Stint>): int
  {
    if group == [] then 0
    else
      var m := TotalLaps(group[..|group| - 1]);
      var last := group[|group| - 1].endLap;
      if m >= last then m else last
  }

  /** `total_laps` is the largest `end_lap` of the driver's stints, or 0 when every one is
      negative. */
  lemma {:induction false} TotalLapsIsMax(group: seq<Stint>)
    ensures TotalLaps(group) >= 0
    ensures forall i :: 0 <= i < |group| ==> group[i].endLap <= TotalLaps(group)
    ensures TotalLaps(group) == 0 || exists i :: 0 <= i < |group| && group[i].endLap == TotalLaps(group)
    decreases |group|
  {
    if group != [] {
      var init := group[..|group| - 1];
      TotalLapsIsMax(init);
      assert forall i :: 0 <= i < |init| ==> init[i] == group[i];
    }
  }

  /** The compounds added to the set, one per stint. */
  function CompoundsUsed(group: seq<Stint>): set<Option<string>>
  {
    if group == [] then {} else CompoundsUsed(group[..|group| - 1]) + {group[|group| - 1].compound}
  }

  /** `compounds_used` holds exactly the compounds of the driver's stints, a missing one included. */
  lemma {:induction false} CompoundsUsedMembers(group: seq<Stint>)
    ensures forall c :: c in CompoundsUsed(group) <==> exists i :: 0 <= i < |group| && group[i].compound == c
    decreases |group|
  {
    if group != [] {
      var init := group[..|group| - 1];
      CompoundsUsedMembers(init);
      assert forall i :: 0 <= i < |init| ==> init[i] == group[i];
    }
  }

  /** The present, non-empty compound names of the stints, in order (Python drops falsy names). */
  function NamedCompounds(sorted: seq<Stint>): (r: seq<string>)
    ensures |r| <= |sorted|
    ensures forall i :: 0 <= i < |r| ==> r[i] != ""
  {
    if sorted == [] then []
    else
      var c := sorted[|sorted| - 1].compound;
      NamedCompounds(sorted[..|sorted| - 1]) + (if c.Some? && c.value != "" then [c.value] else [])
  }

  /** "<stops>-stop (<compounds joined by ->)". */
  function StrategyName(numStops: nat, sorted: seq<Stint>): string
  {
    NatToString(numStops) + "-stop (" + Join(NamedCompounds(sorted), "-") + ")"
  }

  /** The entry accumulated while scanning the stints: stops and name are filled in later. */
  function Accumulated(driver: string, group: seq<Stint>): DriverStrategy
  {
    DriverStrategy(driver, 0, group, CompoundsUsed(group), TotalLaps(group), "")
  }

  /** The finished entry of a driver with the stints `group` (in input order). */
  function StrategyFor(driver: string, group: seq<Stint>): DriverStrategy
    requires group != []
  {
    var sorted := SortBy(group, StintNumber);
    DriverStrategy(driver, |group| - 1, sorted, CompoundsUsed(group), TotalLaps(group),
                   StrategyName(|group| - 1, sorted))
  }

  /** The finished entries in dictionary order, before the final sort. */
  function Strategies(stints: seq<Stint>): (r: seq<DriverStrategy>)
    ensures |r| == |Keys(stints, DriverOf)|
    ensures forall i :: 0 <= i < |r| ==> r[i].driver == Keys(stints, DriverOf)[i]
  {
    var ks := Keys(stints, DriverOf);
    KeyGroupsNonEmpty(stints, DriverOf);
    seq(|ks|, i requires 0 <= i < |ks| => StrategyFor(ks[i], Group(stints, DriverOf, ks[i])))
  }

  function NegTotalLaps(e: DriverStrategy): real { -(e.totalLaps as real) }

  /** Folding one more stint of the driver into the accumulated entry. */
  lemma AccumulateStep(driver: string, group: seq<Stint>, stint: Stint)
    ensures var data := Accumulated(driver, group);
      Accumulated(driver, group + [stint])
      == data.(stints := data.stints + [stint],
               compoundsUsed := data.compoundsUsed + {stint.compound},
               totalLaps := if data.totalLaps >= stint.endLap then data.totalLaps else stint.endLap)
  {
    assert (group + [stint])[..|group|] == group;
  }

  /** Every entry of `drivers` is the accumulation of its driver's stints in `prefix`. */
  ghost predicate AccumulatedAll(drivers: map<string, DriverStrategy>, prefix: seq<Stint>)
  {
    forall d :: d in drivers ==> drivers[d] == Accumulated(d, Group(prefix, DriverOf, d))
  }

  /** One iteration keeps every entry equal to its accumulation. */
  lemma AccumulatedAllStep(drivers: map<string, DriverStrategy>, prefix: seq<Stint>, stint: Stint)
    requires AccumulatedAll(drivers, prefix)
    requires stint.driver in drivers
    ensures var data := drivers[stint.driver];
      var totalLaps := if data.totalLaps >= stint.endLap then data.totalLaps else stint.endLap;
      AccumulatedAll(drivers[stint.driver := data.(stints := data.stints + [stint],
                                                   compoundsUsed := data.compoundsUsed + {stint.compound},
                                                   totalLaps := totalLaps)], prefix + [stint])
  {
    var driver, next := stint.driver, prefix + [stint];
    var data := drivers[driver];
    var totalLaps := if data.totalLaps >= stint.endLap then data.totalLaps else stint.endLap;
    var updated := drivers[driver := data.(stints := data.stints + [stint],
                                           compoundsUsed := data.compoundsUsed + {stint.compound},
                                           totalLaps := totalLaps)];
    assert next[..|prefix|] == prefix;
    forall d | d in updated ensures updated[d] == Accumulated(d, Group(next, DriverOf, d)) {
      if d == driver {
        assert Group(next, DriverOf, d) == Group(prefix, DriverOf, d) + [stint];
        AccumulateStep(driver, Group(prefix, DriverOf, driver), stint);
      } else {
        assert Group(next, DriverOf, d) == Group(prefix, DriverOf, d);
        assert updated[d] == drivers[d];
      }
    }
  }

  /** The first loop of `_analyze_driver_strategies`: one accumulated entry per driver, created
      on first sight and extended by each of the driver's stints. */
  method AccumulateByDriver(stints: seq<Stint>) returns (drivers: map<string, DriverStrategy>, order: seq<string>)
    ensures order == Keys(stints, DriverOf)
    ensures forall d :: d in drivers <==> d in order
    ensures AccumulatedAll(drivers, stints)
  {
    drivers, order := map[], [];
    ghost var seen: seq<Stint> := [];
    var i := 0;
    while i < |stints|
      invariant 0 <= i <= |stints| && seen == stints[..i]
      invariant order == Keys(seen, DriverOf)
      invariant forall d :: d in drivers <==> d in order
      invariant AccumulatedAll(drivers, seen)
    {
      var stint := stints[i];
      var driver := stint.driver;
      assert stints[..i + 1] == seen + [stint];
      KeysSnoc(seen, stint, DriverOf);
      if driver !in drivers {
        AccumulatedAllNew(drivers, seen, driver);
        drivers := drivers[driver := DriverStrategy(driver, 0, [], {}, 0, "")];
        order := order + [driver];
      }
      AccumulatedAllStep(drivers, seen, stint);
      var data := drivers[driver];
      var totalLaps := if data.totalLaps >= stint.endLap then data.totalLaps else stint.endLap;
      drivers := drivers[driver := data.(stints := data.stints + [stint],
                                         compoundsUsed := data.compoundsUsed + {stint.compound},
                                         totalLaps := totalLaps)];
      seen := seen + [stint];
      i := i + 1;
    }
    assert stints[..|stints|] == stints;
  }

  /** A driver not met so far starts with no stints, no compounds and 0 laps. */
  lemma AccumulatedAllNew(drivers: map<string, DriverStrategy>, prefix: seq<Stint>, driver: string)
    requires AccumulatedAll(drivers, prefix)
    requires driver !in Keys(prefix, DriverOf)
    ensures AccumulatedAll(drivers[driver := DriverStrategy(driver, 0, [], {}, 0, "")], prefix)
  {
    GroupEmpty(prefix, DriverOf, driver);
    var updated := drivers[driver := DriverStrategy(driver, 0, [], {}, 0, "")];
    forall d | d in updated ensures updated[d] == Accumulated(d, Group(prefix, DriverOf, d)) {
      if d != driver {
        assert updated[d] == drivers[d];
      }
    }
  }

  /** Finishing the accumulated entry of the k-th driver gives the k-th finished entry. */
  lemma FinishStep(stints: seq<Stint>, drivers: map<string, DriverStrategy>, k: nat)
    requires AccumulatedAll(drivers, stints)
    requires k < |Keys(stints, DriverOf)| && Keys(stints, DriverOf)[k] in drivers
    ensures var data := drivers[Keys(stints, DriverOf)[k]];
      var numStops := |data.stints| - 1;
      var sorted := SortBy(data.stints, StintNumber);
      numStops >= 0 &&
      data.(numStops := numStops, stints := sorted,
            strategyName := NatToString(numStops) + "-stop (" + Join(NamedCompounds(sorted), "-") + ")")
      == Strategies(stints)[k]
  {
    var d := Keys(stints, DriverOf)[k];
    KeyGroupsNonEmpty(stints, DriverOf);
    assert drivers[d] == Accumulated(d, Group(stints, DriverOf, d));
  }

  /** `_analyze_driver_strategies`: accumulates one entry per driver, finishes each entry (stop
      count, stints sorted by stint number, strategy name), and sorts the entries by total laps,
      largest first (a stable sort). */
  method AnalyzeDriverStrategies(stints: seq<Stint>) returns (r: seq<DriverStrategy>)
    ensures r == SortBy(Strategies(stints), NegTotalLaps)
  {
    var drivers, order := AccumulateByDriver(stints);
    var result: seq<DriverStrategy> := [];
    var k := 0;
    while k < |order|
      invariant 0 <= k <= |order|
      invariant result == Strategies(stints)[..k]
    {
      FinishStep(stints, drivers, k);
      var data := drivers[order[k]];
      var numStops := |data.stints| - 1;
      var sorted := SortBy(data.stints, StintNumber);
      data := data.(numStops := numStops, stints := sorted,
                    strategyName := NatToString(numStops) + "-stop (" + Join(NamedCompounds(sorted), "-") + ")");
      SliceSnoc(Strategies(stints), k);
      result := result + [data];
      k := k + 1;
    }
    assert Strategies(stints)[..|order|] == Strategies(stints);
    r := SortBy(result, NegTotalLaps);
  }

  /** A finished entry: stops = stints − 1, the driver's own stints reordered by ascending stint
      number, the largest end lap, exactly the compounds seen, and the strategy name. */
  lemma StrategyForFields(driver: string, group: seq<Stint>)
    requires group != []
    ensures var e := StrategyFor(driver, group);
      e.driver == driver && e.numStops == |group| - 1 && e.numStops >= 0 &&
      multiset(e.stints) == multiset(group) &&
      (forall i, j :: 0 <= i < j < |e.stints| ==> e.stints[i].stint <= e.stints[j].stint) &&
      e.totalLaps >= 0 && (forall i :: 0 <= i < |group| ==> group[i].endLap <= e.totalLaps) &&
      (e.totalLaps == 0 || exists i :: 0 <= i < |group| && group[i].endLap == e.totalLaps) &&
      (forall c :: c in e.compoundsUsed <==> exists i :: 0 <= i < |group| && group[i].compound == c) &&
      e.strategyName == StrategyName(e.numStops, e.stints)
  {
    SortByCorrect(group, StintNumber);
    TotalLapsIsMax(group);
    CompoundsUsedMembers(group);
  }

  /** The named compounds are the present, non-empty compounds of the stints. */
  lemma {:induction false} NamedCompoundsMembers(sorted: seq<Stint>, c: string)
    ensures c in NamedCompounds(sorted) <==>
            c != "" && exists i :: 0 <= i < |sorted| && sorted[i].compound == Some(c)
    decreases |sorted|
  {
    if sorted != [] {
      var init := sorted[..|sorted| - 1];
      NamedCompoundsMembers(init, c);
      assert forall i :: 0 <= i < |init| ==> init[i] == sorted[i];
      if exists i :: 0 <= i < |sorted| && sorted[i].compound == Some(c) {
        var i :| 0 <= i < |sorted| && sorted[i].compound == Some(c);
        if i < |init| {
          assert init[i].compound == Some(c);
        }
      }
    }
  }

  /** The name reads back: the stop count, then "-stop (", then the compounds, which a split on
      "-" recovers when no compound name contains a dash. */
  lemma StrategyNameLists(numStops: nat, sorted: seq<Stint>)
    requires NamedCompounds(sorted) != []
    requires forall i :: 0 <= i < |NamedCompounds(sorted)| ==> '-' !in NamedCompounds(sorted)[i]
    ensures var name, p := StrategyName(numStops, sorted), |NatToString(numStops)| + 7;
      p < |name| && name[..p] == NatToString(numStops) + "-stop (" && name[|name| - 1] == ')' &&
      Split(name[p..|name| - 1], '-') == NamedCompounds(sorted)
  {
    var cs := NamedCompounds(sorted);
    var head := NatToString(numStops) + "-stop (";
    var name := StrategyName(numStops, sorted);
    assert name == head + Join(cs, "-") + ")";
    assert name[..|head|] == head;
    assert name[|head|..|name| - 1] == Join(cs, "-");
    SplitJoin(cs, '-');
  }

  // ---------------------------------------------------------------------------------------------
  // The driver list

  /** The finished entries are pairwise different: their drivers are. */
  lemma StrategiesDistinct(stints: seq<Stint>)
    ensures Distinct(Strategies(stints))
  {
    KeysCorrect(stints, DriverOf);
  }

  /** Every entry of the sorted list is the finished entry of one of the drivers of the input. */
  lemma AnalyzedEntries(stints: seq<Stint>)
    ensures var r := SortBy(Strategies(stints), NegTotalLaps);
      |r| == |Keys(stints, DriverOf)| &&
      forall i :: 0 <= i < |r| ==>
        r[i].driver in Keys(stints, DriverOf) && Group(stints, DriverOf, r[i].driver) != [] &&
        r[i] == StrategyFor(r[i].driver, Group(stints, DriverOf, r[i].driver))
  {
    var l := Strategies(stints);
    var r := SortBy(l, NegTotalLaps);
    SortByPermutes(l, NegTotalLaps);
    KeyGroupsNonEmpty(stints, DriverOf);
    forall i | 0 <= i < |r|
      ensures r[i].driver in Keys(stints, DriverOf) && Group(stints, DriverOf, r[i].driver) != [] &&
              r[i] == StrategyFor(r[i].driver, Group(stints, DriverOf, r[i].driver))
    {
      assert r[i] in multiset(l);
      var p :| 0 <= p < |l| && l[p] == r[i];
    }
  }

  /** No driver appears twice in the sorted list. */
  lemma AnalyzedDriversDistinct(stints: seq<Stint>)
    ensures var r := SortBy(Strategies(stints), NegTotalLaps);
      forall i, j :: 0 <= i < j < |r| ==> r[i].driver != r[j].driver
  {
    var r := SortBy(Strategies(stints), NegTotalLaps);
    forall i, j | 0 <= i < j < |r| ensures r[i].driver != r[j].driver {
      EntriesDiffer(stints, i, j);
    }
  }

  lemma EntriesDiffer(stints: seq<Stint>, i: nat, j: nat)
    requires i < j < |SortBy(Strategies(stints), NegTotalLaps)|
    ensures SortBy(Strategies(stints), NegTotalLaps)[i].driver != SortBy(Strategies(stints), NegTotalLaps)[j].driver
  {
    var l := Strategies(stints);
    var r := SortBy(l, NegTotalLaps);
    var ks := Keys(stints, DriverOf);
    SortByPermutes(l, NegTotalLaps);
    var p := PermutedIndex(r, l, i);
    var q := PermutedIndex(r, l, j);
    if r[i].driver == r[j].driver {
      KeysDistinct(stints, DriverOf);
      assert ks[p] == ks[q];
      StrategiesDistinct(stints);
      RepeatedMultiplicity(r, i, j);
      DistinctMultiplicity(l, r[i]);
    }
  }

  /** Every driver with a stint gets an entry, and only those drivers do. */
  lemma AnalyzedDriversCovered(stints: seq<Stint>, d: string)
    ensures var r := SortBy(Strategies(stints), NegTotalLaps);
      (exists i :: 0 <= i < |r| && r[i].driver == d) <==> d in Keys(stints, DriverOf)
    ensures d in Keys(stints, DriverOf) <==> exists j :: 0 <= j < |stints| && stints[j].driver == d
  {
    KeysCorrect(stints, DriverOf);
    var r := SortBy(Strategies(stints), NegTotalLaps);
    if exists i :: 0 <= i < |r| && r[i].driver == d {
      var i :| 0 <= i < |r| && r[i].driver == d;
      EntryDriverListed(stints, i);
    }
    if d in Keys(stints, DriverOf) {
      var i := ListedDriverEntry(stints, d);
    }
  }

  lemma EntryDriverListed(stints: seq<Stint>, i: nat)
    requires i < |SortBy(Strategies(stints), NegTotalLaps)|
    ensures SortBy(Strategies(stints), NegTotalLaps)[i].driver in Keys(stints, DriverOf)
  {
    var l := Strategies(stints);
    var r := SortBy(l, NegTotalLaps);
    SortByPermutes(l, NegTotalLaps);
    var p := PermutedIndex(r, l, i);
  }

  lemma ListedDriverEntry(stints: seq<Stint>, d: string) returns (i: nat)
    requires d in Keys(stints, DriverOf)
    ensures i < |SortBy(Strategies(stints), NegTotalLaps)|
    ensures SortBy(Strategies(stints), NegTotalLaps)[i].driver == d
  {
    var l := Strategies(stints);
    var r := SortBy(l, NegTotalLaps);
    var ks := Keys(stints, DriverOf);
    SortByPermutes(l, NegTotalLaps);
    var p :| 0 <= p < |ks| && ks[p] == d;
    i := PermutedIndex(l, r, p);
  }

  /** The list runs from the most laps to the fewest; drivers with equal total laps keep the
      order in which their first stint appeared. */
  lemma AnalyzedOrder(stints: seq<Stint>)
    ensures var r := SortBy(Strategies(stints), NegTotalLaps);
      (forall i, j :: 0 <= i < j < |r| ==> r[i].totalLaps >= r[j].totalLaps) &&
      (forall k :: WithKey(r, NegTotalLaps, k) == WithKey(Strategies(stints), NegTotalLaps, k))
  {
    var r := SortBy(Strategies(stints), NegTotalLaps);
    SortByCorrect(Strategies(stints), NegTotalLaps);
    forall i, j | 0 <= i < j < |r| ensures r[i].totalLaps >= r[j].totalLaps {
      assert NegTotalLaps(r[i]) <= NegTotalLaps(r[j]);
    }
  }

  // ---------------------------------------------------------------------------------------------
  // Pit-stop timing

  function StartLapOf(s: Stint): int { s.startLap }

  /** The stints that begin with a pit stop: every stint numbered above 1, in input order. */
  function Pitted(stints: seq<Stint>): (r: seq<Stint>)
    ensures |r| <= |stints|
  {
    if stints == [] then []
    else
      var last := stints[|stints| - 1];
      Pitted(stints[..|stints| - 1]) + (if last.stint > 1 then [last] else [])
  }

  lemma {:induction false} PittedMembers(stints: seq<Stint>, x: Stint)
    ensures x in Pitted(stints) <==> x in stints && x.stint > 1
    decreases |stints|
  {
    if stints != [] {
      PittedMembers(stints[..|stints| - 1], x);
      assert stints == stints[..|stints| - 1] + [stints[|stints| - 1]];
    }
  }

  /** A `{"lap", "count"}` entry of the busiest pit windows. */
  datatype Window = Window(lap: int, count: nat)

  datatype PitStopTiming = PitStopTiming(pitStopsByLap: map<int, nat>, lapOrder: seq<int>,
                                         mostCommonWindows: seq<Window>)

  /** The `(lap, count)` items of the histogram, in dictionary order. */
  function LapCounts(pitted: seq<Stint>): (r: seq<Window>)
    ensures |r| == |Keys(pitted, StartLapOf)|
    ensures forall i :: 0 <= i < |r| ==> r[i].lap == Keys(pitted, StartLapOf)[i]
  {
    var ks := Keys(pitted, StartLapOf);
    seq(|ks|, i requires 0 <= i < |ks| => Window(ks[i], |Group(pitted, StartLapOf, ks[i])|))
  }

  function NegCount(w: Window): real { -(w.count as real) }

  /** The items sorted by count, largest first (a stable sort), cut to five. */
  function TopWindows(items: seq<Window>): seq<Window>
  {
    var sorted := SortBy(items, NegCount);
    if |sorted| <= 5 then sorted else sorted[..5]
  }

  /** The state of the counting loop after the pitted stints `pitted`. */
  ghost predicate PitCounted(byLap: map<int, nat>, order: seq<int>, pitted: seq<Stint>)
  {
    order == Keys(pitted, StartLapOf) &&
    (forall lap :: lap in byLap <==> lap in order) &&
    (forall lap :: lap in byLap ==> byLap[lap] == |Group(pitted, StartLapOf, lap)|)
  }

  /** Counting one more pitted stint, whose start lap was already listed or is listed now. */
  lemma PitCountStep(byLap: map<int, nat>, order: seq<int>, pitted: seq<Stint>, stint: Stint)
    requires PitCounted(byLap, order, pitted)
    ensures var lap := stint.startLap;
      var created := if lap in byLap then byLap else byLap[lap := 0];
      PitCounted(created[lap := created[lap] + 1], if lap in byLap then order else order + [lap], pitted + [stint])
  {
    var lap := stint.startLap;
    assert (pitted + [stint])[..|pitted|] == pitted;
    if lap !in byLap {
      GroupEmpty(pitted, StartLapOf, lap);
    }
  }

  /** The counting loop of `_analyze_pit_stop_timing`: a stint numbered above 1 adds one to the
      entry of its start lap, created at 0 on first sight. */
  method CountPitLaps(stints: seq<Stint>) returns (byLap: map<int, nat>, order: seq<int>)
    ensures order == Keys(Pitted(stints), StartLapOf)
    ensures forall lap :: lap in byLap <==> lap in order
    ensures forall lap :: lap in byLap ==> byLap[lap] == |Group(Pitted(stints), StartLapOf, lap)|
  {
    byLap, order := map[], [];
    ghost var pitted: seq<Stint> := [];
    for i := 0 to |stints|
      invariant pitted == Pitted(stints[..i])
      invariant PitCounted(byLap, order, pitted)
    {
      var stint := stints[i];
      SliceSnoc(stints, i);
      if stint.stint > 1 {
        byLap, order := CountPitStop(byLap, order, pitted, stint);
        pitted := pitted + [stint];
      }
    }
    assert stints[..|stints|] == stints;
  }

  /** The loop body for a pitted stint: the entry of its start lap, created at 0 on first sight,
      goes up by one. */
  method CountPitStop(byLap: map<int, nat>, order: seq<int>, ghost pitted: seq<Stint>, stint: Stint)
    returns (byLap': map<int, nat>, order': seq<int>)
    requires PitCounted(byLap, order, pitted)
    ensures PitCounted(byLap', order', pitted + [stint])
  {
    byLap', order' := byLap, order;
    var lap := stint.startLap;
    PitCountStep(byLap, order, pitted, stint);
    if lap !in byLap' {
      byLap' := byLap'[lap := 0];
      order' := order' + [lap];
    }
    byLap' := byLap'[lap := byLap'[lap] + 1];
  }

  /** `_analyze_pit_stop_timing`: the histogram of pit laps and its five busiest laps. */
  method AnalyzePitStopTiming(stints: seq<Stint>) returns (t: PitStopTiming)
    ensures t.lapOrder == Keys(Pitted(stints), StartLapOf)
    ensures forall lap :: lap in t.pitStopsByLap <==> lap in t.lapOrder
    ensures forall lap :: lap in t.pitStopsByLap ==>
              t.pitStopsByLap[lap] == |Group(Pitted(stints), StartLapOf, lap)|
    ensures t.mostCommonWindows == TopWindows(LapCounts(Pitted(stints)))
  {
    var byLap, order := CountPitLaps(stints);
    forall j | 0 <= j < |order| ensures order[j] in byLap {
      var lap := order[j];
      assert lap in order;
    }
    var items := seq(|order|, j requires 0 <= j < |order| => Window(order[j], byLap[order[j]]));
    assert |items| == |LapCounts(Pitted(stints))|;
    forall j | 0 <= j < |items| ensures items[j] == LapCounts(Pitted(stints))[j] {
    }
    assert items == LapCounts(Pitted(stints));
    t := PitStopTiming(byLap, order, TopWindows(items));
  }

  /** The histogram counts every stint numbered above 1, once, under its start lap. */
  lemma PitLapCountsComplete(stints: seq<Stint>)
    ensures SumSizes(Pitted(stints), StartLapOf, Keys(Pitted(stints), StartLapOf)) == |Pitted(stints)|
    ensures forall x :: x in stints && x.stint > 1 ==> x in Group(Pitted(stints), StartLapOf, x.startLap)
    ensures forall x :: x in Pitted(stints) ==> x in stints && x.stint > 1
  {
    GroupSizesSum(Pitted(stints), StartLapOf);
    forall x | x in stints && x.stint > 1
      ensures x in Group(Pitted(stints), StartLapOf, x.startLap)
    {
      PittedMembers(stints, x);
      GroupMembers(Pitted(stints), StartLapOf, x.startLap);
    }
    forall x | x in Pitted(stints) ensures x in stints && x.stint > 1 {
      PittedMembers(stints, x);
    }
  }

  /** Each busiest window is a lap of the histogram with its own count. */
  lemma SortedWindowIsItem(pitted: seq<Stint>, i: nat)
    requires i < |SortBy(LapCounts(pitted), NegCount)|
    ensures var w := SortBy(LapCounts(pitted), NegCount)[i];
      w.lap in Keys(pitted, StartLapOf) && w.count == |Group(pitted, StartLapOf, w.lap)| && w.count >= 1
  {
    var items := LapCounts(pitted);
    SortByPermutes(items, NegCount);
    var p := PermutedIndex(SortBy(items, NegCount), items, i);
    KeyGroupsNonEmpty(pitted, StartLapOf);
  }

  lemma TopWindowsPrefix(items: seq<Window>)
    ensures |TopWindows(items)| <= |SortBy(items, NegCount)|
    ensures TopWindows(items) == SortBy(items, NegCount)[..|TopWindows(items)|]
  {
  }

  /** At most five windows, as many as there are pit laps up to five, busiest first; each is a
      pit lap with its count. */
  lemma CommonWindowsShape(stints: seq<Stint>)
    ensures var pitted := Pitted(stints);
      var w := TopWindows(LapCounts(pitted));
      var n := |Keys(pitted, StartLapOf)|;
      |w| == (if n <= 5 then n else 5) &&
      (forall i, j :: 0 <= i < j < |w| ==> w[i].count >= w[j].count) &&
      (forall i :: 0 <= i < |w| ==>
        w[i].lap in Keys(pitted, StartLapOf) && w[i].count == |Group(pitted, StartLapOf, w[i].lap)| &&
        w[i].count >= 1)
  {
    var pitted := Pitted(stints);
    var w := TopWindows(LapCounts(pitted));
    TopWindowsOrdered(LapCounts(pitted));
    forall i | 0 <= i < |w|
      ensures w[i].lap in Keys(pitted, StartLapOf) && w[i].count == |Group(pitted, StartLapOf, w[i].lap)| &&
              w[i].count >= 1
    {
      TopWindowsPrefix(LapCounts(pitted));
      SortedWindowIsItem(pitted, i);
    }
  }

  /** The windows number the items up to five and are ordered by count, largest first. */
  lemma TopWindowsOrdered(items: seq<Window>)
    ensures |TopWindows(items)| == (if |items| <= 5 then |items| else 5)
    ensures forall i, j :: 0 <= i < j < |TopWindows(items)| ==> TopWindows(items)[i].count >= TopWindows(items)[j].count
  {
    var sorted := SortBy(items, NegCount);
    var w := TopWindows(items);
    SortBySorted(items, NegCount);
    TopWindowsPrefix(items);
    forall i, j | 0 <= i < j < |w| ensures w[i].count >= w[j].count {
      assert NegCount(sorted[i]) <= NegCount(sorted[j]);
    }
  }

  /** The windows are the busiest laps: a pit lap left out was used by no more cars than any
      window. */
  lemma CommonWindowsBusiest(stints: seq<Stint>, lap: int)
    requires lap in Keys(Pitted(stints), StartLapOf)
    requires forall i :: 0 <= i < |TopWindows(LapCounts(Pitted(stints)))| ==>
               TopWindows(LapCounts(Pitted(stints)))[i].lap != lap
    ensures forall i :: 0 <= i < |TopWindows(LapCounts(Pitted(stints)))| ==>
              |Group(Pitted(stints), StartLapOf, lap)| <= TopWindows(LapCounts(Pitted(stints)))[i].count
  {
    var pitted := Pitted(stints);
    var ks := Keys(pitted, StartLapOf);
    var items := LapCounts(pitted);
    var sorted := SortBy(items, NegCount);
    var w := TopWindows(items);
    SortBySorted(items, NegCount);
    var p :| 0 <= p < |ks| && ks[p] == lap;
    var q := PermutedIndex(items, sorted, p);
    assert sorted[q].lap == lap;
    TopWindowsPrefix(items);
    forall i | 0 <= i < |w| ensures sorted[i].lap != lap {
      assert w[i] == sorted[i];
    }
    assert q >= |w|;
    forall i | 0 <= i < |w| ensures |Group(pitted, StartLapOf, lap)| <= w[i].count {
      assert NegCount(sorted[i]) <= NegCount(sorted[q]);
    }
  }

  // ---------------------------------------------------------------------------------------------
  // Strategies ranked by finishing slot

  /** A strategy with the drivers who ran it, how many did, and the mean of their 1-based places
      in the driver list (the field holds the sum of places until the averaging loop). */
  datatype StrategyGroup = StrategyGroup(strategy: string, drivers: seq<string>,
                                         avgFinishingPosition: real, count: nat)

  datatype OptimalStrategies = OptimalStrategies(bestStrategy: Option<StrategyGroup>,
                                                 allStrategies: seq<StrategyGroup>)

  function NameOf(e: DriverStrategy): string { e.strategyName }

  /** The sum of the 1-based places of the entries whose strategy is `name`. */
  function PositionSum(entries: seq<DriverStrategy>, name: string): nat
  {
    if entries == [] then 0
    else PositionSum(entries[..|entries| - 1], name) + (if entries[|entries| - 1].strategyName == name then |entries| else 0)
  }

  function DriverNames(group: seq<DriverStrategy>): seq<string>
  {
    if group == [] then [] else DriverNames(group[..|group| - 1]) + [group[|group| - 1].driver]
  }

  lemma {:induction false} DriverNamesListed(group: seq<DriverStrategy>)
    ensures |DriverNames(group)| == |group|
    ensures forall i :: 0 <= i < |group| ==> DriverNames(group)[i] == group[i].driver
    decreases |group|
  {
    if group != [] {
      DriverNamesListed(group[..|group| - 1]);
    }
  }

  /** The group of `name` after the first loop: drivers, sum of places, count. */
  function Summed(entries: seq<DriverStrategy>, name: string): StrategyGroup
  {
    var g := Group(entries, NameOf, name);
    StrategyGroup(name, DriverNames(g), PositionSum(entries, name) as real, |g|)
  }

  /** The group of a strategy that occurs, after averaging. */
  function Averaged(entries: seq<DriverStrategy>, name: string): StrategyGroup
    requires Group(entries, NameOf, name) != []
  {
    var g := Group(entries, NameOf, name);
    StrategyGroup(name, DriverNames(g), PositionSum(entries, name) as real / |g| as real, |g|)
  }

  /** The averaged groups in dictionary order (first appearance of each strategy). */
  function StrategyGroups(entries: seq<DriverStrategy>): (r: seq<StrategyGroup>)
    ensures |r| == |Keys(entries, NameOf)|
    ensures forall i :: 0 <= i < |r| ==> r[i].strategy == Keys(entries, NameOf)[i]
  {
    var ks := Keys(entries, NameOf);
    KeyGroupsNonEmpty(entries, NameOf);
    seq(|ks|, i requires 0 <= i < |ks| => Averaged(entries, ks[i]))
  }

  function AvgKey(g: StrategyGroup): real { g.avgFinishingPosition }

  ghost predicate SummedAll(groups: map<string, StrategyGroup>, prefix: seq<DriverStrategy>)
  {
    forall name :: name in groups ==> groups[name] == Summed(prefix, name)
  }

  /** Crediting the next driver (place |prefix| + 1) to its strategy's group. */
  lemma SummedAllStep(groups: map<string, StrategyGroup>, prefix: seq<DriverStrategy>, e: DriverStrategy, i: nat)
    requires SummedAll(groups, prefix)
    requires e.strategyName in groups && i == |prefix|
    ensures var data := groups[e.strategyName];
      SummedAll(groups[e.strategyName := data.(drivers := data.drivers + [e.driver],
                                               avgFinishingPosition := data.avgFinishingPosition + (i + 1) as real,
                                               count := data.count + 1)], prefix + [e])
  {
    var name, next := e.strategyName, prefix + [e];
    var data := groups[name];
    var updated := groups[name := data.(drivers := data.drivers + [e.driver],
                                        avgFinishingPosition := data.avgFinishingPosition + (|prefix| + 1) as real,
                                        count := data.count + 1)];
    assert next[..|prefix|] == prefix;
    forall n | n in updated ensures updated[n] == Summed(next, n) {
      if n == name {
        assert Group(next, NameOf, n) == Group(prefix, NameOf, n) + [e];
        assert DriverNames(Group(next, NameOf, n)) == DriverNames(Group(prefix, NameOf, n)) + [e.driver];
      } else {
        assert Group(next, NameOf, n) == Group(prefix, NameOf, n);
        assert updated[n] == groups[n];
      }
    }
  }

  /** The state of the first loop after the entries of `prefix`: one group per strategy met, in
      order of first appearance, each holding the sums of its members so far. */
  ghost predicate Tallied(groups: map<string, StrategyGroup>, order: seq<string>, prefix: seq<DriverStrategy>)
  {
    order == Keys(prefix, NameOf) &&
    (forall name :: name in groups <==> name in order) &&
    SummedAll(groups, prefix)
  }

  /** The loop body for a strategy met for the first time: create its group, then credit it. */
  lemma TallyNew(groups: map<string, StrategyGroup>, order: seq<string>, prefix: seq<DriverStrategy>,
                 e: DriverStrategy, i: nat)
    requires Tallied(groups, order, prefix) && i == |prefix|
    requires e.strategyName !in groups
    ensures var created := groups[e.strategyName := StrategyGroup(e.strategyName, [], 0.0, 0)];
      var data := created[e.strategyName];
      Tallied(created[e.strategyName := data.(drivers := data.drivers + [e.driver],
                                              avgFinishingPosition := data.avgFinishingPosition + (i + 1) as real,
                                              count := data.count + 1)],
              order + [e.strategyName], prefix + [e])
  {
    KeysSnoc(prefix, e, NameOf);
    SummedAllNew(groups, prefix, e.strategyName);
    SummedAllStep(groups[e.strategyName := StrategyGroup(e.strategyName, [], 0.0, 0)], prefix, e, i);
  }

  /** The loop body for a strategy already grouped: credit it. */
  lemma TallyKnown(groups: map<string, StrategyGroup>, order: seq<string>, prefix: seq<DriverStrategy>,
                   e: DriverStrategy, i: nat)
    requires Tallied(groups, order, prefix) && i == |prefix|
    requires e.strategyName in groups
    ensures var data := groups[e.strategyName];
      Tallied(groups[e.strategyName := data.(drivers := data.drivers + [e.driver],
                                             avgFinishingPosition := data.avgFinishingPosition + (i + 1) as real,
                                             count := data.count + 1)],
              order, prefix + [e])
  {
    KeysSnoc(prefix, e, NameOf);
    SummedAllStep(groups, prefix, e, i);
  }

  /** The first loop of `_identify_optimal_strategies`: the group of each strategy, created on
      first sight, collects the driver, adds the place and counts one. */
  method GroupByStrategy(entries: seq<DriverStrategy>) returns (groups: map<string, StrategyGroup>, order: seq<string>)
    ensures order == Keys(entries, NameOf)
    ensures forall name :: name in groups <==> name in order
    ensures SummedAll(groups, entries)
  {
    groups, order := map[], [];
    for i := 0 to |entries|
      invariant Tallied(groups, order, entries[..i])
    {
      SliceSnoc(entries, i);
      groups, order := CreditDriver(groups, order, entries[..i], entries[i], i);
    }
    assert entries[..|entries|] == entries;
  }

  /** The loop body: create the strategy's group on first sight, then credit the driver in
      place i + 1 to it. */
  method CreditDriver(groups: map<string, StrategyGroup>, order: seq<string>, ghost seen: seq<DriverStrategy>,
                      e: DriverStrategy, i: nat)
    returns (groups': map<string, StrategyGroup>, order': seq<string>)
    requires Tallied(groups, order, seen) && i == |seen|
    ensures Tallied(groups', order', seen + [e])
  {
    groups', order' := groups, order;
    var name := e.strategyName;
    if name !in groups' {
      TallyNew(groups', order', seen, e, i);
      groups' := groups'[name := StrategyGroup(name, [], 0.0, 0)];
      order' := order' + [name];
    } else {
      TallyKnown(groups', order', seen, e, i);
    }
    var data := groups'[name];
    groups' := groups'[name := data.(drivers := data.drivers + [e.driver],
                                     avgFinishingPosition := data.avgFinishingPosition + (i + 1) as real,
                                     count := data.count + 1)];
  }

  /** A strategy not met so far starts with no drivers, no places and a count of 0. */
  lemma SummedAllNew(groups: map<string, StrategyGroup>, prefix: seq<DriverStrategy>, name: string)
    requires SummedAll(groups, prefix)
    requires name !in Keys(prefix, NameOf)
    ensures SummedAll(groups[name := StrategyGroup(name, [], 0.0, 0)], prefix)
  {
    GroupEmpty(prefix, NameOf, name);
    PositionSumEmpty(prefix, name);
    var updated := groups[name := StrategyGroup(name, [], 0.0, 0)];
    forall n | n in updated ensures updated[n] == Summed(prefix, n) {
      if n != name {
        assert updated[n] == groups[n];
      }
    }
  }

  lemma {:induction false} PositionSumEmpty(entries: seq<DriverStrategy>, name: string)
    requires Group(entries, NameOf, name) == []
    ensures PositionSum(entries, name) == 0
    decreases |entries|
  {
    if entries != [] {
      PositionSumEmpty(entries[..|entries| - 1], name);
    }
  }

  /** The state of the averaging loop after k groups: those are averaged, the rest still summed. */
  ghost predicate AveragedUpTo(averaged: map<string, StrategyGroup>, entries: seq<DriverStrategy>,
                               order: seq<string>, k: nat)
  {
    k <= |order| &&
    (forall name :: name in averaged <==> name in order) &&
    (forall j :: 0 <= j < |order| ==> Group(entries, NameOf, order[j]) != []) &&
    (forall j :: 0 <= j < k ==> averaged[order[j]] == Averaged(entries, order[j])) &&
    (forall j :: k <= j < |order| ==> averaged[order[j]] == Summed(entries, order[j]))
  }

  /** Dividing the next group's sum of places by its count. */
  lemma AveragedStep(averaged: map<string, StrategyGroup>, entries: seq<DriverStrategy>, order: seq<string>, k: nat)
    requires AveragedUpTo(averaged, entries, order, k) && k < |order| && Distinct(order)
    ensures var data := averaged[order[k]];
      AveragedUpTo(averaged[order[k] := data.(avgFinishingPosition := data.avgFinishingPosition / data.count as real)],
                   entries, order, k + 1)
  {
    assert order[k] in order;
  }

  /** The averaging loop: each group's sum of places is divided by its count, in dictionary order. */
  method AverageGroups(entries: seq<DriverStrategy>, groups: map<string, StrategyGroup>, order: seq<string>)
    returns (averaged: map<string, StrategyGroup>)
    requires order == Keys(entries, NameOf)
    requires forall name :: name in groups <==> name in order
    requires SummedAll(groups, entries)
    ensures forall name :: name in averaged <==> name in order
    ensures forall j :: 0 <= j < |order| ==>
              Group(entries, NameOf, order[j]) != [] && averaged[order[j]] == Averaged(entries, order[j])
  {
    KeysDistinct(entries, NameOf);
    KeyGroupsNonEmpty(entries, NameOf);
    averaged := groups;
    var k := 0;
    while k < |order|
      invariant AveragedUpTo(averaged, entries, order, k)
    {
      AveragedStep(averaged, entries, order, k);
      var data := averaged[order[k]];
      averaged := averaged[order[k] := data.(avgFinishingPosition := data.avgFinishingPosition / data.count as real)];
      k := k + 1;
    }
  }

  /** `_identify_optimal_strategies`: groups the drivers by strategy, turns each sum of places
      into a mean, ranks the groups by ascending mean (a stable sort) and names the first. */
  method IdentifyOptimalStrategies(entries: seq<DriverStrategy>) returns (r: OptimalStrategies)
    ensures r.allStrategies == SortBy(StrategyGroups(entries), AvgKey)
    ensures r.bestStrategy == if r.allStrategies == [] then None else Some(r.allStrategies[0])
    ensures r.bestStrategy.None? <==> entries == []
    ensures forall i, j :: 0 <= i < j < |r.allStrategies| ==>
              r.allStrategies[i].avgFinishingPosition <= r.allStrategies[j].avgFinishingPosition
  {
    var summed, order := GroupByStrategy(entries);
    var groups := AverageGroups(entries, summed, order);
    forall j | 0 <= j < |order| ensures order[j] in groups {
      var name := order[j];
      assert name in order;
    }
    var values := seq(|order|, j requires 0 <= j < |order| => groups[order[j]]);
    assert |values| == |StrategyGroups(entries)|;
    forall j | 0 <= j < |values| ensures values[j] == StrategyGroups(entries)[j] {
    }
    assert values == StrategyGroups(entries);
    var ranked := SortBy(values, AvgKey);
    SortBySorted(values, AvgKey);
    KeysNonEmpty(entries, NameOf);
    r := OptimalStrategies(if ranked == [] then None else Some(ranked[0]), ranked);
  }

  function CountOf(g: StrategyGroup): int { g.count }

  /** Every driver is counted in exactly one group: the counts of the ranked groups add up to the
      number of drivers. */
  lemma OptimalCountsSum(entries: seq<DriverStrategy>)
    ensures SumOf(SortBy(StrategyGroups(entries), AvgKey), CountOf) == |entries|
  {
    var groups, ks := StrategyGroups(entries), Keys(entries, NameOf);
    SortByPermutes(groups, AvgKey);
    SumOfPermutation(SortBy(groups, AvgKey), groups, CountOf);
    GroupCountsPrefix(entries, |groups|);
    assert groups[..|groups|] == groups;
    assert ks[..|groups|] == ks;
    GroupSizesSum(entries, NameOf);
  }

  lemma {:induction false} GroupCountsPrefix(entries: seq<DriverStrategy>, n: nat)
    requires n <= |Keys(entries, NameOf)|
    ensures SumOf(StrategyGroups(entries)[..n], CountOf) == SumSizes(entries, NameOf, Keys(entries, NameOf)[..n])
    decreases n
  {
    if n > 0 {
      var groups, ks := StrategyGroups(entries), Keys(entries, NameOf);
      GroupCountsPrefix(entries, n - 1);
      GroupCountAt(entries, n - 1);
      SumOfPrefixStep(groups, n, CountOf);
      assert ks[..n][..n - 1] == ks[..n - 1];
    }
  }

  lemma GroupCountAt(entries: seq<DriverStrategy>, i: nat)
    requires i < |Keys(entries, NameOf)|
    ensures CountOf(StrategyGroups(entries)[i]) == |Group(entries, NameOf, Keys(entries, NameOf)[i])|
  {
    KeyGroupsNonEmpty(entries, NameOf);
  }

  /** The ranked groups are the averaged groups of the strategies that occur, each once. */
  lemma RankedGroups(entries: seq<DriverStrategy>)
    ensures var ranked := SortBy(StrategyGroups(entries), AvgKey);
      |ranked| == |Keys(entries, NameOf)| &&
      forall i :: 0 <= i < |ranked| ==>
        ranked[i].strategy in Keys(entries, NameOf) && Group(entries, NameOf, ranked[i].strategy) != [] &&
        ranked[i] == Averaged(entries, ranked[i].strategy)
  {
    var groups := StrategyGroups(entries);
    var ranked := SortBy(groups, AvgKey);
    SortByPermutes(groups, AvgKey);
    KeyGroupsNonEmpty(entries, NameOf);
    forall i | 0 <= i < |ranked|
      ensures ranked[i].strategy in Keys(entries, NameOf) && Group(entries, NameOf, ranked[i].strategy) != [] &&
              ranked[i] == Averaged(entries, ranked[i].strategy)
    {
      var p := PermutedIndex(ranked, groups, i);
    }
  }

  /** The places of a strategy's drivers lie between 1 and the number of drivers. */
  lemma {:induction false} PositionSumBounds(entries: seq<DriverStrategy>, name: string)
    ensures |Group(entries, NameOf, name)| <= PositionSum(entries, name)
    ensures PositionSum(entries, name) <= |Group(entries, NameOf, name)| * |entries|
    decreases |entries|
  {
    if entries != [] {
      var init := entries[..|entries| - 1];
      PositionSumBounds(init, name);
      SumBoundStep(|Group(init, NameOf, name)|, PositionSum(init, name), |init|);
    }
  }

  /** Adding place n + 1 to a sum of c places each at most n keeps every place at most n + 1. */
  lemma SumBoundStep(c: nat, sum: nat, n: nat)
    requires sum <= c * n
    ensures sum <= c * (n + 1)
    ensures sum + (n + 1) <= (c + 1) * (n + 1)
  {
  }

  /** A mean finishing slot lies between 1 and the number of drivers. */
  lemma AverageBounds(entries: seq<DriverStrategy>, name: string)
    requires Group(entries, NameOf, name) != []
    ensures 1.0 <= Averaged(entries, name).avgFinishingPosition <= |entries| as real
  {
    PositionSumBounds(entries, name);
    var c := |Group(entries, NameOf, name)|;
    var sum := PositionSum(entries, name);
    MeanBetween(sum, c, 1, |entries|);
  }

  /** A sum of c values, each between lo and hi, has its mean between lo and hi. */
  lemma MeanBetween(sum: int, c: nat, lo: int, hi: int)
    requires 0 < c && lo * c <= sum <= hi * c
    ensures lo as real <= sum as real / c as real <= hi as real
  {
    var a, cr := sum as real / c as real, c as real;
    assert a * cr == sum as real;
    assert (lo * c) as real == lo as real * cr && (hi * c) as real == hi as real * cr;
    assert (lo as real - a) * cr == lo as real * cr - sum as real;
    assert (a - hi as real) * cr == sum as real - hi as real * cr;
    assert lo as real - a > 0.0 ==> (lo as real - a) * cr > 0.0;
    assert a - hi as real > 0.0 ==> (a - hi as real) * cr > 0.0;
  }

  /** A group lists its drivers in input order, one per counted driver, each of whom ran the
      strategy. */
  lemma GroupDrivers(entries: seq<DriverStrategy>, name: string)
    requires Group(entries, NameOf, name) != []
    ensures var g := Averaged(entries, name);
      |g.drivers| == g.count &&
      forall k :: 0 <= k < |g.drivers| ==>
        exists i :: 0 <= i < |entries| && entries[i].driver == g.drivers[k] && entries[i].strategyName == name
  {
    var group := Group(entries, NameOf, name);
    DriverNamesListed(group);
    GroupMembers(entries, NameOf, name);
    forall k | 0 <= k < |group|
      ensures exists i :: 0 <= i < |entries| && entries[i].driver == group[k].driver && entries[i].strategyName == name
    {
      assert group[k] in group;
      var i :| 0 <= i < |entries| && entries[i] == group[k];
    }
  }

  // ---------------------------------------------------------------------------------------------
  // The laps of a stint: tyre degradation and stint performance

  /** A lap belongs to a stint when its number lies between the stint's first and last lap. */
  predicate InStint(stint: Stint, lap: Lap)
  {
    stint.startLap <= lap.lapNumber <= stint.endLap
  }

  /** The laps of the stint, in input order. */
  function StintLaps(stint: Stint, laps: seq<Lap>): seq<Lap>
  {
    if laps == [] then []
    else StintLaps(stint, laps[..|laps| - 1]) + (if InStint(stint, laps[|laps| - 1]) then [laps[|laps| - 1]] else [])
  }

  /** The recorded times of the laps, in order; laps without a time are skipped. */
  function ValidTimes(laps: seq<Lap>): seq<int>
  {
    if laps == [] then []
    else
      var t := laps[|laps| - 1].lapTime;
      ValidTimes(laps[..|laps| - 1]) + (if t.Some? then [t.value] else [])
  }

  /** Exactly the laps of the input whose number is within the stint's range are kept. */
  lemma {:induction false} StintLapsMembers(stint: Stint, laps: seq<Lap>)
    ensures |StintLaps(stint, laps)| <= |laps|
    ensures forall lap :: lap in StintLaps(stint, laps) <==> lap in laps && InStint(stint, lap)
    decreases |laps|
  {
    if laps != [] {
      StintLapsMembers(stint, laps[..|laps| - 1]);
      assert laps == laps[..|laps| - 1] + [laps[|laps| - 1]];
    }
  }

  /** The valid times are the times of the timed laps, one per timed lap. */
  lemma {:induction false} ValidTimesMembers(laps: seq<Lap>)
    ensures |ValidTimes(laps)| <= |laps|
    ensures forall t :: t in ValidTimes(laps) <==> Some(t) in LapTimes(laps)
    decreases |laps|
  {
    if laps != [] {
      var init := laps[..|laps| - 1];
      ValidTimesMembers(init);
      assert LapTimes(laps) == LapTimes(init) + [laps[|laps| - 1].lapTime];
      assert ValidTimes(laps) == ValidTimes(init) + (if laps[|laps| - 1].lapTime.Some? then [laps[|laps| - 1].lapTime.value] else []);
    }
  }

  /** The time field of every lap, recorded or not. */
  function LapTimes(laps: seq<Lap>): (r: seq<Option<int>>)
    ensures |r| == |laps| && forall i :: 0 <= i < |laps| ==> r[i] == laps[i].lapTime
  {
    seq(|laps|, i requires 0 <= i < |laps| => laps[i].lapTime)
  }

  function Id(t: int): int { t }

  /** `_analyze_tire_degradation`'s entry for one stint; lap times stay in the input unit, so the
      per-lap and mean figures are exact ratios. */
  datatype StintDegradation = StintDegradation(stint: int, compound: Option<string>, numLaps: nat,
                                               firstLapTime: int, lastLapTime: int, totalDegradation: int,
                                               degradationPerLap: real, avgLapTime: real)

  /** The entry of one stint: present only with at least three timed laps in the stint. */
  function Degradation(stint: Stint, laps: seq<Lap>): Option<StintDegradation>
  {
    var times := ValidTimes(StintLaps(stint, laps));
    if |times| >= 3 then
      var first, last := times[0], times[|times| - 1];
      Some(StintDegradation(stint.stint, stint.compound, |times|, first, last, last - first,
                            (last - first) as real / |times| as real,
                            SumOf(times, Id) as real / |times| as real))
    else None
  }

  /** The entries of the stints that have one, in stint order. */
  function Degradations(stints: seq<Stint>, laps: seq<Lap>): seq<StintDegradation>
  {
    if stints == [] then []
    else
      var d := Degradation(stints[|stints| - 1], laps);
      Degradations(stints[..|stints| - 1], laps) + (if d.Some? then [d.value] else [])
  }

  /** `_analyze_tire_degradation`: one pass over the stints, appending the entry of each stint
      with enough timed laps. */
  method AnalyzeTireDegradation(stints: seq<Stint>, laps: seq<Lap>) returns (degradation: seq<StintDegradation>)
    ensures degradation == Degradations(stints, laps)
  {
    degradation := [];
    var i := 0;
    while i < |stints|
      invariant 0 <= i <= |stints|
      invariant degradation == Degradations(stints[..i], laps)
    {
      var stint := stints[i];
      var lapTimes := ValidTimes(StintLaps(stint, laps));
      if |lapTimes| >= 3 {
        var first, last := lapTimes[0], lapTimes[|lapTimes| - 1];
        degradation := degradation + [StintDegradation(stint.stint, stint.compound, |lapTimes|, first, last,
                                                       last - first, (last - first) as real / |lapTimes| as real,
                                                       SumOf(lapTimes, Id) as real / |lapTimes| as real)];
      }
      assert stints[..i + 1][..i] == stints[..i];
      i := i + 1;
    }
    assert stints[..|stints|] == stints;
  }

  /** A stint has an entry exactly when at least three of the laps numbered within its range carry
      a time; the entry then spans those laps, from the first to the last of them in input order. */
  lemma DegradationPresence(stint: Stint, laps: seq<Lap>)
    ensures Degradation(stint, laps).Some? <==> |ValidTimes(StintLaps(stint, laps))| >= 3
    ensures Degradation(stint, laps).Some? ==>
      var e := Degradation(stint, laps).value;
      e.numLaps >= 3 && e.stint == stint.stint && e.compound == stint.compound &&
      e.totalDegradation == e.lastLapTime - e.firstLapTime &&
      (exists lap :: lap in laps && InStint(stint, lap) && lap.lapTime == Some(e.firstLapTime)) &&
      (exists lap :: lap in laps && InStint(stint, lap) && lap.lapTime == Some(e.lastLapTime))
  {
    var inStint := StintLaps(stint, laps);
    var times := ValidTimes(inStint);
    if |times| >= 3 {
      StintLapsMembers(stint, laps);
      ValidTimesMembers(inStint);
      var first := TimedLapOf(inStint, times[0]);
      var last := TimedLapOf(inStint, times[|times| - 1]);
      assert first in laps && InStint(stint, first);
      assert last in laps && InStint(stint, last);
    }
  }

  /** A valid time is the time of one of the laps. */
  lemma TimedLapOf(laps: seq<Lap>, t: int) returns (lap: Lap)
    requires t in ValidTimes(laps)
    ensures lap in laps && lap.lapTime == Some(t)
  {
    ValidTimesMembers(laps);
    var times := LapTimes(laps);
    assert Some(t) in times;
    var i :| 0 <= i < |times| && times[i] == Some(t);
    lap := laps[i];
  }

  /** Each entry belongs to a stint of the input, and every stint with three or more timed laps
      has its entry, in stint order. */
  lemma {:induction false} DegradationsOfStints(stints: seq<Stint>, laps: seq<Lap>)
    ensures |Degradations(stints, laps)| <= |stints|
    ensures forall e :: e in Degradations(stints, laps) ==>
              exists s :: s in stints && Degradation(s, laps) == Some(e)
    ensures forall s :: s in stints && Degradation(s, laps).Some? ==> Degradation(s, laps).value in Degradations(stints, laps)
    decreases |stints|
  {
    if stints != [] {
      var init := stints[..|stints| - 1];
      DegradationsOfStints(init, laps);
      assert stints == init + [stints[|stints| - 1]];
    }
  }

  /** The smallest of the times. */
  function MinOf(ts: seq<int>): (r: int)
    requires ts != []
    ensures r in ts && forall i :: 0 <= i < |ts| ==> r <= ts[i]
  {
    if |ts| == 1 then ts[0]
    else
      var m := MinOf(ts[..|ts| - 1]);
      assert forall i :: 0 <= i < |ts| - 1 ==> ts[..|ts| - 1][i] == ts[i];
      if ts[|ts| - 1] < m then ts[|ts| - 1] else m
  }

  /** The largest of the times. */
  function MaxOf(ts: seq<int>): (r: int)
    requires ts != []
    ensures r in ts && forall i :: 0 <= i < |ts| ==> ts[i] <= r
  {
    if |ts| == 1 then ts[0]
    else
      var m := MaxOf(ts[..|ts| - 1]);
      assert forall i :: 0 <= i < |ts| - 1 ==> ts[..|ts| - 1][i] == ts[i];
      if ts[|ts| - 1] > m then ts[|ts| - 1] else m
  }

  /** A total of values lying between lo and hi lies between |ts| times each. */
  lemma {:induction false} SumBetween(ts: seq<int>, lo: int, hi: int)
    requires forall i :: 0 <= i < |ts| ==> lo <= ts[i] <= hi
    ensures lo * |ts| <= SumOf(ts, Id) <= hi * |ts|
    decreases |ts|
  {
    if ts != [] {
      var init, n := ts[..|ts| - 1], |ts| - 1;
      assert forall i :: 0 <= i < |init| ==> init[i] == ts[i];
      SumBetween(init, lo, hi);
      assert SumOf(ts, Id) == SumOf(init, Id) + ts[n];
      assert lo * (n + 1) == lo * n + lo && hi * (n + 1) == hi * n + hi;
    }
  }

  /** `_calculate_stint_performance`'s entry for one stint. */
  datatype StintPerformance = StintPerformance(stint: int, compound: Option<string>, lapsCompleted: nat,
                                               avgLapTime: real, fastestLap: int, slowestLap: int)

  /** The entry of one stint: present only when some lap of the stint has a time; the laps
      completed count the untimed laps too. */
  function Performance(stint: Stint, laps: seq<Lap>): Option<StintPerformance>
  {
    var stintLaps := StintLaps(stint, laps);
    var valid := ValidTimes(stintLaps);
    if valid == [] then None
    else Some(StintPerformance(stint.stint, stint.compound, |stintLaps|,
                               SumOf(valid, Id) as real / |valid| as real, MinOf(valid), MaxOf(valid)))
  }

  function Performances(stints: seq<Stint>, laps: seq<Lap>): seq<StintPerformance>
  {
    if stints == [] then []
    else
      var p := Performance(stints[|stints| - 1], laps);
      Performances(stints[..|stints| - 1], laps) + (if p.Some? then [p.value] else [])
  }

  /** `_calculate_stint_performance`: one pass over the stints, appending the entry of each stint
      with a timed lap. */
  method CalculateStintPerformance(stints: seq<Stint>, laps: seq<Lap>) returns (performance: seq<StintPerformance>)
    ensures performance == Performances(stints, laps)
  {
    performance := [];
    for i := 0 to |stints|
      invariant performance == Performances(stints[..i], laps)
    {
      PerformancesSnoc(stints, laps, i);
      var stint := stints[i];
      var stintLaps := StintLaps(stint, laps);
      var validLapTimes := ValidTimes(stintLaps);
      if validLapTimes != [] {
        performance := performance + [StintPerformance(stint.stint, stint.compound, |stintLaps|,
                                                       SumOf(validLapTimes, Id) as real / |validLapTimes| as real,
                                                       MinOf(validLapTimes), MaxOf(validLapTimes))];
      }
    }
    assert stints[..|stints|] == stints;
  }

  lemma PerformancesSnoc(stints: seq<Stint>, laps: seq<Lap>, i: nat)
    requires i < |stints|
    ensures Performances(stints[..i + 1], laps)
         == Performances(stints[..i], laps) +
            (if Performance(stints[i], laps).Some? then [Performance(stints[i], laps).value] else [])
  {
    assert stints[..i + 1][..i] == stints[..i];
  }

  /** A timed lap of the stint contributes its time to the valid times. */
  lemma TimedLapIsValid(stint: Stint, laps: seq<Lap>, lap: Lap)
    requires lap in laps && InStint(stint, lap) && lap.lapTime.Some?
    ensures lap.lapTime.value in ValidTimes(StintLaps(stint, laps))
  {
    var stintLaps := StintLaps(stint, laps);
    StintLapsMembers(stint, laps);
    ValidTimesMembers(stintLaps);
    var ts := LapTimes(stintLaps);
    assert lap in stintLaps;
    var j :| 0 <= j < |stintLaps| && stintLaps[j] == lap;
    assert ts[j] == Some(lap.lapTime.value);
    assert ts[j] in ts;
    var t := lap.lapTime.value;
    assert Some(t) in LapTimes(stintLaps);
    assert t in ValidTimes(stintLaps) <==> Some(t) in LapTimes(stintLaps);
  }

  /** A stint has an entry exactly when one of its laps carries a time. */
  lemma PerformancePresence(stint: Stint, laps: seq<Lap>)
    ensures Performance(stint, laps).Some? <==>
              exists lap :: lap in laps && InStint(stint, lap) && lap.lapTime.Some?
  {
    var stintLaps := StintLaps(stint, laps);
    var valid := ValidTimes(stintLaps);
    if valid != [] {
      StintLapsMembers(stint, laps);
      assert valid[0] in valid;
      var lap := TimedLapOf(stintLaps, valid[0]);
      assert lap in laps && InStint(stint, lap);
    }
    if exists lap :: lap in laps && InStint(stint, lap) && lap.lapTime.Some? {
      var lap :| lap in laps && InStint(stint, lap) && lap.lapTime.Some?;
      TimedLapIsValid(stint, laps, lap);
    }
  }

  /** The fastest and slowest laps of an entry are the extreme recorded times of the stint, the
      mean lies between them, and the laps completed include at least one. */
  lemma PerformanceExtremes(stint: Stint, laps: seq<Lap>)
    requires Performance(stint, laps).Some?
    ensures var p := Performance(stint, laps).value;
      p.stint == stint.stint && p.compound == stint.compound &&
      p.lapsCompleted >= 1 &&
      p.fastestLap as real <= p.avgLapTime <= p.slowestLap as real &&
      (forall lap :: lap in laps && InStint(stint, lap) && lap.lapTime.Some? ==>
         p.fastestLap <= lap.lapTime.value <= p.slowestLap) &&
      (exists lap :: lap in laps && InStint(stint, lap) && lap.lapTime == Some(p.fastestLap)) &&
      (exists lap :: lap in laps && InStint(stint, lap) && lap.lapTime == Some(p.slowestLap))
  {
    var stintLaps := StintLaps(stint, laps);
    var valid := ValidTimes(stintLaps);
    var lo, hi := MinOf(valid), MaxOf(valid);
    StintLapsMembers(stint, laps);
    ValidTimesMembers(stintLaps);
    forall lap | lap in laps && InStint(stint, lap) && lap.lapTime.Some? ensures lo <= lap.lapTime.value <= hi {
      TimedLapIsValid(stint, laps, lap);
    }
    var fastest := TimedLapOf(stintLaps, lo);
    var slowest := TimedLapOf(stintLaps, hi);
    assert fastest in laps && InStint(stint, fastest);
    assert slowest in laps && InStint(stint, slowest);
    SumBetween(valid, lo, hi);
    MeanBetween(SumOf(valid, Id), |valid|, lo, hi);
  }

  /** Each entry belongs to a stint of the input, and every stint with a timed lap has its entry. */
  lemma PerformancesOfStints(stints: seq<Stint>, laps: seq<Lap>)
    ensures |Performances(stints, laps)| <= |stints|
    ensures forall p :: p in Performances(stints, laps) ==>
              exists s :: s in stints && Performance(s, laps) == Some(p)
    ensures forall s :: s in stints && Performance(s, laps).Some? ==> Performance(s, laps).value in Performances(stints, laps)
  {
    PerformancesFromStints(stints, laps);
    StintsInPerformances(stints, laps);
  }

  lemma {:induction false} PerformancesFromStints(stints: seq<Stint>, laps: seq<Lap>)
    ensures |Performances(stints, laps)| <= |stints|
    ensures forall p :: p in Performances(stints, laps) ==>
              exists s :: s in stints && Performance(s, laps) == Some(p)
    decreases |stints|
  {
    if stints != [] {
      var init, last := stints[..|stints| - 1], stints[|stints| - 1];
      PerformancesFromStints(init, laps);
      var e := Performance(last, laps);
      assert Performances(stints, laps) == Performances(init, laps) + (if e.Some? then [e.value] else []);
      forall p | p in Performances(stints, laps)
        ensures exists s :: s in stints && Performance(s, laps) == Some(p)
      {
        if p in Performances(init, laps) {
          var s :| s in init && Performance(s, laps) == Some(p);
          assert s in stints;
        } else {
          assert last in stints && e == Some(p);
        }
      }
    }
  }

  lemma {:induction false} StintsInPerformances(stints: seq<Stint>, laps: seq<Lap>)
    ensures forall s :: s in stints && Performance(s, laps).Some? ==> Performance(s, laps).value in Performances(stints, laps)
    decreases |stints|
  {
    if stints != [] {
      var init, last := stints[..|stints| - 1], stints[|stints| - 1];
      StintsInPerformances(init, laps);
      var e := Performance(last, laps);
      assert Performances(stints, laps) == Performances(init, laps) + (if e.Some? then [e.value] else []);
      forall s | s in stints && Performance(s, laps).Some?
        ensures Performance(s, laps).value in Performances(stints, laps)
      {
        if s != last {
          var k :| 0 <= k < |stints| && stints[k] == s;
          assert init[k] == s;
          assert Performance(s, laps).value in Performances(init, laps);
        }
      }
    }
  }

  // ---------------------------------------------------------------------------------------------
  // Summary

  function NumStopsOf(e: DriverStrategy): int { e.numStops }

  /** The total of the counts of the keys ks. */
  function CountTotal(counts: map<int, nat>, ks: seq<int>): nat
    requires forall i :: 0 <= i < |ks| ==> ks[i] in counts
  {
    if ks == [] then 0 else CountTotal(counts, ks[..|ks| - 1]) + counts[ks[|ks| - 1]]
  }

  datatype StrategySummary = StrategySummary(totalDrivers: nat, strategyDistribution: map<int, nat>)

  /** `_generate_summary` without the compound part: the number of drivers, and how many drivers
      made each number of stops. */
  method GenerateSummary(entries: seq<DriverStrategy>) returns (summary: StrategySummary, stopOrder: seq<int>)
    ensures summary.totalDrivers == |entries|
    ensures stopOrder == Keys(entries, NumStopsOf)
    ensures forall n :: n in summary.strategyDistribution <==> exists i :: 0 <= i < |entries| && entries[i].numStops == n
    ensures forall n :: n in summary.strategyDistribution ==>
              summary.strategyDistribution[n] == |Group(entries, NumStopsOf, n)|
    ensures forall i :: 0 <= i < |stopOrder| ==> stopOrder[i] in summary.strategyDistribution
    ensures CountTotal(summary.strategyDistribution, stopOrder) == |entries|
  {
    var counts, order := CountBy(entries, NumStopsOf);
    KeysCorrect(entries, NumStopsOf);
    CountsCoverEntries(entries, counts, order);
    summary, stopOrder := StrategySummary(|entries|, counts), order;
  }

  /** The per-stop counts, taken over the stop numbers in order, add up to the number of drivers. */
  lemma CountsCoverEntries(entries: seq<DriverStrategy>, counts: map<int, nat>, order: seq<int>)
    requires order == Keys(entries, NumStopsOf)
    requires forall k :: k in counts <==> k in order
    requires forall k :: k in counts ==> counts[k] == |Group(entries, NumStopsOf, k)|
    ensures forall i :: 0 <= i < |order| ==> order[i] in counts
    ensures CountTotal(counts, order) == |entries|
  {
    forall i | 0 <= i < |order| ensures order[i] in counts {
      var k := order[i];
      assert k in order;
    }
    CountTotalSizes(entries, counts, order, |order|);
    assert order[..|order|] == order;
    GroupSizesSum(entries, NumStopsOf);
  }

  lemma {:induction false} CountTotalSizes(entries: seq<DriverStrategy>, counts: map<int, nat>, order: seq<int>, n: nat)
    requires n <= |order|
    requires forall i :: 0 <= i < |order| ==> order[i] in counts
    requires forall k :: k in counts ==> counts[k] == |Group(entries, NumStopsOf, k)|
    ensures CountTotal(counts, order[..n]) == SumSizes(entries, NumStopsOf, order[..n])
    decreases n
  {
    if n > 0 {
      CountTotalSizes(entries, counts, order, n - 1);
      assert order[..n][..n - 1] == order[..n - 1];
    }
  }
}
