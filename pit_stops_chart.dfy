/** The tyre-strategy chart of the race page: one row per driver (in alphabetical order of the
    driver id), that driver's stints ordered by stint number and drawn as bars scaled to a fixed
    lap count, the laps used per driver, a lap scale and the total number of pit stops. */
module PitStopsChart {
  import opened Wrappers
  import opened Text
  import opened Sorting
  import opened Grouping
  import opened StintData

  // ---------------------------------------------------------------------------------------------
  // Ordering the drivers (`Object.keys(...).sort()`: code-unit order of the ids)

  ghost predicate StrictlyAscending(r: seq<string>)
  {
    forall i, j :: 0 <= i < j < |r| ==> Less(r[i], r[j])
  }

  /** A non-empty set of ids has a least element. */
  lemma {:induction false} Least(ks: set<string>) returns (m: string)
    requires ks != {}
    ensures m in ks && forall x :: x in ks ==> x == m || Less(m, x)
    decreases |ks|
  {
    var y :| y in ks;
    if ks == {y} {
      m := y;
    } else {
      var rest := Least(ks - {y});
      if Less(rest, y) {
        m := rest;
        forall x | x in ks ensures x == m || Less(m, x) {
          if x != y {
            assert x in ks - {y};
          }
        }
      } else {
        LessTotal(rest, y);
        m := y;
        forall x | x in ks ensures x == m || Less(m, x) {
          if x != y {
            assert x in ks - {y};
            if x != rest {
              LessTransitive(y, rest, x);
            }
          }
        }
      }
    }
  }

  /** Selection of the least remaining id until none is left. */
  method SortedDrivers(drivers: set<string>) returns (r: seq<string>)
    ensures StrictlyAscending(r)
    ensures forall d :: d in r <==> d in drivers
  {
    r := [];
    var rest := drivers;
    while rest != {}
      invariant StrictlyAscending(r)
      invariant forall d :: d in drivers <==> d in r || d in rest
      invariant forall d :: d in r ==> d !in rest
      invariant forall i, d :: 0 <= i < |r| && d in rest ==> Less(r[i], d)
      decreases |rest|
    {
      ghost var least := Least(rest);
      var m :| m in rest && forall x :: x in rest ==> x == m || Less(m, x);
      r := r + [m];
      rest := rest - {m};
    }
  }

  /** The row order depends only on the set of drivers, not on the order the stints arrived in. */
  lemma {:induction false} AscendingUnique(a: seq<string>, b: seq<string>)
    requires StrictlyAscending(a) && StrictlyAscending(b)
    requires forall d :: d in a <==> d in b
    ensures a == b
    decreases |a|
  {
    assert b != [] ==> b[0] in a;
    if a != [] {
      assert a[0] in b;
      assert b[0] in a;
      var i :| 0 <= i < |a| && a[i] == b[0];
      var j :| 0 <= j < |b| && b[j] == a[0];
      if i != 0 && j != 0 {
        assert Less(a[0], b[0]) && Less(b[0], a[0]);
        LessTransitive(a[0], b[0], a[0]);
        LessIrreflexive(a[0]);
        assert false;
      }
      assert a[0] == b[0];
      LessIrreflexive(a[0]);
      forall d ensures d in a[1..] <==> d in b[1..] {
        if d in a[1..] {
          var k :| 1 <= k < |a| && a[k] == d;
          assert Less(a[0], a[k]);
          assert d in b;
          var m :| 0 <= m < |b| && b[m] == d;
          assert m != 0;
          assert b[1..][m - 1] == d;
        }
        if d in b[1..] {
          var k :| 1 <= k < |b| && b[k] == d;
          assert Less(b[0], b[k]);
          assert d in a;
          var m :| 0 <= m < |a| && a[m] == d;
          assert m != 0;
          assert a[1..][m - 1] == d;
        }
      }
      AscendingUnique(a[1..], b[1..]);
      assert a == [a[0]] + a[1..] && b == [b[0]] + b[1..];
    }
  }

  // ---------------------------------------------------------------------------------------------
  // One row: the stints sorted in place by stint number, and the laps they used

  function LapsUsed(s: seq<Stint>): int
  {
    if s == [] then 0 else LapsUsed(s[..|s| - 1]) + s[|s| - 1].numLaps
  }

  lemma {:induction false} LapsUsedAppend(a: seq<Stint>, b: seq<Stint>)
    ensures LapsUsed(a + b) == LapsUsed(a) + LapsUsed(b)
    decreases |b|
  {
    if b != [] {
      assert (a + b)[..|a + b| - 1] == a + b[..|b| - 1];
      LapsUsedAppend(a, b[..|b| - 1]);
    } else {
      assert a + b == a;
    }
  }

  /** The laps used do not depend on the order of the stints. */
  lemma {:induction false} LapsUsedPermutation(a: seq<Stint>, b: seq<Stint>)
    requires multiset(a) == multiset(b)
    ensures LapsUsed(a) == LapsUsed(b)
    decreases |a|
  {
    if a != [] {
      var x := a[|a| - 1];
      assert x in multiset(b);
      var j :| 0 <= j < |b| && b[j] == x;
      var rest := b[..j] + b[j + 1..];
      assert b == b[..j] + [x] + b[j + 1..];
      assert a == a[..|a| - 1] + [x];
      assert multiset(b) == multiset(b[..j]) + multiset{x} + multiset(b[j + 1..]);
      assert multiset(rest) == multiset(b[..j]) + multiset(b[j + 1..]);
      assert multiset(a) == multiset(a[..|a| - 1]) + multiset{x};
      assert multiset(a[..|a| - 1]) == multiset(a) - multiset{x};
      assert multiset(rest) == multiset(b) - multiset{x};
      LapsUsedPermutation(a[..|a| - 1], rest);
      LapsUsedAppend(b[..j] + [x], b[j + 1..]);
      LapsUsedAppend(b[..j], [x]);
      LapsUsedAppend(b[..j], b[j + 1..]);
      assert LapsUsed([x]) == LapsUsed([]) + x.numLaps;
    }
  }

  /** Sorts one driver's stints in place by stint number (a stable sort) and sums their laps. */
  method DriverRow(group: seq<Stint>) returns (row: seq<Stint>, used: int)
    ensures row == SortBy(group, StintNumber)
    ensures multiset(row) == multiset(group)
    ensures forall i, j :: 0 <= i < j < |row| ==> row[i].stint <= row[j].stint
    ensures used == LapsUsed(group)
  {
    var a := new Stint[|group|](i requires 0 <= i < |group| => group[i]);
    assert a[..] == group;
    SortInPlace(a, StintNumber);
    row := a[..];
    SortByCorrect(group, StintNumber);
    assert SortedBy(row, StintNumber);
    used := LapsUsed(row);
    LapsUsedPermutation(row, group);
  }

  // ---------------------------------------------------------------------------------------------
  // The whole chart

  datatype Row = Row(driver: string, stints: seq<Stint>, used: int)

  /** Rows in ascending driver order, one per driver present, each with that driver's stints in
      stint order and the laps they used; and the total number of pit stops. */
  method Chart(stints: seq<Stint>) returns (rows: seq<Row>, totalStops: int)
    ensures forall i, j :: 0 <= i < j < |rows| ==> Less(rows[i].driver, rows[j].driver)
    ensures forall d :: d in Keys(stints, DriverOf) <==> exists i :: 0 <= i < |rows| && rows[i].driver == d
    ensures forall i :: 0 <= i < |rows| ==>
              rows[i].stints == SortBy(Group(stints, DriverOf, rows[i].driver), StintNumber) &&
              rows[i].used == LapsUsed(Group(stints, DriverOf, rows[i].driver))
    ensures totalStops == |stints| - |Keys(stints, DriverOf)| >= 0
  {
    var acc, _ := GroupInto(stints, DriverOf);
    var drivers := SortedDrivers(acc.Keys);
    rows := BuildRows(stints, acc, drivers);
    forall d | d in Keys(stints, DriverOf) ensures exists i :: 0 <= i < |rows| && rows[i].driver == d {
      assert d in drivers;
      var i :| 0 <= i < |drivers| && drivers[i] == d;
      assert rows[i].driver == d;
    }
    totalStops := TotalPitStops(stints);
  }

  /** A row holds its driver's stints in stint order and the laps they used. */
  predicate RowOf(stints: seq<Stint>, row: Row)
  {
    row.stints == SortBy(Group(stints, DriverOf, row.driver), StintNumber) &&
    row.used == LapsUsed(Group(stints, DriverOf, row.driver))
  }

  /** One row per driver, in the order given. */
  method BuildRows(stints: seq<Stint>, acc: map<string, seq<Stint>>, drivers: seq<string>) returns (rows: seq<Row>)
    requires forall d :: d in drivers ==> d in acc && acc[d] == Group(stints, DriverOf, d)
    ensures |rows| == |drivers|
    ensures forall i :: 0 <= i < |rows| ==> rows[i].driver == drivers[i] && RowOf(stints, rows[i])
  {
    rows := [];
    for k := 0 to |drivers|
      invariant |rows| == k
      invariant forall i :: 0 <= i < k ==> rows[i].driver == drivers[i] && RowOf(stints, rows[i])
    {
      assert drivers[k] in drivers;
      var row := RowFor(stints, drivers[k], acc[drivers[k]]);
      rows := rows + [row];
    }
  }

  /** The row of one driver from that driver's group. */
  method RowFor(stints: seq<Stint>, driver: string, group: seq<Stint>) returns (row: Row)
    requires group == Group(stints, DriverOf, driver)
    ensures row.driver == driver && RowOf(stints, row)
  {
    var sorted, used := DriverRow(group);
    row := Row(driver, sorted, used);
  }

  /** Σ over the drivers ks of (their stint count − 1), the footer's `reduce` over the groups. */
  function StopsOver(stints: seq<Stint>, ks: seq<string>): int
  {
    if ks == [] then 0
    else StopsOver(stints, ks[..|ks| - 1]) + |Group(stints, DriverOf, ks[|ks| - 1])| - 1
  }

  lemma {:induction false} StopsOverSizes(stints: seq<Stint>, ks: seq<string>)
    ensures StopsOver(stints, ks) == SumSizes(stints, DriverOf, ks) - |ks|
    decreases |ks|
  {
    if ks != [] {
      StopsOverSizes(stints, ks[..|ks| - 1]);
    }
  }

  /** Total pit stops: every stint after a driver's first is one stop. */
  function TotalPitStops(stints: seq<Stint>): (r: int)
    ensures r == |stints| - |Keys(stints, DriverOf)|
    ensures r >= 0
  {
    var ks := Keys(stints, DriverOf);
    StopsOverSizes(stints, ks);
    GroupSizesSum(stints, DriverOf);
    KeysLength(stints, DriverOf);
    StopsOver(stints, ks)
  }

  // ---------------------------------------------------------------------------------------------
  // Bar placement and the lap scale

  /** `left` of a stint's bar, in percent of the track width. */
  function BarLeft(s: Stint, maxLaps: int): real
    requires maxLaps > 0
  {
    (s.startLap - 1) as real / maxLaps as real * 100.0
  }

  /** `width` of a stint's bar, in percent of the track width. */
  function BarWidth(s: Stint, maxLaps: int): real
    requires maxLaps > 0
  {
    s.numLaps as real / maxLaps as real * 100.0
  }

  /** A consistent stint inside the race is drawn inside the track, its bar ending at its last lap. */
  lemma BarInsideTrack(s: Stint, maxLaps: int)
    requires maxLaps > 0
    requires 1 <= s.startLap <= s.endLap <= maxLaps
    requires s.numLaps == s.endLap - s.startLap + 1
    ensures 0.0 <= BarLeft(s, maxLaps) && 0.0 < BarWidth(s, maxLaps)
    ensures BarLeft(s, maxLaps) + BarWidth(s, maxLaps) == s.endLap as real / maxLaps as real * 100.0
    ensures BarLeft(s, maxLaps) + BarWidth(s, maxLaps) <= 100.0
  {
    var m := maxLaps as real;
    assert BarLeft(s, maxLaps) + BarWidth(s, maxLaps) == ((s.startLap - 1) as real + s.numLaps as real) / m * 100.0;
    assert s.endLap as real / m <= 1.0;
  }

  /** Consecutive stints are drawn edge to edge. */
  lemma BarsAdjacent(s: Stint, t: Stint, maxLaps: int)
    requires maxLaps > 0
    requires s.numLaps == s.endLap - s.startLap + 1
    requires t.startLap == s.endLap + 1
    ensures BarLeft(t, maxLaps) == BarLeft(s, maxLaps) + BarWidth(s, maxLaps)
  {
    var m := maxLaps as real;
    assert BarLeft(s, maxLaps) + BarWidth(s, maxLaps) == ((s.startLap - 1) as real + s.numLaps as real) / m * 100.0;
  }

  /** Keeps the candidate laps not beyond maxLaps. */
  function NotBeyond(xs: seq<int>, maxLaps: int): (r: seq<int>)
    ensures forall x :: x in r <==> x in xs && x <= maxLaps
  {
    if xs == [] then []
    else NotBeyond(xs[..|xs| - 1], maxLaps) + (if xs[|xs| - 1] <= maxLaps then [xs[|xs| - 1]] else [])
  }

  ghost predicate Increasing(xs: seq<int>)
  {
    forall i, j :: 0 <= i < j < |xs| ==> xs[i] < xs[j]
  }

  lemma {:induction false} NotBeyondAscending(xs: seq<int>, maxLaps: int)
    requires Increasing(xs)
    ensures Increasing(NotBeyond(xs, maxLaps))
    decreases |xs|
  {
    if xs != [] {
      NotBeyondAscending(xs[..|xs| - 1], maxLaps);
      var r := NotBeyond(xs[..|xs| - 1], maxLaps);
      forall i | 0 <= i < |r| ensures r[i] < xs[|xs| - 1] {
        assert r[i] in xs[..|xs| - 1];
        var k :| 0 <= k < |xs| - 1 && xs[..|xs| - 1][k] == r[i];
        assert xs[k] == r[i];
      }
      var full := NotBeyond(xs, maxLaps);
      assert full == r + (if xs[|xs| - 1] <= maxLaps then [xs[|xs| - 1]] else []);
      forall i, j | 0 <= i < j < |full| ensures full[i] < full[j] {
        if j < |r| {
          assert full[i] == r[i] && full[j] == r[j];
        } else {
          assert full[i] == r[i] && full[j] == xs[|xs| - 1];
        }
      }
    }
  }

  /** The lap scale: `ceil(maxLaps / 10) + 1` multiples of ten, keeping those up to maxLaps. */
  function Ticks(maxLaps: int): seq<int>
    requires maxLaps > 0
  {
    NotBeyond(seq((maxLaps + 9) / 10 + 1, i => 10 * i), maxLaps)
  }

  /** The scale marks exactly the multiples of ten from 0 to maxLaps, in increasing order. */
  lemma TicksExact(maxLaps: int)
    requires maxLaps > 0
    ensures forall x :: x in Ticks(maxLaps) <==> 0 <= x <= maxLaps && x % 10 == 0
    ensures Increasing(Ticks(maxLaps))
    ensures |Ticks(maxLaps)| > 0 && Ticks(maxLaps)[0] == 0
  {
    var cands := seq((maxLaps + 9) / 10 + 1, i => 10 * i);
    forall x | 0 <= x <= maxLaps && x % 10 == 0 ensures x in cands {
      assert cands[x / 10] == x;
    }
    assert Increasing(cands);
    NotBeyondAscending(cands, maxLaps);
    assert cands[0] == 0;
    var t := Ticks(maxLaps);
    assert 0 in t;
    assert t[0] in cands;
    assert forall k :: 0 < k < |t| ==> t[0] < t[k];
  }

  // ---------------------------------------------------------------------------------------------
  // The chart's own compound classifier

  datatype CompoundInfo = CompoundInfo(color: string, caption: string, textDark: bool)

  /** None of the keywords the classifier tests occurs in the lower-cased name. */
  predicate NoCompoundKeyword(comp: string)
  {
    !Contains(comp, "soft") && !Contains(comp, "medium") && !Contains(comp, "hard") &&
    !Contains(comp, "intermediate") && !Contains(comp, "wet")
  }

  /** Colour and label of a compound: unknown when missing, then soft (only without medium or
      hard in the name), medium, hard, intermediate, wet, else the first three letters. */
  function GetCompoundInfo(compound: Option<string>): (r: CompoundInfo)
    ensures r.caption in {"UNK", "SOFT", "MEDIUM", "HARD", "INT", "WET"}
            || (|r.caption| <= 3 && r.color == "bg-gray-400")
    ensures r.textDark <==> r.caption == "HARD"
    ensures r.caption == "SOFT" <==> r.color == "bg-red-500"
    ensures r.caption == "MEDIUM" <==> r.color == "bg-yellow-400"
    ensures r.caption == "HARD" <==> r.color == "bg-gray-100 border border-gray-400"
    ensures r.color == "bg-green-500" ==> r.caption == "INT"
    ensures r.color == "bg-blue-500" ==> r.caption == "WET"
    ensures compound.Some? && compound.value != "" && Contains(Lower(compound.value), "intermediate") &&
            !Contains(Lower(compound.value), "soft") && !Contains(Lower(compound.value), "medium") &&
            !Contains(Lower(compound.value), "hard")
            ==> r == CompoundInfo("bg-green-500", "INT", false)
    ensures compound.Some? && compound.value != "" && Contains(Lower(compound.value), "wet") &&
            !Contains(Lower(compound.value), "soft") && !Contains(Lower(compound.value), "medium") &&
            !Contains(Lower(compound.value), "hard") && !Contains(Lower(compound.value), "intermediate")
            ==> r == CompoundInfo("bg-blue-500", "WET", false)
    ensures r.caption in {"INT", "WET", "UNK"} ==>
              r.color in {"bg-green-500", "bg-blue-500", "bg-gray-400"}
    ensures r.color in {"bg-red-500", "bg-yellow-400", "bg-gray-100 border border-gray-400",
                        "bg-green-500", "bg-blue-500", "bg-gray-400"}
    ensures forall i :: 0 <= i < |r.caption| ==> !('a' <= r.caption[i] <= 'z')
    ensures compound.Some? && compound.value != "" ==>
              (r.color == "bg-gray-400" <==> NoCompoundKeyword(Lower(compound.value)))
    ensures compound.Some? && compound.value != "" && NoCompoundKeyword(Lower(compound.value)) ==>
              r == CompoundInfo("bg-gray-400", Upper(Prefix(compound.value, 3)), false) &&
              |r.caption| == (if |compound.value| < 3 then |compound.value| else 3)
  {
    if compound.None? || compound.value == "" then CompoundInfo("bg-gray-400", "UNK", false)
    else
      var comp := Lower(compound.value);
      if Contains(comp, "soft") && !Contains(comp, "medium") && !Contains(comp, "hard") then
        CompoundInfo("bg-red-500", "SOFT", false)
      else if Contains(comp, "medium") then CompoundInfo("bg-yellow-400", "MEDIUM", false)
      else if Contains(comp, "hard") then CompoundInfo("bg-gray-100 border border-gray-400", "HARD", true)
      else if Contains(comp, "intermediate") then CompoundInfo("bg-green-500", "INT", false)
      else if Contains(comp, "wet") then CompoundInfo("bg-blue-500", "WET", false)
      else CompoundInfo("bg-gray-400", Upper(Prefix(compound.value, 3)), false)
  }

  /** Missing and empty names are unknown. */
  lemma CompoundInfoMissing(compound: Option<string>)
    requires compound.None? || compound == Some("")
    ensures GetCompoundInfo(compound).caption == "UNK"
  {
  }

  /** Only the lower-cased name matters. */
  lemma CompoundInfoCaseInsensitive(name: string)
    ensures GetCompoundInfo(Some(name)) == GetCompoundInfo(Some(Lower(name)))
  {
    LowerIdempotent(name);
    assert Prefix(Lower(name), 3) == Lower(Prefix(name, 3));
    UpperOfLower(Prefix(name, 3));
  }

  /** A name that also mentions medium or hard is never drawn as soft; medium beats every
      other keyword; hard beats intermediate and wet; intermediate beats wet. */
  lemma CompoundInfoPriority(name: string)
    requires name != ""
    ensures var comp := Lower(name); var r := GetCompoundInfo(Some(name));
            (Contains(comp, "medium") ==> r.caption == "MEDIUM") &&
            (Contains(comp, "hard") && !Contains(comp, "medium") ==> r.caption == "HARD") &&
            ((Contains(comp, "intermediate") && !Contains(comp, "medium") && !Contains(comp, "hard")
              && !Contains(comp, "soft")) ==> r.caption == "INT") &&
            ((Contains(comp, "soft") && (Contains(comp, "medium") || Contains(comp, "hard")))
              ==> r.caption != "SOFT")
  {
  }
}
