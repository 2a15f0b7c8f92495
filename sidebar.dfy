/** The navigation menu's active-item predicate. */
module Sidebar {
  import opened Wrappers
  import opened Text

  /** The menu's links, in display order. */
  const MenuHrefs: seq<string> := ["/", "/race-weekend", "/schedule", "/standings", "/drivers",
                                   "/comparison", "/race", "/strategy", "/predictor", "/settings"]

  /** The menu's links other than the dashboard, without their leading slash. */
  const MenuSections: seq<string> := ["race-weekend", "schedule", "standings", "drivers",
                                      "comparison", "race", "strategy", "predictor", "settings"]

  /** `isActive`: the pathname is the link itself or, except for the dashboard, lies under it. */
  predicate IsActive(pathname: string, href: string)
  {
    pathname == href || (href != "/" && StartsWith(pathname, href + "/"))
  }

  /** The text of a path up to its first slash. */
  function FirstSegment(s: string): (r: string)
    ensures '/' !in r
    ensures StartsWith(s, r)
  {
    if s == [] || s[0] == '/' then [] else [s[0]] + FirstSegment(s[1..])
  }

  /** The first section of an absolute path; none for a relative one. */
  function Section(pathname: string): Option<string>
  {
    if pathname != [] && pathname[0] == '/' then Some(FirstSegment(pathname[1..])) else None
  }

  /** A slash-free name is the first segment of a path exactly when the path is that name or
      continues it with a slash. */
  lemma {:induction false} FirstSegmentIs(q: string, seg: string)
    requires '/' !in seg
    ensures FirstSegment(q) == seg <==> q == seg || StartsWith(q, seg + "/")
    decreases |seg|
  {
    if seg == [] {
      assert seg + "/" == "/";
    } else if q != [] && q[0] == seg[0] {
      assert '/' !in seg[1..] by {
        forall k | 0 <= k < |seg[1..]| ensures seg[1..][k] != '/' {
          assert seg[1..][k] == seg[k + 1];
        }
      }
      FirstSegmentIs(q[1..], seg[1..]);
      assert seg[0] in seg;
      assert FirstSegment(q) == [q[0]] + FirstSegment(q[1..]);
      assert seg == [seg[0]] + seg[1..];
      assert q == [q[0]] + q[1..];
      assert seg + "/" == [seg[0]] + (seg[1..] + "/");
    } else {
      assert seg[0] in seg;
      if q != [] && q[0] != '/' {
        assert FirstSegment(q)[0] == q[0];
      }
      assert (seg + "/")[0] == seg[0];
    }
  }

  /** The link of a section is active exactly on the paths in that section. */
  lemma SectionActive(pathname: string, seg: string)
    requires seg != [] && '/' !in seg
    ensures IsActive(pathname, "/" + seg) <==> Section(pathname) == Some(seg)
  {
    assert "/" + seg != "/" by {
      assert |"/" + seg| > 1;
    }
    FirstSegmentIs(if pathname == [] then [] else pathname[1..], seg);
    if pathname != [] {
      assert pathname == [pathname[0]] + pathname[1..];
      assert "/" + seg + "/" == "/" + (seg + "/");
      if pathname[0] == '/' {
        assert StartsWith(pathname, "/" + seg + "/") <==> StartsWith(pathname[1..], seg + "/");
      } else {
        assert ("/" + seg)[0] == '/';
        assert ("/" + seg + "/")[0] == '/';
      }
    }
  }

  /** The dashboard is active only on "/" itself. */
  lemma DashboardActive(pathname: string)
    ensures IsActive(pathname, MenuHrefs[0]) <==> pathname == "/"
  {
  }

  /** Every link after the dashboard is a slash followed by its section. */
  lemma MenuShape()
    ensures |MenuHrefs| == |MenuSections| + 1 && MenuHrefs[0] == "/"
    ensures forall i :: 0 <= i < |MenuSections| ==> MenuHrefs[i + 1] == "/" + MenuSections[i]
  {
    forall i | 0 <= i < |MenuSections| ensures MenuHrefs[i + 1] == "/" + MenuSections[i] {
      var section := MenuSections[i];
      assert MenuHrefs[i + 1] == "/" + section;
    }
  }

  /** Every section is a non-empty name without a slash. */
  lemma SectionsAreNames()
    ensures forall i :: 0 <= i < |MenuSections| ==> MenuSections[i] != [] && '/' !in MenuSections[i]
  {
  }

  /** No two sections share a name: their lengths and first letters already tell them apart. */
  lemma SectionsDistinct()
    ensures forall i, j :: 0 <= i < j < |MenuSections| ==> MenuSections[i] != MenuSections[j]
  {
    forall i, j | 0 <= i < j < |MenuSections| ensures MenuSections[i] != MenuSections[j] {
      var a, b := MenuSections[i], MenuSections[j];
      assert |a| != |b| || a[0] != b[0] || a[1] != b[1];
    }
  }

  /** With this menu no pathname highlights two items. */
  lemma AtMostOneActive(pathname: string)
    ensures forall i, j :: 0 <= i < j < |MenuHrefs| && IsActive(pathname, MenuHrefs[i]) ==>
              !IsActive(pathname, MenuHrefs[j])
  {
    MenuShape();
    SectionsAreNames();
    SectionsDistinct();
    forall i, j | 0 <= i < j < |MenuHrefs| && IsActive(pathname, MenuHrefs[i])
      ensures !IsActive(pathname, MenuHrefs[j])
    {
      SectionActive(pathname, MenuSections[j - 1]);
      if i == 0 {
        assert pathname == "/";
        assert Section(pathname) == Some([]);
      } else {
        SectionActive(pathname, MenuSections[i - 1]);
      }
    }
  }

  /** "/race" is not highlighted on the race-weekend page, but is on pages under "/race/". */
  lemma RaceIsNotRaceWeekend(rest: string)
    ensures !IsActive("/race-weekend", "/race")
    ensures IsActive("/race/" + rest, "/race")
  {
    assert ("/race-weekend")[5] != ("/race/")[5];
    assert ("/race/" + rest)[..6] == "/race/";
  }
}
