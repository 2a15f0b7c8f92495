/** The application settings' CORS origin list. The setting holds either one comma-separated
    string or an already parsed list of origins. */
module Config {
  import opened Text

  datatype AllowedOrigins = CommaSeparated(text: string) | OriginList(items: seq<string>)

  /** The value used when the environment does not set the origins. */
  const DefaultAllowedOrigins := CommaSeparated("http://localhost:3000")

  /** `Settings.allowed_origins_list`: a string is split on every comma and each piece is
      stripped of surrounding white space, empty pieces included; a list is returned as is. */
  function AllowedOriginsList(origins: AllowedOrigins): (r: seq<string>)
    ensures origins.OriginList? ==> r == origins.items
    ensures origins.CommaSeparated? ==> |r| == Occurrences(origins.text, ',') + 1
    ensures origins.CommaSeparated? ==>
      forall i :: 0 <= i < |r| ==> r[i] == [] || (!IsSpace(r[i][0]) && !IsSpace(r[i][|r[i]| - 1]))
  {
    match origins
    case OriginList(items) => items
    case CommaSeparated(text) =>
      SplitCount(text, ',');
      var pieces := Split(text, ',');
      seq(|pieces|, i requires 0 <= i < |pieces| => Strip(pieces[i]))
  }

  /** An origin as written in the list: no comma inside and no white space at either end. */
  predicate CleanOrigin(o: string)
  {
    ',' !in o && (o == [] || (!IsSpace(o[0]) && !IsSpace(o[|o| - 1])))
  }

  /** Writing clean origins comma-separated and parsing the text gives them back. */
  lemma ParseJoinedOrigins(origins: seq<string>)
    requires |origins| > 0
    requires forall i :: 0 <= i < |origins| ==> CleanOrigin(origins[i])
    ensures AllowedOriginsList(CommaSeparated(Join(origins, ","))) == origins
  {
    SplitJoin(origins, ',');
    forall i | 0 <= i < |origins| ensures Strip(origins[i]) == origins[i] {
      StripClean(origins[i]);
    }
  }

  /** A space after each comma does not change the result. */
  lemma SpaceAfterCommasIgnored(origins: seq<string>)
    requires |origins| > 0
    requires forall i :: 0 <= i < |origins| ==> CleanOrigin(origins[i])
    ensures AllowedOriginsList(CommaSeparated(Join(origins, ", "))) == origins
  {
    var padded := PaddedPieces(origins);
    var text := Join(origins, ", ");
    SplitJoin(padded, ',');
    assert Split(text, ',') == padded;
    var r := AllowedOriginsList(CommaSeparated(text));
    assert |r| == |origins|;
    forall i | 0 <= i < |r| ensures r[i] == origins[i] {
      assert r[i] == Strip(padded[i]);
    }
  }

  /** The pieces a comma split sees in a ", "-joined list: every origin after the first keeps the
      space written before it. */
  lemma PaddedPieces(origins: seq<string>) returns (padded: seq<string>)
    requires |origins| > 0
    requires forall i :: 0 <= i < |origins| ==> CleanOrigin(origins[i])
    ensures |padded| == |origins| && Join(origins, ", ") == Join(padded, ",")
    ensures forall i :: 0 <= i < |padded| ==> ',' !in padded[i] && Strip(padded[i]) == origins[i]
  {
    padded := seq(|origins|, i requires 0 <= i < |origins| => Pad(origins, i));
    forall i | 0 <= i < |padded| ensures ',' !in padded[i] && Strip(padded[i]) == origins[i] {
      PadStrip(origins, i);
    }
    assert forall i :: 0 < i < |origins| ==> padded[i] == " " + origins[i];
    JoinPadded(origins, padded);
  }

  function Pad(origins: seq<string>, i: nat): string
    requires i < |origins|
  {
    if i == 0 then origins[i] else " " + origins[i]
  }

  lemma PadStrip(origins: seq<string>, i: nat)
    requires i < |origins| && CleanOrigin(origins[i])
    ensures Strip(Pad(origins, i)) == origins[i]
    ensures ',' !in Pad(origins, i)
  {
    StripClean(origins[i]);
    if i > 0 {
      var o := origins[i];
      assert (" " + o)[1..] == o;
      StripLeftClean(o);
    }
  }

  lemma StripLeftClean(s: string)
    requires s == [] || !IsSpace(s[0])
    ensures StripLeft(s) == s
  {
  }

  lemma {:induction false} JoinPadded(origins: seq<string>, padded: seq<string>)
    requires |origins| > 0 && |padded| == |origins|
    requires padded[0] == origins[0]
    requires forall i :: 0 < i < |origins| ==> padded[i] == " " + origins[i]
    ensures Join(origins, ", ") == Join(padded, ",")
    decreases |origins|
  {
    if |origins| > 1 {
      var o', p' := origins[1..], [origins[1]] + padded[2..];
      JoinPadded(o', p');
      assert Join(padded[1..], ",") == " " + Join(p', ",") by {
        JoinSpaceFirst(padded[1..], p');
      }
    }
  }

  lemma JoinSpaceFirst(padded: seq<string>, p: seq<string>)
    requires |padded| > 0 && |p| == |padded|
    requires padded[0] == " " + p[0] && padded[1..] == p[1..]
    ensures Join(padded, ",") == " " + Join(p, ",")
  {
  }

  /** The default yields exactly one origin. */
  lemma DefaultIsOneOrigin()
    ensures AllowedOriginsList(DefaultAllowedOrigins) == ["http://localhost:3000"]
  {
    var o := "http://localhost:3000";
    assert CleanOrigin(o);
    assert Join([o], ",") == o;
    ParseJoinedOrigins([o]);
  }
}
