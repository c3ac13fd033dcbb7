/**
 * The background colour loader of the router: the pathname is split on
 * '/', empty pieces are dropped, the last remaining segment (or "default"
 * when there is none) names the page, and the page's colour is looked up in
 * a fixed table, falling back to the table's default colour.
 */
module Routes {
  import opened Maybe

  /** The colour of each page key. */
  const BgColor: map<string, string> :=
    map["page1" := "red", "page2" := "green", "dashboard" := "purple", "settings" := "darkblue", "default" := "#f0f0f0"]

  /** The page name used when the pathname has no segment. */
  const DefaultPage := "default"

  /** The colour of the "default" key, used for every other page. */
  const FallbackColor := "#f0f0f0"

  // ---------------------------------------------------------------------------
  // Segments of a pathname

  /** JavaScript's `s.split('/')`: the pieces between separators, in order,
      one more than there are separators (so "" gives [""]). */
  function Split(s: string): (pieces: seq<string>)
    ensures |pieces| >= 1
    decreases |s|
  {
    if s == [] then [""] else Step(s[0], Split(s[1..]))
  }

  /** Puts one more character in front of the pieces of the rest: a
      separator starts a new first piece, any other character joins the
      first piece. */
  function Step(c: char, pieces: seq<string>): seq<string>
    requires pieces != []
  {
    if c == '/' then [""] + pieces else [[c] + pieces[0]] + pieces[1..]
  }

  /** `pieces.filter((s) => s !== '')`. */
  function NonEmpty(pieces: seq<string>): seq<string>
  {
    if pieces == [] then []
    else (if pieces[0] == "" then [] else [pieces[0]]) + NonEmpty(pieces[1..])
  }

  /** The non-empty segments of a pathname. */
  function Segments(pathname: string): seq<string>
  {
    NonEmpty(Split(pathname))
  }

  /** `segment[segment.length - 1] || 'default'`: the last segment, or
      "default" when there is none (the last of the array is undefined). */
  function PageName(pathname: string): string
  {
    var segments := Segments(pathname);
    if segments != [] && segments[|segments| - 1] != "" then segments[|segments| - 1] else DefaultPage
  }

  /** `isPageKey`: the name is one of the table's own keys. */
  predicate IsPageKey(key: string)
  {
    key in BgColor
  }

  /** `bgColorLoader` from the pathname on: the colour of the page's key,
      or the default colour when the page name is no key of the table. */
  function BackgroundColor(pathname: string): (color: string)
    ensures color in BgColor.Values && color != ""
  {
    var name := PageName(pathname);
    var backgroundColor: Option<string> := if IsPageKey(name) then Some(BgColor[name]) else None;
    if backgroundColor.Some? && backgroundColor.value != "" then backgroundColor.value else BgColor["default"]
  }

  // ---------------------------------------------------------------------------
  // Properties of the split

  /** Splitting at one separator: the pieces of each side, in order. */
  lemma {:induction false} SplitAtSeparator(a: string, b: string)
    ensures Split(a + "/" + b) == Split(a) + Split(b)
    decreases |a|
  {
    var s := a + "/" + b;
    if a == [] {
      assert s[0] == '/' && s[1..] == b;
    } else {
      assert s[0] == a[0] && s[1..] == a[1..] + "/" + b;
      SplitAtSeparator(a[1..], b);
      StepAppend(a[0], Split(a[1..]), Split(b));
    }
  }

  /** A step looks at the first piece only, so it commutes with appending
      more pieces. */
  lemma StepAppend(c: char, p: seq<string>, q: seq<string>)
    requires p != []
    ensures Step(c, p + q) == Step(c, p) + q
  {
    if c == '/' {
      assert [""] + (p + q) == ([""] + p) + q;
    } else {
      assert (p + q)[0] == p[0] && (p + q)[1..] == p[1..] + q;
      assert [[c] + p[0]] + (p[1..] + q) == ([[c] + p[0]] + p[1..]) + q;
    }
  }

  /** A string without separators is a single piece. */
  lemma {:induction false} SplitWithoutSeparator(s: string)
    requires '/' !in s
    ensures Split(s) == [s]
    decreases |s|
  {
    if s != [] {
      assert s[0] != '/';
      assert forall i :: 0 <= i < |s[1..]| ==> s[1..][i] == s[i + 1];
      SplitWithoutSeparator(s[1..]);
      assert [s[0]] + s[1..] == s;
    }
  }

  lemma {:induction false} NonEmptyConcat(a: seq<string>, b: seq<string>)
    ensures NonEmpty(a + b) == NonEmpty(a) + NonEmpty(b)
  {
    if a != [] {
      assert (a + b)[0] == a[0];
      assert (a + b)[1..] == a[1..] + b;
      NonEmptyConcat(a[1..], b);
    } else {
      assert a + b == b;
    }
  }

  /** The segments of a pathname joined at a separator are those of each side. */
  lemma SegmentsAtSeparator(a: string, b: string)
    ensures Segments(a + "/" + b) == Segments(a) + Segments(b)
  {
    SplitAtSeparator(a, b);
    NonEmptyConcat(Split(a), Split(b));
  }

  /** A non-empty name without separators is one segment. */
  lemma SegmentsOfName(name: string)
    requires name != "" && '/' !in name
    ensures Segments(name) == [name]
  {
    SplitWithoutSeparator(name);
    assert [name][1..] == [];
    assert NonEmpty([name]) == [name] + NonEmpty([]);
  }

  lemma NoSegmentsInEmpty()
    ensures Segments("") == []
  {
    assert [""][1..] == [];
  }

  /** Leading, trailing and repeated slashes do not change the segments. */
  lemma SlashesIgnored(a: string, b: string)
    ensures Segments("/" + b) == Segments(b)
    ensures Segments(a + "/") == Segments(a)
    ensures Segments(a + "//" + b) == Segments(a + "/" + b)
  {
    assert Segments("/" + b) == Segments(b) by {
      NoSegmentsInEmpty();
      SegmentsAtSeparator("", b);
      assert "" + "/" + b == "/" + b;
    }
    assert Segments(a + "/") == Segments(a) by {
      NoSegmentsInEmpty();
      SegmentsAtSeparator(a, "");
      assert a + "/" + "" == a + "/";
    }
    SegmentsAtSeparator(a, "/" + b);
    assert a + "/" + ("/" + b) == a + "//" + b;
    SegmentsAtSeparator(a, b);
  }

  /** Every segment is non-empty and free of separators. */
  lemma SegmentsAreNames(pathname: string)
    ensures forall i :: 0 <= i < |Segments(pathname)| ==>
      Segments(pathname)[i] != "" && '/' !in Segments(pathname)[i]
  {
    PiecesAreSeparatorFree(pathname);
    NonEmptyKeeps(Split(pathname));
    forall i | 0 <= i < |Segments(pathname)|
      ensures Segments(pathname)[i] != "" && '/' !in Segments(pathname)[i]
    {
      assert Segments(pathname)[i] in NonEmpty(Split(pathname));
    }
  }

  lemma {:induction false} PiecesAreSeparatorFree(s: string)
    ensures forall x :: x in Split(s) ==> '/' !in x
    decreases |s|
  {
    if s != [] {
      PiecesAreSeparatorFree(s[1..]);
      if s[0] != '/' {
        var rest := Split(s[1..]);
        assert '/' !in rest[0];
        assert forall c :: c in [s[0]] + rest[0] ==> c == s[0] || c in rest[0];
      }
    }
  }

  lemma {:induction false} NonEmptyKeeps(pieces: seq<string>)
    ensures forall x :: x in NonEmpty(pieces) ==> x in pieces && x != ""
  {
    if pieces != [] {
      NonEmptyKeeps(pieces[1..]);
    }
  }

  /** A pathname has no segment exactly when it consists of slashes only. */
  lemma {:induction false} NoSegmentsIffOnlySlashes(pathname: string)
    ensures Segments(pathname) == [] <==> forall i :: 0 <= i < |pathname| ==> pathname[i] == '/'
    decreases |pathname|
  {
    if pathname != [] {
      var rest := pathname[1..];
      NoSegmentsIffOnlySlashes(rest);
      assert forall i :: 0 <= i < |rest| ==> rest[i] == pathname[i + 1];
      if pathname[0] == '/' {
        assert pathname == "" + "/" + rest;
        SegmentsAtSeparator("", rest);
      } else {
        var pieces := Split(rest);
        assert Split(pathname) == [[pathname[0]] + pieces[0]] + pieces[1..];
        assert Segments(pathname)[0] == [pathname[0]] + pieces[0];
      }
    }
  }

  // ---------------------------------------------------------------------------
  // The page name and its colour

  /** The page name is the last segment: a name after the last slash wins,
      whatever comes before it. */
  lemma LastSegmentIsPage(prefix: string, name: string)
    requires name != "" && '/' !in name
    ensures PageName(prefix + "/" + name) == name
  {
    SegmentsAtSeparator(prefix, name);
    SegmentsOfName(name);
  }

  /** A pathname of slashes only names the "default" page. */
  lemma OnlySlashesIsDefault(pathname: string)
    requires forall i :: 0 <= i < |pathname| ==> pathname[i] == '/'
    ensures PageName(pathname) == DefaultPage
  {
    NoSegmentsIffOnlySlashes(pathname);
  }

  /** A page name that is a key of the table gets that key's colour. */
  lemma KeyGetsItsColor(pathname: string)
    requires IsPageKey(PageName(pathname))
    ensures BackgroundColor(pathname) == BgColor[PageName(pathname)]
  {
  }

  /** Any other page name gets the fallback colour. */
  lemma OtherPageGetsFallback(pathname: string)
    requires !IsPageKey(PageName(pathname))
    ensures BackgroundColor(pathname) == FallbackColor
  {
  }

  /** The table's pages reached by their pathname: "/x/page1" is red, and
      each key after any prefix gets its own colour. */
  lemma PageColors(prefix: string)
    ensures BackgroundColor(prefix + "/" + "page1") == "red"
    ensures BackgroundColor(prefix + "/" + "page2") == "green"
    ensures BackgroundColor(prefix + "/" + "dashboard") == "purple"
    ensures BackgroundColor(prefix + "/" + "settings") == "darkblue"
    ensures BackgroundColor(prefix + "/" + "default") == FallbackColor
  {
    KeyAfterPrefix(prefix, "page1");
    KeyAfterPrefix(prefix, "page2");
    KeyAfterPrefix(prefix, "dashboard");
    KeyAfterPrefix(prefix, "settings");
    KeyAfterPrefix(prefix, "default");
  }

  lemma KeyAfterPrefix(prefix: string, key: string)
    requires IsPageKey(key) && key != "" && '/' !in key
    ensures BackgroundColor(prefix + "/" + key) == BgColor[key]
  {
    LastSegmentIsPage(prefix, key);
  }

  /** Only the last segment counts: "/page1/x" is not red but gets the
      fallback, and so does "/", which has no segment. */
  lemma EarlierSegmentsIgnored()
    ensures PageName("/page1/x") == "x"
    ensures BackgroundColor("/page1/x") == FallbackColor
    ensures BackgroundColor("/") == FallbackColor
  {
    var path := "/page1" + "/" + "x";
    assert path == "/page1/x";
    LastSegmentIsPage("/page1", "x");
    assert !IsPageKey("x");
    OtherPageGetsFallback(path);
    OnlySlashesIsDefault("/");
    KeyGetsItsColor("/");
  }
}
