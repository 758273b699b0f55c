/**
 * The sidebar's menu selection: the router's current url is split on `/`,
 * its second piece names the section (`home` when that piece is missing or
 * empty), and the section's menu is looked up with the home menu as
 * fallback. The navigation events only decide when the rule runs; the rule
 * reads nothing but the url.
 */
module Sidebar {
  import opened Wrappers

  // ----- splitting a url -----

  /** The pieces of `s` between occurrences of `sep`, as string splitting on one character yields them. */
  function SplitOn(s: string, sep: char): (parts: seq<string>)
    ensures |parts| >= 1
    ensures forall i :: 0 <= i < |parts| ==> sep !in parts[i]
  {
    if s == [] then [""]
    else
      var rest := SplitOn(s[1..], sep);
      if s[0] == sep then [""] + rest
      else [[s[0]] + rest[0]] + rest[1..]
  }

  /** The pieces joined back with `sep` between them. */
  function JoinWith(parts: seq<string>, sep: char): string
    requires |parts| >= 1
  {
    if |parts| == 1 then parts[0] else parts[0] + [sep] + JoinWith(parts[1..], sep)
  }

  /** Splitting loses nothing: the pieces join back to the url. */
  lemma {:induction false} JoinSplit(s: string, sep: char)
    ensures JoinWith(SplitOn(s, sep), sep) == s
  {
    if s != [] {
      var rest := SplitOn(s[1..], sep);
      JoinSplit(s[1..], sep);
      if s[0] == sep {
        assert SplitOn(s, sep)[1..] == rest;
      } else {
        var parts := SplitOn(s, sep);
        if |rest| == 1 {
          assert parts == [[s[0]] + rest[0]];
        } else {
          assert parts[1..] == rest[1..];
          assert JoinWith(rest, sep) == rest[0] + [sep] + JoinWith(rest[1..], sep);
        }
      }
    }
  }

  /** A piece without the separator splits off as the first part. */
  lemma {:induction false} SplitAfterPiece(a: string, t: string, sep: char)
    requires sep !in a
    ensures SplitOn(a + [sep] + t, sep) == [a] + SplitOn(t, sep)
  {
    if a != [] {
      var u := a + [sep] + t;
      assert u[0] == a[0] != sep;
      assert u[1..] == a[1..] + [sep] + t;
      SplitAfterPiece(a[1..], t, sep);
      assert [a[0]] + a[1..] == a;
    }
  }

  /** A url without the separator is a single piece. */
  lemma {:induction false} SplitWithoutSeparator(a: string, sep: char)
    requires sep !in a
    ensures SplitOn(a, sep) == [a]
  {
    if a != [] {
      SplitWithoutSeparator(a[1..], sep);
      assert [a[0]] + a[1..] == a;
    }
  }

  // ----- the menus -----

  /** A menu entry; `caption` holds the entry's `label`, a word Dafny reserves. */
  datatype MenuItem = MenuItem(caption: string, icon: string, routerLink: Option<string>, items: seq<MenuItem>)

  function Entry(caption: string, icon: string): MenuItem
  {
    MenuItem(caption, icon, None, [])
  }

  const HomeMenu: seq<MenuItem> := [
    MenuItem("Dashboard", "pi pi-home", None,
             [Entry("Overview", "pi pi-th-large"), Entry("Recent Items", "pi pi-clock"),
              Entry("Favorites", "pi pi-star")]),
    MenuItem("Quick Actions", "pi pi-bolt", None,
             [MenuItem("New Map", "pi pi-map", Some("/maps"), []), Entry("Import Data", "pi pi-upload")])
  ]

  const MapsMenu: seq<MenuItem> := [
    MenuItem("Map Tools", "pi pi-map-marker", None,
             [Entry("Basemaps", "pi pi-globe"), Entry("Measure", "pi pi-ruler"), Entry("Draw", "pi pi-pencil")]),
    MenuItem("Data", "pi pi-database", None,
             [Entry("Import", "pi pi-upload"), Entry("Export", "pi pi-download"), Entry("Query", "pi pi-search")])
  ]

  const LayersMenu: seq<MenuItem> := [
    MenuItem("Layer Management", "pi pi-layer-group", None,
             [Entry("Add Layer", "pi pi-plus"), Entry("Layer List", "pi pi-list"),
              Entry("Symbology", "pi pi-palette")]),
    MenuItem("Layer Settings", "pi pi-cog", None,
             [Entry("Visibility", "pi pi-eye"), Entry("Opacity", "pi pi-sliders-h"),
              Entry("Labeling", "pi pi-tag")])
  ]

  const AnalysisMenu: seq<MenuItem> := [
    MenuItem("Spatial Analysis", "pi pi-chart-bar", None,
             [Entry("Buffer", "pi pi-circle"), Entry("Overlay", "pi pi-clone"),
              Entry("Proximity", "pi pi-arrows-alt")]),
    MenuItem("Results", "pi pi-table", None,
             [Entry("View Results", "pi pi-eye"), Entry("Export Report", "pi pi-file-export")])
  ]

  /** The section menus, keyed by section name. */
  const MenuMap: map<string, seq<MenuItem>> :=
    map["home" := HomeMenu, "maps" := MapsMenu, "layers" := LayersMenu, "analysis" := AnalysisMenu]

  /** One of the four section menus. */
  predicate IsSectionMenu(m: seq<MenuItem>)
  {
    m == HomeMenu || m == MapsMenu || m == LayersMenu || m == AnalysisMenu
  }

  /** The section's menu, or the home menu for a name without one. */
  function MenuOf(route: string): (m: seq<MenuItem>)
    ensures route in MenuMap ==> m == MenuMap[route]
    ensures route !in MenuMap ==> m == HomeMenu
    ensures IsSectionMenu(m)
  {
    if route in MenuMap then MenuMap[route] else MenuMap["home"]
  }

  // ----- the selection rule, as written -----

  /** The section named by a url: its second `/`-piece, or `home` when that is missing or empty. */
  function Route(url: string): (r: string)
    ensures r != "" && '/' !in r
    ensures var parts := SplitOn(url, '/');
            if |parts| >= 2 && parts[1] != "" then r == parts[1] else r == "home"
  {
    var parts := SplitOn(url, '/');
    if |parts| >= 2 && parts[1] != "" then parts[1] else "home"
  }

  /** The menu the sidebar shows for the router's url. */
  function MenuFor(url: string): (m: seq<MenuItem>)
    ensures IsSectionMenu(m)
  {
    MenuOf(Route(url))
  }

  /** The empty url and the root url both select home. */
  lemma RootIsHome()
    ensures Route("") == "home" && Route("/") == "home"
    ensures MenuFor("") == HomeMenu && MenuFor("/") == HomeMenu
  {
    assert SplitOn("/", '/') == ["", ""];
  }

  /**
   * The section is the piece after the first `/`, whatever precedes that
   * slash and whatever follows the section.
   */
  lemma RouteIsSecondPiece(lead: string, section: string, tail: string)
    requires '/' !in lead && '/' !in section && section != ""
    ensures Route(lead + "/" + section) == section
    ensures Route(lead + "/" + section + "/" + tail) == section
  {
    SplitAfterPiece(lead, section, '/');
    SplitWithoutSeparator(section, '/');
    assert lead + "/" + section + "/" + tail == lead + ['/'] + (section + ['/'] + tail);
    SplitAfterPiece(lead, section + ['/'] + tail, '/');
    SplitAfterPiece(section, tail, '/');
  }

  /** `/maps/x` selects the maps section. */
  lemma MapsSubpath()
    ensures Route("/maps/x") == "maps" && MenuFor("/maps/x") == MapsMenu
  {
    RouteIsSecondPiece("", "maps", "x");
    assert "" + "/" + "maps" + "/" + "x" == "/maps/x";
  }

  /** The url of a known section, alone or with a sub-path, shows that section's menu. */
  lemma KnownSectionMenu(section: string, tail: string)
    requires section in MenuMap
    ensures MenuFor("/" + section) == MenuMap[section]
    ensures MenuFor("/" + section + "/" + tail) == MenuMap[section]
  {
    RouteIsSecondPiece("", section, tail);
    assert "" + "/" + section == "/" + section;
    assert "" + "/" + section + "/" + tail == "/" + section + "/" + tail;
  }

  /** Any url whose section has no menu shows the home menu. */
  lemma UnknownSectionIsHome(url: string)
    requires Route(url) !in MenuMap
    ensures MenuFor(url) == HomeMenu
  {
  }

  /** No section name contains a query, fragment or matrix-parameter mark. */
  lemma SectionNamesPlain(section: string)
    requires section in MenuMap
    ensures forall i :: 0 <= i < |section| ==> !EndsPath(section[i])
  {
  }

  /** The longest prefix of `s` without a `/`. */
  function UpToSlash(s: string): (p: string)
    ensures p <= s && '/' !in p
    ensures |p| < |s| ==> s[|p|] == '/'
  {
    if s == [] || s[0] == '/' then [] else [s[0]] + UpToSlash(s[1..])
  }

  /** A known section followed by a slash-free query, fragment or matrix suffix is read as one unknown section. */
  lemma SlashFreeSuffixHidesSection(section: string, suffix: string)
    requires section in MenuMap
    requires suffix != [] && EndsPath(suffix[0]) && '/' !in suffix
    ensures Route("/" + section + suffix) == section + suffix
    ensures section + suffix !in MenuMap
  {
    SectionNamesPlain(section);
    var piece := section + suffix;
    assert '/' !in piece;
    SplitWithoutSeparator(piece, '/');
    SplitAfterPiece("", piece, '/');
    assert "" + ['/'] + piece == "/" + section + suffix;
    assert piece !in MenuMap by {
      assert EndsPath(piece[|section|]);
      forall key | key in MenuMap ensures piece != key {
        SectionNamesPlain(key);
      }
    }
  }

  /** After a slash-free section, the route runs on to the first `/` of what follows. */
  lemma RouteUpToSlash(section: string, suffix: string)
    requires section != "" && '/' !in section
    ensures Route("/" + section + suffix) == section + UpToSlash(suffix)
  {
    var head := UpToSlash(suffix);
    var piece := section + head;
    if |head| == |suffix| {
      assert head == suffix;
      RouteIsSecondPiece("", piece, "");
      assert "" + "/" + piece == "/" + section + suffix;
    } else {
      var tail := suffix[|head| + 1..];
      assert suffix == head + "/" + tail;
      RouteIsSecondPiece("", piece, tail);
      assert "" + "/" + piece + "/" + tail == "/" + section + suffix;
    }
  }

  /**
   * The url carries its query, fragment and matrix parameters, so a known
   * section followed by one of them is not recognised and shows the home
   * menu: the route is the section with the suffix up to its first `/`.
   */
  lemma SuffixHidesSection(section: string, suffix: string)
    requires section in MenuMap
    requires suffix != [] && EndsPath(suffix[0])
    ensures Route("/" + section + suffix) == section + UpToSlash(suffix)
    ensures MenuFor("/" + section + suffix) == HomeMenu
  {
    var head := UpToSlash(suffix);
    assert head != [] && head[0] == suffix[0];
    SlashFreeSuffixHidesSection(section, head);
    SectionNamesPlain(section);
    RouteUpToSlash(section, suffix);
  }

  /** `/maps?tab=1` shows the home menu, not the maps menu. */
  lemma QueryHidesSection()
    ensures MenuFor("/maps?tab=1") == HomeMenu
  {
    SuffixHidesSection("maps", "?tab=1");
    assert "/" + "maps" + "?tab=1" == "/maps?tab=1";
  }

  // ----- the selection rule, corrected -----

  /** Ends the path part of a url: the query, the fragment and the matrix parameters start here. */
  predicate EndsPath(c: char)
  {
    c == '?' || c == '#' || c == ';'
  }

  /** The url up to its first query, fragment or matrix-parameter mark. */
  function PathPart(url: string): (p: string)
    ensures p <= url
    ensures forall i :: 0 <= i < |p| ==> !EndsPath(p[i])
    ensures |p| < |url| ==> EndsPath(url[|p|])
  {
    if url == [] || EndsPath(url[0]) then [] else [url[0]] + PathPart(url[1..])
  }

  /** The section named by the path part of the url alone. */
  function PathRoute(url: string): (r: string)
    ensures r != "" && '/' !in r
  {
    Route(PathPart(url))
  }

  /** The menu for the section of the path part. */
  function PathMenuFor(url: string): (m: seq<MenuItem>)
    ensures IsSectionMenu(m)
  {
    MenuOf(PathRoute(url))
  }

  /** The path part of a url without marks is the url itself. */
  lemma {:induction false} PathPartOfPlain(p: string, rest: string)
    requires forall i :: 0 <= i < |p| ==> !EndsPath(p[i])
    requires rest == [] || EndsPath(rest[0])
    ensures PathPart(p + rest) == p
  {
    if p != [] {
      assert (p + rest)[1..] == p[1..] + rest;
      PathPartOfPlain(p[1..], rest);
    }
  }

  /**
   * With the corrected rule, a known section keeps its menu whatever query,
   * fragment or matrix parameters follow it.
   */
  lemma KnownSectionWithSuffix(section: string, suffix: string)
    requires section in MenuMap
    requires suffix == [] || EndsPath(suffix[0])
    ensures PathMenuFor("/" + section + suffix) == MenuMap[section]
  {
    SectionNamesPlain(section);
    assert forall i :: 0 <= i < |"/" + section| ==> !EndsPath(("/" + section)[i]);
    PathPartOfPlain("/" + section, suffix);
    RouteIsSecondPiece("", section, "");
    assert "" + "/" + section == "/" + section;
  }

  /** The corrected rule agrees with the one as written on every url without marks. */
  lemma PathRouteAgrees(url: string)
    requires forall i :: 0 <= i < |url| ==> !EndsPath(url[i])
    ensures PathRoute(url) == Route(url)
    ensures PathMenuFor(url) == MenuFor(url)
  {
    PathPartOfPlain(url, []);
    assert url + [] == url;
  }

  /** `/maps?tab=1` shows the maps menu under the corrected rule. */
  lemma QueryKeepsSection()
    ensures PathMenuFor("/maps?tab=1") == MapsMenu
  {
    KnownSectionWithSuffix("maps", "?tab=1");
    assert "/" + "maps" + "?tab=1" == "/maps?tab=1";
  }
}
