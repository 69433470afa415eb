/**
 * The presentation and layout selection of the application shell's
 * `LayoutComponent` (src/app/layout/layout.component.ts).
 *
 * The component reacts to three event sources (configuration changes,
 * the colour-scheme media query and finished navigations); only what each
 * callback computes is modelled here. The document body's class list is a
 * set of class names held by the component.
 */
module Layout {
  import opened Wrappers

  /** JavaScript truthiness of an optional string: absent and "" are falsy. */
  predicate Truthy(o: Option<string>)
  {
    o.Some? && o.value != ""
  }

  // ---------------------------------------------------------------------
  // Scheme and theme
  // ---------------------------------------------------------------------

  /** The scheme/theme pair the media-query callback produces. */
  datatype Options = Options(scheme: string, theme: string)

  /** The configured schemes the application knows about. */
  predicate KnownScheme(scheme: string)
  {
    scheme == "auto" || scheme == "dark" || scheme == "light"
  }

  /**
   * Resolves the configured scheme against the dark-preference media query:
   * "auto" follows the media query, any other scheme is kept, and the theme
   * is always kept.
   */
  function ResolveOptions(scheme: string, theme: string, prefersDark: bool): (o: Options)
    ensures o.theme == theme
    ensures scheme == "auto" ==> (o.scheme == "dark" <==> prefersDark)
    ensures scheme == "auto" ==> (o.scheme == "light" <==> !prefersDark)
    ensures scheme != "auto" ==> o.scheme == scheme
  {
    var options := Options(scheme, theme);
    if scheme == "auto" then
      options.(scheme := if prefersDark then "dark" else "light")
    else
      options
  }

  /** A known configured scheme always resolves to a concrete one, never "auto". */
  lemma ResolvedSchemeIsConcrete(scheme: string, theme: string, prefersDark: bool)
    requires KnownScheme(scheme)
    ensures var s := ResolveOptions(scheme, theme, prefersDark).scheme;
            s != "auto" && (s == "dark" || s == "light")
  {
  }

  /** An explicit scheme makes the media preference irrelevant. */
  lemma ExplicitSchemeIgnoresMedia(scheme: string, theme: string)
    requires scheme != "auto"
    ensures ResolveOptions(scheme, theme, true) == ResolveOptions(scheme, theme, false)
  {
  }

  /**
   * The class list after `_updateScheme`: both scheme classes removed, then
   * the current scheme added.
   */
  function SchemeClasses(classes: set<string>, scheme: string): (r: set<string>)
    ensures scheme in r
    ensures scheme != "light" ==> "light" !in r
    ensures scheme != "dark" ==> "dark" !in r
    ensures forall c :: c != "light" && c != "dark" && c != scheme ==> (c in r <==> c in classes)
  {
    (classes - {"light", "dark"}) + {scheme}
  }

  /** Applying the same scheme twice gives the same class list as applying it once. */
  lemma SchemeClassesIdempotent(classes: set<string>, scheme: string)
    ensures SchemeClasses(SchemeClasses(classes, scheme), scheme) == SchemeClasses(classes, scheme)
  {
  }

  /**
   * The class list after `_updateTheme`: the theme's class is added and
   * nothing is removed.
   */
  function ThemeClasses(classes: set<string>, theme: string): (r: set<string>)
    ensures theme in r
    ensures forall c :: c != theme ==> (c in r <==> c in classes)
  {
    classes + {theme}
  }

  /**
   * Switching themes never removes the previous theme's class: after `t1`
   * and then `t2` have been applied, both classes are present, and so is
   * every class that was there before.
   */
  lemma PreviousThemeRetained(classes: set<string>, t1: string, t2: string)
    ensures var after := ThemeClasses(ThemeClasses(classes, t1), t2);
            t1 in after && t2 in after && classes <= after
  {
  }

  /**
   * After a presentation update with a known scheme and a theme that is not
   * itself a scheme class, exactly one of "light" and "dark" is present, and
   * it is the resolved scheme.
   */
  lemma ExactlyOneSchemeClass(classes: set<string>, scheme: string, theme: string, prefersDark: bool)
    requires KnownScheme(scheme)
    requires theme != "light" && theme != "dark"
    ensures var o := ResolveOptions(scheme, theme, prefersDark);
            var r := ThemeClasses(SchemeClasses(classes, o.scheme), o.theme);
            ("dark" in r <==> o.scheme == "dark") && ("light" in r <==> o.scheme == "light")
            && ("dark" in r) != ("light" in r)
  {
    ResolvedSchemeIsConcrete(scheme, theme, prefersDark);
  }

  // ---------------------------------------------------------------------
  // Routes
  // ---------------------------------------------------------------------

  /** The `data` object of a route's configuration; only its `layout` key is read. */
  datatype RouteData = RouteData(layout: Option<string>)

  /** A route's static configuration (`routeConfig`); only its `data` is read. */
  datatype Route = Route(data: Option<RouteData>)

  /** One entry of `pathFromRoot`, seen through its `routeConfig`. */
  datatype Segment = Segment(routeConfig: Option<Route>)

  /**
   * An activated route: its configuration, the `layout` query parameter of
   * its snapshot, its path from the router root (ending in itself) and its
   * first child, if any.
   */
  datatype ActivatedRoute = ActivatedRoute(
    routeConfig: Option<Route>,
    queryLayout: Option<string>,
    pathFromRoot: seq<Segment>,
    firstChild: Option<ActivatedRoute>)

  /**
   * What the router guarantees of `pathFromRoot`: it ends in the route itself,
   * and a first child's path is its parent's path extended by the child.
   */
  ghost predicate WellFormed(r: ActivatedRoute)
    decreases r
  {
    && |r.pathFromRoot| > 0
    && r.pathFromRoot[|r.pathFromRoot| - 1] == Segment(r.routeConfig)
    && (r.firstChild.Some? ==>
          && r.firstChild.value.pathFromRoot == r.pathFromRoot + [Segment(r.firstChild.value.routeConfig)]
          && WellFormed(r.firstChild.value))
  }

  /** The route reached by following `firstChild` links as far as they go. */
  function Leaf(r: ActivatedRoute): (leaf: ActivatedRoute)
    ensures leaf.firstChild.None?
    decreases r
  {
    if r.firstChild.Some? then Leaf(r.firstChild.value) else r
  }

  /**
   * The descent ends at a route without a first child; on a well-formed tree
   * the leaf's path from the root extends the starting route's path and ends
   * in the leaf itself.
   */
  lemma {:induction false} LeafPath(r: ActivatedRoute)
    requires WellFormed(r)
    ensures Leaf(r).firstChild.None?
    ensures WellFormed(Leaf(r))
    ensures var p := Leaf(r).pathFromRoot;
            && |r.pathFromRoot| <= |p|
            && p[..|r.pathFromRoot|] == r.pathFromRoot
            && p[|p| - 1] == Segment(Leaf(r).routeConfig)
    decreases r
  {
    if r.firstChild.Some? {
      var c := r.firstChild.value;
      LeafPath(c);
      var p := Leaf(c).pathFromRoot;
      calc {
        p[..|r.pathFromRoot|];
        p[..|c.pathFromRoot|][..|r.pathFromRoot|];
        (r.pathFromRoot + [Segment(c.routeConfig)])[..|r.pathFromRoot|];
        r.pathFromRoot;
      }
    }
  }

  // ---------------------------------------------------------------------
  // Layout resolution
  // ---------------------------------------------------------------------

  /** A segment whose `routeConfig.data.layout` is truthy declares a layout. */
  predicate Declares(s: Segment)
  {
    && s.routeConfig.Some?
    && s.routeConfig.value.data.Some?
    && Truthy(s.routeConfig.value.data.value.layout)
  }

  /** The layout a declaring segment names. */
  function DeclaredLayout(s: Segment): (l: string)
    requires Declares(s)
    ensures l != ""
  {
    s.routeConfig.value.data.value.layout.value
  }

  /** The layout before the walk: a truthy query parameter, else the configured layout. */
  function StartLayout(configLayout: string, query: Option<string>): (l: string)
    ensures Truthy(query) ==> l == query.value
    ensures !Truthy(query) ==> l == configLayout
  {
    if Truthy(query) then query.value else configLayout
  }

  /** One step of the walk: a declaring segment overwrites the running layout. */
  function Overwrite(current: string, s: Segment): (r: string)
    ensures Declares(s) ==> r == DeclaredLayout(s)
    ensures !Declares(s) ==> r == current
  {
    if Declares(s) then DeclaredLayout(s) else current
  }

  /** The layout after walking `paths` from root to leaf, starting from `start`. */
  function Walk(start: string, paths: seq<Segment>): (r: string)
    ensures r == start || exists i :: 0 <= i < |paths| && Declares(paths[i]) && r == DeclaredLayout(paths[i])
    decreases |paths|
  {
    if paths == [] then start
    else
      var init, last := paths[..|paths| - 1], paths[|paths| - 1];
      var before := Walk(start, init);
      assert before != start ==> exists i :: 0 <= i < |init| && Declares(paths[i]) && before == DeclaredLayout(paths[i]);
      Overwrite(before, last)
  }

  /** The layout `_updateLayout` computes for a configured layout, query parameter and path. */
  function ResolveLayout(configLayout: string, query: Option<string>, paths: seq<Segment>): (r: string)
    ensures r == configLayout || (Truthy(query) && r == query.value)
            || exists i :: 0 <= i < |paths| && Declares(paths[i]) && r == DeclaredLayout(paths[i])
  {
    Walk(StartLayout(configLayout, query), paths)
  }

  /** The index of the deepest declaring segment of `paths`, if there is one. */
  function Deepest(paths: seq<Segment>): (k: Option<nat>)
    ensures k.Some? ==> k.value < |paths| && Declares(paths[k.value])
    ensures k.Some? ==> forall j :: k.value < j < |paths| ==> !Declares(paths[j])
    ensures k.None? ==> forall j :: 0 <= j < |paths| ==> !Declares(paths[j])
    decreases |paths|
  {
    if paths == [] then None
    else if Declares(paths[|paths| - 1]) then Some(|paths| - 1)
    else Deepest(paths[..|paths| - 1])
  }

  /** A walk over segments none of which declares a layout keeps the starting layout. */
  lemma {:induction false} WalkWithoutDeclaration(start: string, paths: seq<Segment>)
    requires forall j :: 0 <= j < |paths| ==> !Declares(paths[j])
    ensures Walk(start, paths) == start
    decreases |paths|
  {
    if paths != [] {
      var init := paths[..|paths| - 1];
      assert forall j :: 0 <= j < |init| ==> init[j] == paths[j];
      WalkWithoutDeclaration(start, init);
    }
  }

  /** The deepest declaring segment decides the walk, whatever the start and the shallower segments. */
  lemma {:induction false} WalkDeepestWins(start: string, paths: seq<Segment>, k: nat)
    requires k < |paths| && Declares(paths[k])
    requires forall j :: k < j < |paths| ==> !Declares(paths[j])
    ensures Walk(start, paths) == DeclaredLayout(paths[k])
    decreases |paths|
  {
    if k < |paths| - 1 {
      var init := paths[..|paths| - 1];
      assert forall j :: 0 <= j < |init| ==> init[j] == paths[j];
      WalkDeepestWins(start, init, k);
    }
  }

  /**
   * The precedence of layout resolution: the deepest declaring segment wins;
   * without one, a truthy query parameter; without that, the configured layout.
   */
  lemma ResolveLayoutPrecedence(configLayout: string, query: Option<string>, paths: seq<Segment>)
    ensures var r := ResolveLayout(configLayout, query, paths);
            match Deepest(paths)
            case Some(k) => r == DeclaredLayout(paths[k])
            case None => r == (if Truthy(query) then query.value else configLayout)
  {
    var start := StartLayout(configLayout, query);
    match Deepest(paths)
    case Some(k) => WalkDeepestWins(start, paths, k);
    case None => WalkWithoutDeclaration(start, paths);
  }

  /**
   * A segment that declares no layout (no route configuration, no data, or an
   * absent or empty layout) can be removed from anywhere in the path without
   * changing the result.
   */
  lemma WalkSkipsSilentSegment(start: string, before: seq<Segment>, s: Segment, after: seq<Segment>)
    requires !Declares(s)
    ensures Walk(start, before + [s] + after) == Walk(start, before + after)
  {
    var long, short := before + [s] + after, before + after;
    match Deepest(after)
    case Some(k) =>
      WalkDeepestWins(start, long, |before| + 1 + k);
      WalkDeepestWins(start, short, |before| + k);
    case None =>
      WalkWithoutDeclaration(Walk(start, before), after);
      match Deepest(before)
      case Some(k) =>
        WalkDeepestWins(start, long, k);
        WalkDeepestWins(start, short, k);
      case None =>
        assert forall j :: 0 <= j < |long| ==> !Declares(long[j]) by {
          forall j | 0 <= j < |long| ensures !Declares(long[j]) {
            if j < |before| { assert long[j] == before[j]; }
            else if j > |before| { assert long[j] == after[j - |before| - 1]; }
          }
        }
        assert forall j :: 0 <= j < |short| ==> !Declares(short[j]) by {
          forall j | 0 <= j < |short| ensures !Declares(short[j]) {
            if j < |before| { assert short[j] == before[j]; }
            else { assert short[j] == after[j - |before|]; }
          }
        }
        WalkWithoutDeclaration(start, long);
        WalkWithoutDeclaration(start, short);
  }

  /**
   * Resolving again on the same route after the query parameter has been
   * written back into the configuration gives the same layout and leaves the
   * configuration as it is.
   */
  lemma ResolveLayoutIdempotent(configLayout: string, query: Option<string>, paths: seq<Segment>)
    ensures var c := StartLayout(configLayout, query);
            StartLayout(c, query) == c
            && ResolveLayout(c, query, paths) == ResolveLayout(configLayout, query, paths)
  {
  }

  /** A section's layout is inherited by a leaf that declares none; a deeper declaration wins over it. */
  lemma SectionAndLeafExamples()
    ensures var root, leaf := Segment(None), Segment(Some(Route(None)));
            var section := Segment(Some(Route(Some(RouteData(Some("classy"))))));
            var modern := Segment(Some(Route(Some(RouteData(Some("modern"))))));
            && ResolveLayout("default", None, [root, section, leaf]) == "classy"
            && ResolveLayout("default", None, [root, section, modern]) == "modern"
            && ResolveLayout("default", Some("compact"), [root, leaf]) == "compact"
            && ResolveLayout("default", Some(""), [root, leaf]) == "default"
  {
    var root, leaf := Segment(None), Segment(Some(Route(None)));
    var section := Segment(Some(Route(Some(RouteData(Some("classy"))))));
    var modern := Segment(Some(Route(Some(RouteData(Some("modern"))))));
    WalkDeepestWins("default", [root, section, leaf], 1);
    WalkDeepestWins("default", [root, section, modern], 2);
    WalkWithoutDeclaration("compact", [root, leaf]);
    WalkWithoutDeclaration("default", [root, leaf]);
  }

  // ---------------------------------------------------------------------
  // State
  // ---------------------------------------------------------------------

  /** The shared application configuration; the layout component writes its `layout`. */
  class AppConfig {
    var layout: string
    var scheme: string
    var theme: string

    constructor (layout: string, scheme: string, theme: string)
      ensures this.layout == layout && this.scheme == scheme && this.theme == theme
    {
      this.layout := layout;
      this.scheme := scheme;
      this.theme := theme;
    }
  }

  class LayoutComponent {
    var config: AppConfig?
    var layout: string
    var scheme: string
    var theme: string
    /** The class list of the document body. */
    var bodyClasses: set<string>

    /** A component before its first callback: no configuration yet. */
    constructor (bodyClasses: set<string>)
      ensures config == null && layout == "" && scheme == "" && theme == ""
      ensures this.bodyClasses == bodyClasses
    {
      config := null;
      layout, scheme, theme := "", "", "";
      this.bodyClasses := bodyClasses;
    }

    /**
     * The configuration/media-query callback: stores the resolved scheme and
     * theme and applies both to the body's class list.
     */
    method ApplyPresentation(c: AppConfig, prefersDark: bool)
      modifies this`scheme, this`theme, this`bodyClasses
      ensures ResolveOptions(c.scheme, c.theme, prefersDark) == Options(scheme, theme)
      ensures bodyClasses == ThemeClasses(SchemeClasses(old(bodyClasses), scheme), theme)
    {
      var options := ResolveOptions(c.scheme, c.theme, prefersDark);
      scheme := options.scheme;
      theme := options.theme;
      UpdateScheme();
      UpdateTheme();
    }

    /** Removes both scheme classes, then adds the current scheme's class. */
    method UpdateScheme()
      modifies this`bodyClasses
      ensures bodyClasses == SchemeClasses(old(bodyClasses), scheme)
    {
      bodyClasses := bodyClasses - {"light", "dark"};
      bodyClasses := bodyClasses + {scheme};
    }

    /** Adds the current theme's class; a previous theme's class stays. */
    method UpdateTheme()
      modifies this`bodyClasses
      ensures bodyClasses == ThemeClasses(old(bodyClasses), theme)
    {
      bodyClasses := bodyClasses + {theme};
    }

    /** The configuration callback: stores the configuration and resolves the layout. */
    method OnConfig(c: AppConfig, route: ActivatedRoute)
      modifies this`config, this`layout, c`layout
      ensures config == c
      ensures c.layout == StartLayout(old(c.layout), Leaf(route).queryLayout)
      ensures layout == ResolveLayout(old(c.layout), Leaf(route).queryLayout, Leaf(route).pathFromRoot)
    {
      config := c;
      UpdateLayout(route);
    }

    /** The navigation-end callback: resolves the layout again. */
    method OnNavigationEnd(route: ActivatedRoute)
      requires config != null
      modifies this`layout, config`layout
      ensures config.layout == StartLayout(old(config.layout), Leaf(route).queryLayout)
      ensures layout == ResolveLayout(old(config.layout), Leaf(route).queryLayout, Leaf(route).pathFromRoot)
    {
      UpdateLayout(route);
    }

    /**
     * Resolves the layout for the activated route `route`: descend to the
     * leaf, start from the configuration, let a truthy query parameter
     * override it (and write it back into the configuration), then let every
     * declaring segment of the leaf's path from the root overwrite it.
     */
    method UpdateLayout(route: ActivatedRoute)
      requires config != null
      modifies this`layout, config`layout
      ensures config.layout == StartLayout(old(config.layout), Leaf(route).queryLayout)
      ensures layout == ResolveLayout(old(config.layout), Leaf(route).queryLayout, Leaf(route).pathFromRoot)
    {
      var leaf := route;
      while leaf.firstChild.Some?
        invariant Leaf(leaf) == Leaf(route)
        decreases leaf
      {
        leaf := leaf.firstChild.value;
      }

      layout := config.layout;

      var layoutFromQueryParam := leaf.queryLayout;
      if Truthy(layoutFromQueryParam) {
        layout := layoutFromQueryParam.value;
        if config != null {
          config.layout := layoutFromQueryParam.value;
        }
      }

      var paths := leaf.pathFromRoot;
      ghost var start := layout;
      assert start == StartLayout(old(config.layout), leaf.queryLayout);
      var i := 0;
      while i < |paths|
        invariant i <= |paths|
        invariant layout == Walk(start, paths[..i])
        invariant config.layout == StartLayout(old(config.layout), leaf.queryLayout)
      {
        var path := paths[i];
        if path.routeConfig.Some? && path.routeConfig.value.data.Some?
          && Truthy(path.routeConfig.value.data.value.layout)
        {
          layout := path.routeConfig.value.data.value.layout.value;
        }
        assert paths[..i + 1][..i] == paths[..i];
        i := i + 1;
      }
      assert paths[..i] == paths;
    }
  }
}
