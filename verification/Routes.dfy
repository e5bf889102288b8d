/** Route paths and browser paths under a configurable base path; letter case is ASCII. */
module Routes {
  import opened Ascii
  import opened Options

  // ---------------------------------------------------------------- config.ts

  /** `getBasePathForUrl`, for the configured BASE_PATH. */
  function BasePathForUrl(configured: string): string {
    if configured != "" && configured[|configured| - 1] == '/' then configured[..|configured| - 1] else configured
  }

  // ---------------------------------------------------------------- routes.ts

  const REGISTERED: set<string> := {
    "/login", "/", "/oauth-callback", "/device", "/consent/downstream", "/consent/downstream-error",
    "/consent/server", "/consent/agent", "/server-registry", "/server-edit", "/agent-registry", "/agent-edit",
    "/federation-registry", "/federation-edit", "/skill-sync-sources", "/skill-sync-sources/:id",
    "/workflow-registry", "/workflow-edit", "/models", "/skills", "/generate-token"
  }

  const DETAIL_PREFIX: string := "/skill-sync-sources/"

  function WithoutTrailingSlashes(s: string): string {
    if s != "" && s[|s| - 1] == '/' then WithoutTrailingSlashes(s[..|s| - 1]) else s
  }

  function OrRoot(s: string): string {
    if s == "" then "/" else s
  }

  /** `normalizePathname`. */
  function Normalize(path: string): string {
    if path == "" || path == "/" then "/" else OrRoot(WithoutTrailingSlashes(path))
  }

  /** `getNormalizedBasePath`. */
  function Base(configured: string): string {
    var base := BasePathForUrl(configured);
    if base == "" || base == "/" then ""
    else Normalize(if base[0] == '/' then base else "/" + base)
  }

  /** `getBrowserPath`. */
  function BrowserPath(configured: string, route: string): string {
    var base := Base(configured);
    if Normalize(route) == "/" then OrRoot(base) else base + Normalize(route)
  }

  /** `getAppRoutePath`; None is `null`. */
  function AppRoute(configured: string, path: string): Option<string> {
    RouteUnder(Base(configured), Normalize(path))
  }

  function RouteUnder(base: string, normalized: string): Option<string> {
    if base == "" then Some(normalized)
    else if Lower(normalized) == Lower(base) then Some("/")
    else if !(Lower(base) + "/" <= Lower(normalized)) then None
    else Some(Normalize(normalized[|base|..]))
  }

  /** `isProtectedBrowserPath`. */
  predicate IsProtected(configured: string, path: string) {
    match AppRoute(configured, path)
    case None => false
    case Some(route) =>
      var comparable := Lower(route);
      (comparable in REGISTERED || IsDetail(comparable)) && comparable != "/login"
  }

  /** One non-empty segment below the sync sources. */
  predicate IsDetail(route: string) {
    && DETAIL_PREFIX <= route && |route| > |DETAIL_PREFIX|
    && '/' !in route[|DETAIL_PREFIX|..]
  }

  /** `captureReturnPath`, at the given location. */
  function CaptureReturnPath(configured: string, path: string, search: string): string {
    if !IsProtected(configured, path) then "/" else AppPath(configured, path) + search
  }

  function AppPath(configured: string, path: string): string {
    var base := BasePathForUrl(configured);
    if base != "" && (path == base || base + "/" <= path) then OrRoot(path[|base|..]) else path
  }

  // ---------------------------------------------------------------- normal forms

  predicate IsNormal(s: string) {
    s == "/" || (s != "" && s[|s| - 1] != '/')
  }

  /** A path that starts with exactly one slash. */
  predicate IsRooted(path: string) {
    path != "" && path[0] == '/' && (|path| > 1 ==> path[1] != '/')
  }

  lemma {:induction false} WithoutTrailingSlashesIsPrefix(s: string)
    ensures var t := WithoutTrailingSlashes(s);
            && t <= s && (t == "" || t[|t| - 1] != '/')
            && (forall i :: |t| <= i < |s| ==> s[i] == '/')
  {
    if s != "" && s[|s| - 1] == '/' {
      WithoutTrailingSlashesIsPrefix(s[..|s| - 1]);
    }
  }

  /** Normalising yields a normal form, and leaves exactly the normal forms as they are. */
  lemma NormalizeIff(s: string)
    ensures IsNormal(Normalize(s))
    ensures Normalize(s) == s <==> IsNormal(s)
    ensures s != "" ==> Normalize(s)[0] == s[0]
  {
    WithoutTrailingSlashesIsPrefix(s);
  }

  /** Anywhere but at a protected location the captured path is the root. */
  lemma CaptureElsewhereIsRoot(configured: string, path: string, search: string)
    requires !IsProtected(configured, path)
    ensures CaptureReturnPath(configured, path, search) == "/"
  {
  }

  /** Only trailing slashes are removed, so a normal tail can be normalised after the cut. */
  lemma {:induction false} TailNormalizes(base: string, tail: string)
    requires WithoutTrailingSlashes(tail) != ""
    ensures WithoutTrailingSlashes(base + tail) == base + WithoutTrailingSlashes(tail)
  {
    if tail[|tail| - 1] == '/' {
      assert (base + tail)[..|base + tail| - 1] == base + tail[..|tail| - 1];
      TailNormalizes(base, tail[..|tail| - 1]);
    }
  }

  lemma BaseIsNormal(configured: string)
    ensures var base := Base(configured); base == "" || (IsNormal(base) && base[0] == '/')
  {
    var base := BasePathForUrl(configured);
    if base != "" && base != "/" {
      NormalizeIff(if base[0] == '/' then base else "/" + base);
    }
  }

  lemma LowerConcat(a: string, b: string)
    ensures Lower(a + b) == Lower(a) + Lower(b)
  {
  }

  lemma NotPrefix(a: string, b: string, i: nat)
    requires i < |a| && (i < |b| ==> a[i] != b[i])
    ensures !(a <= b)
  {
  }

  // ---------------------------------------------------------------- main results

  /**
   * Reading back the browser path of a route gives the normalised route, for every configured base path, exactly when
   * the route is empty or starts with a slash, or there is no base path.
   */
  lemma RoundTripIff(configured: string, route: string)
    ensures AppRoute(configured, BrowserPath(configured, route)) == Some(Normalize(route)) <==>
            route == "" || route[0] == '/' || Base(configured) == ""
  {
    var base, normal := Base(configured), Normalize(route);
    BaseIsNormal(configured);
    NormalizeIff(route);
    NormalizeIff(base);
    NormalizeIff(normal);
    assert "" + normal == normal;
    hide Base, WithoutTrailingSlashes;
    if base != "" && normal != "/" {
      NormalizeIff(base + normal);
      UnderBase(base, normal);
    }
  }

  lemma UnderBase(base: string, normal: string)
    requires IsNormal(base) && base[0] == '/' && IsNormal(normal) && normal != "/"
    ensures RouteUnder(base, base + normal) == if normal[0] == '/' then Some(normal) else None
  {
    var path := base + normal;
    NormalizeIff(normal);
    LowerConcat(base, normal);
    hide Normalize, Lower;
    assert path[|base|..] == normal;
    assert |Lower(base)| == |base| && |Lower(normal)| == |normal| && Lower(normal)[0] == LowerChar(normal[0]) by {
      LowerShape(base);
      LowerShape(normal);
    }
    if normal[0] == '/' {
      assert Lower(base) + "/" == Lower(path)[..|base| + 1];
    } else {
      NotPrefix(Lower(base) + "/", Lower(path), |base|);
    }
  }

  lemma LowerShape(s: string)
    ensures |Lower(s)| == |s| && (s != "" ==> Lower(s)[0] == LowerChar(s[0]))
  {
  }

  /** The other way: a recognised browser path is that of the route found, up to trailing slashes and letter case. */
  lemma RecognisedPathsAreBrowserPaths(configured: string, path: string)
    requires AppRoute(configured, path).Some?
    ensures var route := AppRoute(configured, path).value;
            && IsNormal(route)
            && Lower(BrowserPath(configured, route)) == Lower(Normalize(path))
  {
    var base, normal := Base(configured), Normalize(path);
    BaseIsNormal(configured);
    NormalizeIff(path);
    NormalizeIff(normal);
    if base != "" && Lower(normal) != Lower(base) {
      var tail := normal[|base|..];
      assert Lower(normal)[|base|] == '/';
      assert normal == normal[..|base|] + tail;
      assert tail[0] == '/' && tail != "/";
      NormalizeIff(tail);
      assert Normalize(tail) == tail;
      LowerConcat(normal[..|base|], tail);
      LowerConcat(base, tail);
      assert Lower(normal[..|base|]) == Lower(normal)[..|base|] == Lower(base);
    }
  }

  /** A protected route is a single-slash path, so stripping a base path cannot cut into it. */
  lemma ProtectedRoutesAreRooted(configured: string, path: string)
    requires IsProtected(configured, path)
    ensures IsRooted(AppRoute(configured, path).value)
  {
    hide AppRoute;
    var route := AppRoute(configured, path).value;
    RegisteredAreRooted(Lower(route));
    assert Lower(route)[0] == LowerChar(route[0]);
    assert |route| > 1 ==> Lower(route)[1] == LowerChar(route[1]);
  }

  /** The pages that need a signed-in user. */
  predicate IsPage(page: string) {
    || page == "/" || page == "/oauth-callback" || page == "/device"
    || page == "/consent/downstream" || page == "/consent/downstream-error" || page == "/consent/server"
    || page == "/consent/agent" || page == "/server-registry" || page == "/server-edit"
    || page == "/agent-registry" || page == "/agent-edit" || page == "/federation-registry"
    || page == "/federation-edit" || page == "/skill-sync-sources" || page == "/skill-sync-sources/:id"
    || page == "/workflow-registry" || page == "/workflow-edit" || page == "/models" || page == "/skills"
    || page == "/generate-token"
  }

  /** For every base path, the browser path of a route is protected exactly when the route, up to trailing slashes and
    * letter case, is one of these pages, or that of one sync source. */
  lemma ProtectedExactly(configured: string, route: string)
    requires route == "" || route[0] == '/'
    ensures var page := Lower(Normalize(route));
            IsProtected(configured, BrowserPath(configured, route)) <==>
            || IsPage(page)
            || exists source: string :: source != "" && '/' !in source && page == "/skill-sync-sources/" + source
  {
    RoundTripIff(configured, route);
    DetailIff(Lower(Normalize(route)));
    PageIff(Lower(Normalize(route)));
    hide IsDetail, IsPage, AppRoute, BrowserPath, Normalize, Lower;
  }

  lemma PageIff(page: string)
    ensures page in REGISTERED && page != "/login" <==> IsPage(page)
    ensures IsDetail(page) ==> page != "/login"
  {
    assert IsDetail(page) ==> page[1] == DETAIL_PREFIX[1];
  }

  lemma DetailIff(page: string)
    ensures IsDetail(page) <==>
            exists source: string :: source != "" && '/' !in source && page == "/skill-sync-sources/" + source
  {
    if IsDetail(page) {
      assert page == "/skill-sync-sources/" + page[|DETAIL_PREFIX|..];
    }
  }

  lemma RegisteredAreRooted(route: string)
    requires route in REGISTERED || IsDetail(route)
    ensures IsRooted(route)
  {
    if IsDetail(route) {
      assert route[0] == DETAIL_PREFIX[0] == '/' && route[1] == DETAIL_PREFIX[1] == 's';
    } else {
      assert route == "/" || (|route| > 1 && route[0] == '/' && route[1] != '/');
    }
  }

  /**
   * Capturing the return path at the browser path of a protected route gives that route and the query exactly when the
   * base path that is cut off is the one that was put in front.
   */
  lemma CaptureRoundTripIff(configured: string, route: string, search: string)
    requires route != "" && route[0] == '/'
    requires IsProtected(configured, BrowserPath(configured, route))
    ensures CaptureReturnPath(configured, BrowserPath(configured, route), search) == Normalize(route) + search <==>
            || Base(configured) == ""
            || BasePathForUrl(configured) == Base(configured)
            || (Base(configured) == "/" && Normalize(route) == "/")
  {
    var path := BrowserPath(configured, route);
    RoundTripIff(configured, route);
    ProtectedRoutesAreRooted(configured, path);
    NormalizeIff(route);
    AppPathIff(configured, Normalize(route));
    SuffixCancels(AppPath(configured, path), Normalize(route), search);
  }

  lemma SuffixCancels(a: string, b: string, c: string)
    ensures a + c == b + c <==> a == b
  {
    if a + c == b + c {
      assert a == (a + c)[..|a|] && b == (b + c)[..|b|];
    }
  }

  /** How the base path put in front differs from the one that is cut off. */
  lemma BaseShape(configured: string)
    requires Base(configured) != ""
    ensures var base, url := Base(configured), BasePathForUrl(configured);
            || (url == base && base != "/")
            || url[0] != '/'
            || (|url| > |base| && forall i :: |base| <= i < |url| ==> url[i] == '/')
  {
    var url := BasePathForUrl(configured);
    if url[0] == '/' {
      WithoutTrailingSlashesIsPrefix(url);
    }
  }

  /** A base path with other slashes than the one put in front is not found in the browser path. */
  lemma NotCut(base: string, url: string, path: string, normal: string)
    requires url != "" && base != "" && base[0] == '/'
    requires IsNormal(normal) && IsRooted(normal)
    requires path == if normal == "/" then base else base + normal
    requires || url[0] != '/'
             || (|url| > |base| && forall i :: |base| <= i < |url| ==> url[i] == '/')
    ensures path != url && !(url + "/" <= path)
  {
    assert path[0] == '/';
    if url[0] == '/' && normal != "/" {
      assert path[|path| - 1] == normal[|normal| - 1] && path[|base| + 1] == normal[1];
      NotPrefix(url + "/", path, |base| + 1);
    }
  }

  lemma AppPathIff(configured: string, normal: string)
    requires IsNormal(normal) && IsRooted(normal)
    ensures var base := Base(configured);
            var path := if normal == "/" then OrRoot(base) else base + normal;
            AppPath(configured, path) == normal <==>
            base == "" || BasePathForUrl(configured) == base || (base == "/" && normal == "/")
  {
    var base, url := Base(configured), BasePathForUrl(configured);
    var path := if normal == "/" then OrRoot(base) else base + normal;
    BaseIsNormal(configured);
    hide Base, BasePathForUrl, Normalize;
    if base == "" {
      BaseIsEmptyIff(configured);
      assert path == normal;
      NotPrefix("//", path, 1);
    } else if url == base {
      if normal != "/" {
        assert base + "/" <= path by { assert path[..|base| + 1] == base + "/"; }
        assert path[|base|..] == normal;
      }
    } else {
      BaseShape(configured);
      BaseIsEmptyIff(configured);
      NotCut(base, url, path, normal);
    }
  }

  lemma BaseIsEmptyIff(configured: string)
    ensures Base(configured) == "" <==> BasePathForUrl(configured) == "" || BasePathForUrl(configured) == "/"
  {
  }

  lemma {:induction false} AllSlashesVanish(s: string)
    requires forall i :: 0 <= i < |s| ==> s[i] == '/'
    ensures WithoutTrailingSlashes(s) == ""
  {
    if s != "" {
      AllSlashesVanish(s[..|s| - 1]);
    }
  }

  /** A recognised path is no shorter than a well-formed base path, and goes on with a slash. */
  lemma RecognisedShape(configured: string, path: string)
    requires Base(configured) != "" && Base(configured) != "/" && AppRoute(configured, path).Some?
    ensures var base, normal := Base(configured), Normalize(path);
            && normal == WithoutTrailingSlashes(path) && |normal| >= |base| >= 2
            && (|normal| == |base| ==> AppRoute(configured, path) == Some("/"))
            && (|normal| > |base| ==>
                  normal[|base|] == '/' && |normal| > |base| + 1 &&
                  AppRoute(configured, path) == Some(normal[|base|..]))
  {
    var base, normal := Base(configured), Normalize(path);
    BaseIsNormal(configured);
    NormalizeIff(path);
    if |normal| > |base| {
      assert Lower(normal)[|base|] == '/';
      NormalizeIff(normal[|base|..]);
    }
  }

  /** A cut that finds nothing leaves a path longer than the route it stands for. */
  lemma UncutDiffers(configured: string, path: string)
    requires Base(configured) != "" && Base(configured) != "/" && AppRoute(configured, path).Some?
    ensures Normalize(path) != AppRoute(configured, path).value
  {
    RecognisedShape(configured, path);
  }

  lemma CutWithoutBase(configured: string, path: string)
    requires Base(configured) == "" && IsProtected(configured, path)
    ensures Normalize(AppPath(configured, path)) == AppRoute(configured, path).value
  {
    BaseIsEmptyIff(configured);
    ProtectedRoutesAreRooted(configured, path);
    WithoutTrailingSlashesIsPrefix(path);
    hide IsProtected, Base, BasePathForUrl;
    if "//" <= path {
      assert path[0] == '/' && path[1] == '/';
      assert WithoutTrailingSlashes(path) == "";
      AllSlashesVanish(path[1..]);
    }
  }

  lemma CutAtRootBase(configured: string, path: string)
    requires Base(configured) == "/" && IsProtected(configured, path)
    ensures Normalize(AppPath(configured, path)) == AppRoute(configured, path).value <==> Normalize(path) == "/"
    ensures IsCut(configured, path) ==> Normalize(path) == "/"
  {
    RootBase(configured);
    ProtectedRoutesAreRooted(configured, path);
    NormalizeIff(path);
    WithoutTrailingSlashesIsPrefix(path);
    if Normalize(path) == "/" {
      hide IsProtected, Base, BasePathForUrl;
      AllSlashesVanish(AppPath(configured, path));
    } else {
      DoubleSlashUncut(configured, path);
      hide IsProtected, Base, BasePathForUrl, AppRoute;
    }
  }

  /** Only several slashes in a row are read as the base path "/". */
  lemma RootBase(configured: string)
    requires Base(configured) == "/"
    ensures var url := BasePathForUrl(configured); |url| > 1 && forall i :: 0 <= i < |url| ==> url[i] == '/'
  {
    BaseShape(configured);
    BaseOfRelative(configured);
    BaseIsEmptyIff(configured);
    var url := BasePathForUrl(configured);
    WithoutTrailingSlashesIsPrefix(url);
  }

  /** Below that base path a protected location starts with just two slashes, and keeps them. */
  lemma DoubleSlashUncut(configured: string, path: string)
    requires Base(configured) == "/" && IsProtected(configured, path) && Normalize(path) != "/"
    ensures !IsCut(configured, path)
    ensures AppRoute(configured, path) == Some(Normalize(path)[1..]) && Normalize(path)[1..] != Normalize(path)
  {
    var url, normal := BasePathForUrl(configured), Normalize(path);
    RootBase(configured);
    ProtectedRoutesAreRooted(configured, path);
    NormalizeIff(path);
    WithoutTrailingSlashesIsPrefix(path);
    hide IsProtected, Base, BasePathForUrl;
    assert Lower(normal)[0] == LowerChar(normal[0]) && Lower(normal)[1] == LowerChar(normal[1]);
    assert normal[0] == '/' && normal[1] == '/';
    NormalizeIff(normal[1..]);
    assert AppRoute(configured, path) == Some(normal[1..]);
    NotPrefix(url + "/", path, 2);
  }

  /** A base path written without a leading slash has a name. */
  lemma BaseOfRelative(configured: string)
    ensures BasePathForUrl(configured) != "" && BasePathForUrl(configured)[0] != '/' ==> |Base(configured)| > 1
  {
    var lead := "/" + BasePathForUrl(configured);
    assert BasePathForUrl(configured) != "" ==> lead[1] == BasePathForUrl(configured)[0];
    WithoutTrailingSlashesIsPrefix(lead);
  }

  lemma CutOfNamedBase(configured: string, path: string)
    requires Base(configured) != "" && Base(configured) != "/" && IsProtected(configured, path)
    ensures Normalize(AppPath(configured, path)) == AppRoute(configured, path).value <==> IsCut(configured, path)
  {
    var base, url := Base(configured), BasePathForUrl(configured);
    assert AppPath(configured, path) == if IsCut(configured, path) then OrRoot(path[|url|..]) else path;
    if !IsCut(configured, path) {
      UncutDiffers(configured, path);
      return;
    }
    RecognisedShape(configured, path);
    ProtectedRoutesAreRooted(configured, path);
    CutIsBase(configured, path);
    WithoutTrailingSlashesIsPrefix(path);
    hide Base, BasePathForUrl, IsProtected, AppRoute, IsCut;
    if url == base {
      CutAgrees(base, path);
    } else {
      AllSlashesVanish(path[|url|..]);
    }
  }

  /** What is cut off starts with the base path; with more slashes than that, only slashes are left. */
  lemma CutIsBase(configured: string, path: string)
    requires Base(configured) != "" && Base(configured) != "/" && IsProtected(configured, path) &&
        IsCut(configured, path)
    ensures var base, url := Base(configured), BasePathForUrl(configured);
            && |url| <= |path| && base <= path
            && (url != base ==> AppRoute(configured, path) == Some("/") && forall i :: |url| <= i < |path| ==>
                path[i] == '/')
  {
    var base, url := Base(configured), BasePathForUrl(configured);
    BaseShape(configured);
    BaseIsNormal(configured);
    RecognisedStart(configured, path);
    RecognisedShape(configured, path);
    WithoutTrailingSlashesIsPrefix(path);
    assert path[..|url|] == url;
    assert url[0] == '/';
    if url != base {
      WithoutTrailingSlashesIsPrefix(url);
      assert base <= url;
      if |Normalize(path)| > |base| {
        LongerIsNotCut(configured, path);
      }
    }
  }

  /** Below a base path with fewer slashes than the one looked for, a protected route is not found. */
  lemma LongerIsNotCut(configured: string, path: string)
    requires Base(configured) != "" && Base(configured) != "/" && IsProtected(configured, path)
    requires BasePathForUrl(configured) != Base(configured) && |Normalize(path)| > |Base(configured)|
    ensures !IsCut(configured, path)
  {
    var base, url, normal := Base(configured), BasePathForUrl(configured), Normalize(path);
    RecognisedShape(configured, path);
    ProtectedRoutesAreRooted(configured, path);
    WithoutTrailingSlashesIsPrefix(path);
    BaseShape(configured);
    BaseIsEmptyIff(configured);
    RecognisedStart(configured, path);
    hide Base, BasePathForUrl, IsProtected, AppRoute;
    assert path[|base| + 1] == normal[|base| + 1] != '/';
    if url[0] == '/' {
      NotPrefix(url + "/", path, |base| + 1);
    }
  }

  lemma RecognisedStart(configured: string, path: string)
    requires Base(configured) != "" && AppRoute(configured, path).Some?
    ensures path == "" || path[0] == '/'
  {
    BaseIsNormal(configured);
    NormalizeIff(path);
    assert Lower(Normalize(path))[0] == LowerChar(Normalize(path)[0]);
    assert Lower(Base(configured))[0] == '/';
  }

  /** `hasBasePath`: the base path is found in front of the location, in the same letter case, and cut off. */
  predicate IsCut(configured: string, path: string) {
    var url := BasePathForUrl(configured);
    url != "" && (path == url || url + "/" <= path)
  }

  /**
   * At any protected location, and for every base path, the captured path is the route, up to trailing slashes, exactly
   * when the base path was cut off, or there was none to cut; and it is the route itself when it also has no trailing
   * slashes.
   */
  lemma CaptureElsewhereIff(configured: string, path: string, search: string)
    requires IsProtected(configured, path)
    ensures var route := AppRoute(configured, path).value;
            var found := || Base(configured) == ""
                         || (Base(configured) == "/" && Normalize(path) == "/")
                         || IsCut(configured, path);
            && (Normalize(AppPath(configured, path)) == route <==> found)
            && (CaptureReturnPath(configured, path, search) == route + search <==>
                  found && IsNormal(AppPath(configured, path)))
    ensures Base(configured) != "" && BasePathForUrl(configured) == Base(configured) ==>
              (IsCut(configured, path) <==> Base(configured) <= path)
  {
    var base := Base(configured);
    var route := AppRoute(configured, path).value;
    if base == "" {
      CutWithoutBase(configured, path);
    } else if base == "/" {
      CutAtRootBase(configured, path);
    } else {
      CutOfNamedBase(configured, path);
    }
    NormalizeIff(AppPath(configured, path));
    RouteIsNormal(configured, path);
    SuffixCancels(AppPath(configured, path), route, search);
    if base != "" && BasePathForUrl(configured) == base {
      WellFormedCutIff(configured, path);
    }
  }

  lemma RouteIsNormal(configured: string, path: string)
    requires AppRoute(configured, path).Some?
    ensures IsNormal(AppRoute(configured, path).value)
  {
    RecognisedPathsAreBrowserPaths(configured, path);
  }

  lemma WellFormedCutIff(configured: string, path: string)
    requires Base(configured) != "" && BasePathForUrl(configured) == Base(configured)
    requires AppRoute(configured, path).Some?
    ensures IsCut(configured, path) <==> Base(configured) <= path
  {
    var base := Base(configured);
    BaseShape(configured);
    BaseIsNormal(configured);
    RecognisedShape(configured, path);
    WithoutTrailingSlashesIsPrefix(path);
    assert |path| > |base| ==> path[|base|] == '/';
    assert base <= path && |path| > |base| ==> path[..|base| + 1] == base + "/";
  }

  lemma CutAgrees(base: string, path: string)
    requires base <= path && |WithoutTrailingSlashes(path)| >= |base|
    ensures var normal := WithoutTrailingSlashes(path);
            Normalize(OrRoot(path[|base|..])) == OrRoot(normal[|base|..])
  {
    WithoutTrailingSlashesIsPrefix(path);
    var tail := path[|base|..];
    assert path == base + tail;
    if forall i :: 0 <= i < |tail| ==> tail[i] == '/' {
      AllSlashesVanish(tail);
    } else {
      WithoutTrailingSlashesIsPrefix(tail);
      TailNormalizes(base, tail);
    }
  }

  /** The location is recognised whatever its letter case, but then keeps its base path in the captured path. */
  lemma OtherLetterCaseKeepsBase()
    ensures IsProtected("/gateway", "/GATEWAY/skills")
    ensures CaptureReturnPath("/gateway", "/GATEWAY/skills", "") == "/GATEWAY/skills"
  {
    assert Base("/gateway") == "/gateway";
    assert Lower("/GATEWAY/skills") == "/gateway/skills" && Lower("/gateway") == "/gateway";
    assert "/GATEWAY/skills"[8..] == "/skills" && Lower("/skills") == "/skills";
    assert "/GATEWAY/skills"[1] != "/gateway"[1];
    assert "/GATEWAY/skills" + "" == "/GATEWAY/skills";
  }
}
