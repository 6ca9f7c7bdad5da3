/**
 * The front controller of `Core/Site/Router.php`: the request URI reduced to
 * path segments (or the home page), the 404 flag the URL itself earns, the
 * controller class chosen from the resolved path, and the order in which the
 * router runs the hooks, the routing and the model's own initialisation.
 */
module SiteRouter {
  import opened Wrappers
  import opened Strings
  import opened Rows
  import opened Registry
  import opened CoreModel

  // ---------------------------------------------------------------------------
  // The request URI

  predicate IsParamMark(c: char) {
    c == '?' || c == '#'
  }

  /** The index of the first `?` or `#` of `s`, or |s| when there is none. */
  function FirstParamMark(s: string): (i: nat)
    ensures i <= |s|
    ensures i < |s| ==> IsParamMark(s[i])
    ensures forall j :: 0 <= j < i ==> !IsParamMark(s[j])
  {
    if s == [] then 0 else if IsParamMark(s[0]) then 0 else 1 + FirstParamMark(s[1..])
  }

  /**
   * The URI with every match of the pattern `[\?\#].*` removed: each `?` or `#`
   * goes together with the rest of its line (`.` stops at a line feed, which stays).
   */
  function StripParams(s: string): (t: string)
    ensures '?' !in t && '#' !in t
    ensures |t| <= |s|
    decreases |s|
  {
    if s == [] then []
    else if IsParamMark(s[0]) then StripParams(s[IndexOf(s, '\n')..])
    else [s[0]] + StripParams(s[1..])
  }

  /** On a single-line URI, stripping the parameters keeps exactly what precedes the first mark. */
  lemma {:induction false} StripParamsOneLine(s: string)
    requires '\n' !in s
    ensures StripParams(s) == s[..FirstParamMark(s)]
    decreases |s|
  {
    if s != [] {
      if IsParamMark(s[0]) {
        IndexOfFirst(s, '\n', |s|);
      } else {
        StripParamsOneLine(s[1..]);
      }
    }
  }

  /** `IndexOf` finds the first occurrence. */
  lemma IndexOfFirst(s: string, c: char, j: nat)
    requires j <= |s| && (j < |s| ==> s[j] == c)
    requires forall k :: 0 <= k < j ==> s[k] != c
    ensures IndexOf(s, c) == j
  {
  }

  /** At a mark, stripping continues from the next line feed of `s`, or ends when `s` has none. */
  lemma StripParamsAtMark(s: string, x: string)
    requires |s| > 0 && IsParamMark(s[0]) && '\n' !in x
    ensures var j := IndexOf(s, '\n');
      StripParams(s + x) == if j < |s| then StripParams(s[j..] + x) else []
  {
    var j := IndexOf(s, '\n');
    assert (s + x)[0] == s[0];
    if j < |s| {
      IndexOfFirst(s + x, '\n', j);
      assert (s + x)[j..] == s[j..] + x;
    } else {
      IndexOfFirst(s + x, '\n', |s + x|);
    }
  }

  lemma StripParamsKeeps(s: string, x: string)
    requires |s| > 0 && !IsParamMark(s[0])
    ensures StripParams(s + x) == [s[0]] + StripParams(s[1..] + x)
  {
    assert (s + x)[0] == s[0];
    assert (s + x)[1..] == s[1..] + x;
  }

  /** Appending a query string or a fragment (one line) leaves the stripped URI as it was. */
  lemma {:induction false} StripParamsIgnoresTail(s: string, x: string)
    requires |x| > 0 && IsParamMark(x[0]) && '\n' !in x
    ensures StripParams(s + x) == StripParams(s)
    decreases |s|
  {
    if s == [] {
      assert s + x == x;
      StripParamsAtMark(x, []);
      assert x + [] == x;
    } else if IsParamMark(s[0]) {
      StripParamsAtMark(s, x);
      StripParamsAtMark(s, []);
      assert s + [] == s;
      var j := IndexOf(s, '\n');
      if j < |s| {
        StripParamsIgnoresTail(s[j..], x);
        assert s[j..] + [] == s[j..];
      }
    } else {
      StripParamsKeeps(s, x);
      StripParamsKeeps(s, []);
      assert s + [] == s;
      StripParamsIgnoresTail(s[1..], x);
      assert s[1..] + [] == s[1..];
    }
  }

  /** PHP `substr(s, n)` for n >= 0: nothing when `s` is shorter than `n`. */
  function ChopStart(s: string, n: nat): string {
    if n <= |s| then s[n..] else ""
  }

  /**
   * The URI relative to the site root: leading slashes, the query and fragment,
   * the `startUrl` mount prefix (by its length), and the slashes after it gone.
   */
  function NormalisedUrl(uri: string, startUrl: string): string {
    TrimLeft(ChopStart(StripParams(TrimLeft(uri, {'/'})), |startUrl|), {'/'})
  }

  /** PHP `substr(u, -n)` for n > 0: the last `n` characters, or all of `u` when it is shorter. */
  function SuffixPart(u: string, n: nat): (t: string)
    ensures |t| == n <==> n <= |u|
    ensures n <= |u| ==> EndsWith(u, t)
  {
    if n <= |u| then u[|u| - n..] else u
  }

  /** PHP `substr(u, 0, -n)`: `u` without its last `n` characters (nothing left when too short). */
  function WithoutSuffix(u: string, n: nat): (t: string)
    ensures n > 0 && |u| > n ==> u == t + u[|u| - n..]
    ensures n > 0 && |u| <= n ==> t == ""
    ensures n == 0 ==> t == u
  {
    if n == 0 then u else if |u| > n then u[..|u| - n] else ""
  }

  /** What `routeByUrl` makes of the URI: the home page, or path segments and whether the URL alone is a 404. */
  datatype UrlRoute = Home | Segments(parts: seq<string>, is404: bool)

  /**
   * `routeByUrl`'s treatment of the URI. An empty normalised URL is the home
   * page. Otherwise the configured suffix is cut off by length (a 404 when it
   * was not there), trailing slashes are cut off (a 404 when there were any),
   * and the rest is split on `/`.
   */
  function RouteUrl(uri: string, startUrl: string, suffix: string): (r: UrlRoute)
    ensures r.Home? <==> NormalisedUrl(uri, startUrl) == ""
  {
    var u := NormalisedUrl(uri, startUrl);
    if u == "" then Home
    else
      var wrongSuffix := |suffix| > 0 && SuffixPart(u, |suffix|) != suffix;
      var v := WithoutSuffix(u, |suffix|);
      var slash := |v| > 0 && v[|v| - 1] == '/';
      var w := if slash then TrimRight(v, {'/'}) else v;
      Segments(Explode(w, '/'), wrongSuffix || slash)
  }

  /**
   * The URL alone is a 404 exactly when the configured suffix is missing or a
   * slash is left at the end once it is cut off; the segments are what remains
   * without the trailing slashes, split on `/`.
   */
  lemma RouteUrlSegments(uri: string, startUrl: string, suffix: string)
    requires RouteUrl(uri, startUrl, suffix).Segments?
    ensures var r := RouteUrl(uri, startUrl, suffix);
      var u := NormalisedUrl(uri, startUrl);
      (r.is404 <==> (|suffix| > 0 && !EndsWith(u, suffix)) || EndsWith(WithoutSuffix(u, |suffix|), "/")) &&
      Join(r.parts, '/') == TrimRight(WithoutSuffix(u, |suffix|), {'/'})
  {
    var u := NormalisedUrl(uri, startUrl);
    var v := WithoutSuffix(u, |suffix|);
    var slash := |v| > 0 && v[|v| - 1] == '/';
    var w := if slash then TrimRight(v, {'/'}) else v;
    JoinExplode(w, '/');
    assert slash <==> EndsWith(v, "/");
    if !slash {
      assert TrimRight(v, {'/'}) == v;
    }
  }

  // ---------------------------------------------------------------------------
  // The URI of a page, and what the router reads back from it

  /** A path segment as page URLs are built from: non-empty, one line, no `/`, `?` or `#`. */
  predicate PlainSegment(s: string) {
    |s| > 0 && '/' !in s && '?' !in s && '#' !in s && '\n' !in s
  }

  /** Text that survives parameter stripping untouched inside a URI. */
  predicate PlainText(s: string) {
    '?' !in s && '#' !in s && '\n' !in s
  }

  lemma {:induction false} JoinOfPlain(parts: seq<string>)
    requires |parts| > 0 && forall i :: 0 <= i < |parts| ==> PlainSegment(parts[i])
    ensures PlainText(Join(parts, '/'))
    ensures |parts[0]| > 0 && |Join(parts, '/')| > 0 && Join(parts, '/')[0] == parts[0][0]
    ensures var last := parts[|parts| - 1];
      |last| > 0 && Join(parts, '/')[|Join(parts, '/')| - 1] == last[|last| - 1]
  {
    assert PlainSegment(parts[0]) && PlainSegment(parts[|parts| - 1]);
    if |parts| > 1 {
      JoinOfPlain(parts[1..]);
      var tail := Join(parts[1..], '/');
      assert Join(parts, '/') == parts[0] + ['/'] + tail;
      assert parts[1..][|parts[1..]| - 1] == parts[|parts| - 1];
    }
  }

  lemma StripParamsPlain(s: string)
    requires PlainText(s)
    ensures StripParams(s) == s
  {
    StripParamsOneLine(s);
    assert FirstParamMark(s) == |s|;
  }

  /** The URI of page `segments` at mount point `startUrl` with the configured suffix. */
  function PageUri(startUrl: string, segments: seq<string>, suffix: string): string
    requires |segments| > 0
  {
    "/" + startUrl + "/" + (Join(segments, '/') + suffix)
  }

  /** The URI "/<startUrl>/<rest>" normalises to `rest`. */
  lemma NormalisedUnderMount(startUrl: string, rest: string)
    requires PlainText(startUrl) && (startUrl == [] || startUrl[0] != '/')
    requires PlainText(rest) && |rest| > 0 && rest[0] != '/'
    ensures NormalisedUrl("/" + startUrl + "/" + rest, startUrl) == rest
  {
    assert TrimLeft(rest, {'/'}) == rest;
    var body := startUrl + ("/" + rest);
    assert "/" + startUrl + "/" + rest == "/" + body;
    assert TrimLeft("/", {'/'}) == [];
    TrimLeftAppend("/", body, {'/'});
    TrimLeftAppend("/", rest, {'/'});
    if startUrl == [] {
      assert body == "/" + rest;
      StripParamsPlain(rest);
    } else {
      assert TrimLeft(body, {'/'}) == body;
      assert PlainText(body);
      StripParamsPlain(body);
      assert ChopStart(body, |startUrl|) == "/" + rest;
    }
  }

  lemma NormalisedPageUri(startUrl: string, segments: seq<string>, suffix: string)
    requires PlainText(startUrl) && (startUrl == [] || startUrl[0] != '/')
    requires |segments| > 0 && forall i :: 0 <= i < |segments| ==> PlainSegment(segments[i])
    requires PlainText(suffix)
    ensures NormalisedUrl(PageUri(startUrl, segments, suffix), startUrl) == Join(segments, '/') + suffix
  {
    var j := Join(segments, '/');
    JoinOfPlain(segments);
    var rest := j + suffix;
    assert rest[0] == j[0] && PlainText(rest);
    NormalisedUnderMount(startUrl, rest);
  }

  /**
   * The router reads the URI of a page back into the page's segments, with no
   * 404: whatever the mount point and the suffix, as long as the segments are
   * plain path segments.
   */
  lemma RouteUrlOfPageUri(startUrl: string, segments: seq<string>, suffix: string)
    requires PlainText(startUrl) && (startUrl == [] || startUrl[0] != '/')
    requires |segments| > 0 && forall i :: 0 <= i < |segments| ==> PlainSegment(segments[i])
    requires PlainText(suffix)
    ensures RouteUrl(PageUri(startUrl, segments, suffix), startUrl, suffix) == Segments(segments, false)
  {
    var j := Join(segments, '/');
    JoinOfPlain(segments);
    NormalisedPageUri(startUrl, segments, suffix);
    var u := j + suffix;
    if |suffix| > 0 {
      assert SuffixPart(u, |suffix|) == suffix;
      assert WithoutSuffix(u, |suffix|) == j;
    } else {
      assert u == j;
    }
    assert j[|j| - 1] != '/';
    ExplodeJoin(segments, '/');
  }

  /** A query string or fragment does not change where a URI routes to. */
  lemma RouteUrlIgnoresParams(uri: string, mark: char, q: string, startUrl: string, suffix: string)
    requires IsParamMark(mark) && '\n' !in q
    ensures RouteUrl(uri + [mark] + q, startUrl, suffix) == RouteUrl(uri, startUrl, suffix)
  {
    var t := TrimLeft(uri, {'/'});
    var x := [mark] + q;
    assert uri + [mark] + q == uri + x;
    TrimLeftAppend(uri, x, {'/'});
    StripParamsIgnoresTail(t, x);
    if t == [] {
      assert TrimLeft(x, {'/'}) == x;
      assert t + x == x;
    }
    assert StripParams(TrimLeft(uri + x, {'/'})) == StripParams(t);
    assert NormalisedUrl(uri + [mark] + q, startUrl) == NormalisedUrl(uri, startUrl);
  }

  // ---------------------------------------------------------------------------
  // The controller

  /**
   * The structure whose controller shows the page at the end of `path`: the
   * home structure for the page at URL `/`, the previous element's structure
   * for a leaf without one (an element inside a structure, such as a news item),
   * otherwise the leaf's own structure.
   */
  function ControllerStructure(path: seq<Row>): string {
    var end := if |path| > 0 then path[|path| - 1] else map[];
    var prev := if |path| > 1 then path[|path| - 2] else map[];
    if Field(end, "url") == "/" then "Ideal_Home"
    else if !IsSet(end, "structure") then Field(prev, "structure")
    else Field(end, "structure")
  }

  /** `Util::getClassName(structure, 'Structure') . '\Site\Controller'`. */
  function ControllerClass(structure: string): string {
    ClassPrefix(structure, "Structure") + "\\Site\\Controller"
  }

  /** The controller class of model class `c`'s structure. */
  function ControllerOf(c: ModelClass): string {
    "\\" + c.moduleName + "\\" + c.kind + "\\" + c.name + "\\Site\\Controller"
  }

  /**
   * The controller and the re-typed model agree: when the model serves the leaf
   * of its path, and the leaf is an ordinary page with a structure of its own,
   * the controller is the one of the model's structure.
   */
  lemma ControllerFollowsModel(c: ModelClass, path: seq<Row>)
    requires |path| > 0
    requires var leaf := path[|path| - 1];
      ServesLeaf(c, leaf) && Field(leaf, "url") != "/" && Field(leaf, "structure") != ""
    ensures ControllerClass(ControllerStructure(path)) == ControllerOf(c)
  {
    var s := Field(path[|path| - 1], "structure");
    assert ControllerStructure(path) == s;
    assert ModuleOf(s) == c.moduleName && NameOf(s) == c.name && c.kind == "Structure";
  }

  /** The home page is shown by the Home controller, whatever its row says about its structure. */
  lemma HomeController(path: seq<Row>)
    requires |path| > 0 && Field(path[|path| - 1], "url") == "/"
    ensures ControllerClass(ControllerStructure(path)) == ControllerOf(HomeSiteModel)
  {
    IdealHomePieces();
  }

  lemma IdealHomePieces()
    ensures ModuleOf("Ideal_Home") == "Ideal" && NameOf("Ideal_Home") == "Home"
  {
    assert "Ideal_Home" == "Ideal" + "_" + "Home";
    ClassForStructureName("Ideal", "Home", "Structure", "Site");
  }

  // ---------------------------------------------------------------------------
  // Collaborators of the router

  /** The request fields the router reads (`Request::$mode`, `$module`, `$controller`). */
  datatype Request = Request(mode: string, moduleName: string, controller: string)

  function AjaxController(req: Request): string {
    req.moduleName + "\\Structure\\" + req.controller + "\\Site\\AjaxController"
  }

  /** What a dispatch event handler does to the router: may set the model and may set the controller name. */
  datatype Hook = Hook(model: Option<ContentModel>, controllerName: Option<string>)

  /** The models the handlers hand to the router. */
  function HookModels(pre: Hook, post: Hook): set<object> {
    (if pre.model.Some? then {pre.model.value} else {}) + (if post.model.Some? then {post.model.value} else {})
  }

  /** The argument of `detectPageByUrl`: the home page marker `/`, or the URL segments. */
  datatype UrlArg = HomeArg | PartsArg(parts: seq<string>)

  /** The state `detectPageByUrl` is called in: the model's class and parent key, the path so far, the URL. */
  datatype WalkQuery = WalkQuery(cls: ModelClass, prevStructure: string, path: seq<Row>, arg: UrlArg)

  /**
   * The model `detectPageByUrl` returns: the one it was called on, or a new
   * model of another class and parent key (a nested structure's model).
   */
  datatype Returned = Itself | Other(cls: ModelClass, prevStructure: string)

  /** What `detectPageByUrl` gives back: the model it returns, with the path it resolved and its 404 flag. */
  datatype Found = Found(returned: Returned, path: seq<Row>, is404: bool)

  /** The class and parent key of the returned model, for a call on a model of class `c` under `key`. */
  function ReturnedScope(f: Found, c: ModelClass, key: string): (ModelClass, string) {
    match f.returned
    case Itself => (c, key)
    case Other(c2, k2) => (c2, k2)
  }

  /**
   * The subclasses' `detectPageByUrl`, for each state it is given for; in any
   * other state no override applies.
   */
  type UrlWalks = map<WalkQuery, Found>

  /** Where `detectPageByUrl` leaves the model it returns: class, constructor setup, parent key, path and 404 flag. */
  datatype Landing = Landing(cls: ModelClass, setup: Setup, prevStructure: string, path: seq<Row>, is404: bool)

  /**
   * `detectPageByUrl` with `arg`, called on a new model of class `c` under
   * "0-<start ID>" with the start structure as its path: the model it returns
   * (that one, or one of the class and key it chose), or the error of either
   * constructor, or the base method's when no override applies.
   */
  function Opened(cfg: Config, c: ModelClass, arg: UrlArg, walks: UrlWalks): Result<Landing, Error> {
    var q := WalkQuery(c, HomeKey(cfg), [StartRow(cfg)], arg);
    if ResolveSetup(cfg, c).Failure? then Failure(ResolveSetup(cfg, c).error)
    else if q !in walks then Failure(NotOverridden("detectPageByUrl"))
    else
      var scope := ReturnedScope(walks[q], c, HomeKey(cfg));
      match ResolveSetup(cfg, scope.0)
      case Failure(e) => Failure(e)
      case Success(s) => Success(Landing(scope.0, s, scope.1, walks[q].path, walks[q].is404))
  }

  /**
   * `routeByUrl`: the home page is opened from the Home model, any other URL
   * from the start structure's Site model, and then the URL's own 404 flag is
   * OR-ed into the one found.
   */
  function Landed(cfg: Config, uri: string, walks: UrlWalks): Result<Landing, Error> {
    var route := RouteUrl(uri, cfg.startUrl, cfg.urlSuffix);
    if route.Home? then Opened(cfg, HomeSiteModel, HomeArg, walks)
    else
      match Opened(cfg, ClassFor(cfg.start.structure, "Structure", "Site"), PartsArg(route.parts), walks)
      case Failure(e) => Failure(e)
      case Success(l) => Success(l.(is404 := l.is404 || route.is404))
  }

  /** `m` is a model just built for landing `l`: its class, setup, key, path and 404 flag, no page data and no parent URL. */
  predicate Holds(m: ContentModel, l: Landing)
    reads m
  {
    m.cls == l.cls && m.params == l.setup.params && m.fields == l.setup.fields && m.table == l.setup.table &&
    m.moduleName == l.setup.moduleName && m.prevStructure == l.prevStructure && m.path == l.path &&
    m.is404 == l.is404 && m.parentUrl == "" && m.pageData == Unset
  }

  /** The state of a model that initialising its page data and re-typing it read. */
  datatype Snapshot = Snapshot(cls: ModelClass, fields: seq<FieldDef>, prevStructure: string, path: seq<Row>, parentUrl: string, is404: bool)

  function SnapshotOf(m: ContentModel): Snapshot
    reads m
  {
    Snapshot(m.cls, m.fields, m.prevStructure, m.path, m.parentUrl, m.is404)
  }

  function LandingSnapshot(l: Landing): Snapshot {
    Snapshot(l.cls, l.setup.fields, l.prevStructure, l.path, "", l.is404)
  }

  /**
   * The state of the model dispatch goes on to settle: the model the last
   * handler set, or else the one routing lands on; or routing's error when
   * no handler of the first event set a model.
   */
  function PreparedState(cfg: Config, uri: string, pre: Hook, post: Hook, walks: UrlWalks): Result<Snapshot, Error>
    reads HookModels(pre, post)
  {
    var routing := Landed(cfg, uri, walks);
    if pre.model.None? && routing.Failure? then Failure(routing.error)
    else if post.model.Some? then Success(SnapshotOf(post.model.value))
    else if pre.model.Some? then Success(SnapshotOf(pre.model.value))
    else Success(LandingSnapshot(routing.value))
  }

  /** What settling a model decides: its expanded page data and whether it is re-typed. */
  datatype Settlement = Settlement(pageData: PageData, plan: Retype)

  /**
   * `initPageData()` then `detectActualModel()` on a model in state `s`: the
   * page data expanded from the last path element and the corrected decision,
   * or the first error (expansion, the decision, or the new class's constructor).
   */
  function SettleOutcome(cfg: Config, tpl: TemplateData, s: Snapshot): Result<Settlement, Error> {
    match ExpandFields(cfg, s.cls, s.path, s.fields, LastOf(s.path), tpl)
    case Failure(e) => Failure(e)
    case Success(pd) =>
      match Plan(cfg, s.cls, s.path)
      case Failure(e) => Failure(e)
      case Success(Keep) => Success(Settlement(pd, Keep))
      case Success(RetypeTo(c, key)) =>
        if ResolveSetup(cfg, c).Failure? then Failure(ResolveSetup(cfg, c).error)
        else Success(Settlement(pd, RetypeTo(c, key)))
  }

  /**
   * `m` is the model that settling state `s` ends with: the same class and key
   * when kept, the planned class (with its setup) and key when re-typed, and in
   * both cases the expanded page data and `s`'s path, parent URL and 404 flag.
   */
  predicate SettledAs(cfg: Config, m: ContentModel, s: Snapshot, st: Settlement)
    reads m
  {
    m.path == s.path && m.pageData == st.pageData && m.parentUrl == s.parentUrl && m.is404 == s.is404 &&
    match st.plan
    case Keep => m.cls == s.cls && m.fields == s.fields && m.prevStructure == s.prevStructure
    case RetypeTo(c, key) =>
      m.cls == c && m.prevStructure == key && ResolveSetup(cfg, c).Success? &&
      m.params == ResolveSetup(cfg, c).value.params && m.fields == ResolveSetup(cfg, c).value.fields &&
      m.table == ResolveSetup(cfg, c).value.table
  }

  /** `m` is the model settling state `s` ends with, when settling succeeds. */
  predicate SettledFrom(cfg: Config, tpl: TemplateData, s: Snapshot, m: ContentModel)
    reads m
  {
    SettleOutcome(cfg, tpl, s).Success? && SettledAs(cfg, m, s, SettleOutcome(cfg, tpl, s).value)
  }

  /** The stages of dispatch, in the order they ran. */
  datatype Stage = PreDispatch | Routing | PostDispatch | PageInit | Retyping

  // ---------------------------------------------------------------------------
  // The router object

  class Router {
    var model: ContentModel?
    var controllerName: string
    /** The stages dispatch has run so far. */
    ghost var trace: seq<Stage>

    constructor ()
      ensures model == null && controllerName == "" && trace == []
    {
      model := null;
      controllerName := "";
      trace := [];
    }

    function GetModel(): ContentModel?
      reads this
    {
      model
    }

    method SetModel(m: ContentModel)
      modifies this
      ensures model == m && controllerName == old(controllerName) && trace == old(trace)
    {
      model := m;
    }

    method SetControllerName(name: string)
      modifies this
      ensures controllerName == name && model == old(model) && trace == old(trace)
    {
      controllerName := name;
    }

    /** The 404 flag of the active page's model (false while there is none). */
    function Is404(): bool
      reads this, model
    {
      model != null && model.is404
    }

    /** A dispatch event: the handler's settings land on the router. */
    method RunHook(h: Hook, stage: Stage)
      modifies this
      ensures model == (if h.model.Some? then h.model.value else old(model))
      ensures controllerName == (if h.controllerName.Some? then h.controllerName.value else old(controllerName))
      ensures trace == old(trace) + [stage]
    {
      if h.model.Some? {
        model := h.model.value;
      }
      if h.controllerName.Some? {
        controllerName := h.controllerName.value;
      }
      trace := trace + [stage];
    }

    /**
     * `detectPageByUrl` from the start structure with `arg`, called on a new
     * model of class `c` under the key "0-<start ID>": the model it returns
     * (that one, or a new one of the class and key it chose) carries the path
     * and 404 flag it found. A constructor's error is the result's error.
     */
    method OpenAt(cfg: Config, c: ModelClass, arg: UrlArg, walks: UrlWalks) returns (r: Result<ContentModel, Error>)
      ensures match Opened(cfg, c, arg, walks)
        case Failure(e) => r == Failure(e)
        case Success(l) => r.Success? && fresh(r.value) && Holds(r.value, l)
    {
      var m :- NewModel(cfg, c, HomeKey(cfg));
      var q := WalkQuery(c, HomeKey(cfg), [StartRow(cfg)], arg);
      if q !in walks {
        return Failure(NotOverridden("detectPageByUrl"));
      }
      var found := walks[q];
      if found.returned.Other? {
        m :- NewModel(cfg, found.returned.cls, found.returned.prevStructure);
      }
      m.path := found.path;
      m.is404 := found.is404;
      return Success(m);
    }

    /**
     * `routeByUrl`: the home page is looked up from a Home model under the key
     * "0-<start ID>"; any other URL from the start structure's Site model under
     * the same key, and the 404 flag of the model that lookup returns is then
     * OR-ed with the URL's own.
     */
    method RouteByUrl(cfg: Config, uri: string, walks: UrlWalks) returns (r: Result<ContentModel, Error>)
      ensures match Landed(cfg, uri, walks)
        case Failure(e) => r == Failure(e)
        case Success(l) => r.Success? && fresh(r.value) && Holds(r.value, l)
    {
      var route := RouteUrl(uri, cfg.startUrl, cfg.urlSuffix);
      if route.Home? {
        assert ResolveSetup(cfg, HomeSiteModel).Success?;
        r := OpenAt(cfg, HomeSiteModel, HomeArg, walks);
      } else {
        r := OpenAt(cfg, ClassFor(cfg.start.structure, "Structure", "Site"), PartsArg(route.parts), walks);
        if r.Success? && !r.value.is404 && route.is404 {
          r.value.is404 := true;
        }
      }
    }

    /**
     * `getControllerName`: a controller name set by a hook wins. Otherwise an
     * empty path that already is a 404 becomes the start structure alone, a path
     * still empty is a 404, and the controller is the one of the structure the
     * path ends in.
     */
    method GetControllerName(cfg: Config) returns (name: string)
      requires controllerName != "" || model != null
      modifies model
      ensures controllerName != "" ==> name == controllerName && (model != null ==> unchanged(model))
      ensures controllerName == "" ==>
        var p := if old(model.path) == [] && old(model.is404) then [StartRow(cfg)] else old(model.path);
        model.path == p && model.is404 == (old(model.is404) || p == []) &&
        model.prevStructure == old(model.prevStructure) && model.pageData == old(model.pageData) &&
        model.parentUrl == old(model.parentUrl) &&
        name == ControllerClass(ControllerStructure(p))
    {
      if controllerName != "" {
        return controllerName;
      }
      var p := model.path;
      if |p| == 0 && model.is404 {
        p := [StartRow(cfg)];
        var _ := model.SetPath(cfg, p);
      }
      if |p| == 0 {
        model.is404 := true;
      }
      return ControllerClass(ControllerStructure(p));
    }

    /**
     * The events around routing: the pre-dispatch handlers, routing by URL
     * when they set no model, then the post-dispatch handlers.
     */
    method Prepare(cfg: Config, uri: string, pre: Hook, post: Hook, walks: UrlWalks) returns (err: Option<Error>)
      requires model == null && controllerName == "" && trace == []
      modifies this
      ensures pre.model.Some? ==> err.None? && model == if post.model.Some? then post.model.value else pre.model.value
      ensures pre.model.None? ==> match Landed(cfg, uri, walks)
        case Failure(e) => err == Some(e)
        case Success(l) => err.None? && if post.model.Some? then model == post.model.value else fresh(model) && Holds(model, l)
      ensures match old(PreparedState(cfg, uri, pre, post, walks))
        case Failure(e) => err == Some(e)
        case Success(s) => err.None? && model != null && SnapshotOf(model) == s
      ensures err.None? ==>
        model != null && controllerName == LastControllerName(pre, post) &&
        trace == [PreDispatch] + (if Routed(pre) then [Routing] else []) + [PostDispatch]
    {
      ghost var prepared := PreparedState(cfg, uri, pre, post, walks);
      RunHook(pre, PreDispatch);
      if model == null {
        var routed := RouteByUrl(cfg, uri, walks);
        if routed.Failure? {
          return Some(routed.error);
        }
        model := routed.value;
        trace := trace + [Routing];
      }
      RunHook(post, PostDispatch);
      assert prepared.Success? && SnapshotOf(model) == prepared.value;
      return None;
    }

    /** Page data for the routed model, then the model of the leaf's own structure in its place. */
    method Settle(cfg: Config, tpl: TemplateData) returns (err: Option<Error>)
      requires model != null
      modifies this, model
      ensures var o := SettleOutcome(cfg, tpl, old(SnapshotOf(model)));
        if o.Failure? then err == Some(o.error) && model == old(model)
        else
          err.None? && model != null && SettledFrom(cfg, tpl, old(SnapshotOf(model)), model) &&
          if o.value.plan.Keep? then model == old(model) else fresh(model)
      ensures err.None? ==>
        model != null && Settled(model.cls, model.path) &&
        controllerName == old(controllerName) && trace == old(trace) + [PageInit, Retyping]
    {
      var m := model;
      err := InitStage(m, cfg, tpl);
      if err.Some? {
        return;
      }
      trace := trace + [PageInit];
      var actual := RetypeStage(m, cfg);
      if actual.Failure? {
        return Some(actual.error);
      }
      model := actual.value;
      trace := trace + [Retyping];
    }
  }

  /** `initPageData()` on a model: its page data expanded from its last path element, the rest of its state kept. */
  method InitStage(m: ContentModel, cfg: Config, tpl: TemplateData) returns (err: Option<Error>)
    modifies m
    ensures var s := old(SnapshotOf(m));
      match ExpandFields(cfg, s.cls, s.path, s.fields, LastOf(s.path), tpl)
      case Failure(e) => err == Some(e)
      case Success(pd) => err.None? && SnapshotOf(m) == s && m.pageData == pd
  {
    err := m.InitPageData(cfg, tpl, Unset);
  }

  /** `detectActualModel()` on a model: itself when kept, else a new model of the planned class holding its request state. */
  method RetypeStage(m: ContentModel, cfg: Config) returns (r: Result<ContentModel, Error>)
    ensures var s := SnapshotOf(m);
      match Plan(cfg, s.cls, s.path)
      case Failure(e) => r == Failure(e)
      case Success(Keep) => r == Success(m)
      case Success(RetypeTo(c, key)) =>
        if ResolveSetup(cfg, c).Failure? then r == Failure(ResolveSetup(cfg, c).error)
        else r.Success? && fresh(r.value) && SettledAs(cfg, r.value, s, Settlement(m.pageData, RetypeTo(c, key)))
  {
    r := m.DetectActualModel(cfg);
  }

  /** Whether dispatch routes by URL: only when no handler of the first event set a model. */
  predicate Routed(pre: Hook) {
    pre.model.None?
  }

  function LastControllerName(pre: Hook, post: Hook): string {
    if post.controllerName.Some? then post.controllerName.value
    else if pre.controllerName.Some? then pre.controllerName.value
    else ""
  }

  /**
   * `new Router()`: an AJAX request only names its controller. Any other runs
   * the pre-dispatch event, routes by URL when no handler set a model, runs the
   * post-dispatch event, initialises the model's page data and re-types it to
   * the leaf's structure.
   */
  method Dispatch(cfg: Config, req: Request, uri: string, pre: Hook, post: Hook, walks: UrlWalks, tpl: TemplateData)
      returns (r: Result<Router, Error>)
    modifies HookModels(pre, post)
    ensures r.Success? ==> fresh(r.value)
    ensures req.mode == "ajax" ==>
      r.Success? && r.value.model == null && r.value.controllerName == AjaxController(req) && r.value.trace == []
    ensures req.mode != "ajax" && r.Success? ==>
      r.value.model != null &&
      r.value.controllerName == LastControllerName(pre, post) &&
      r.value.trace == [PreDispatch] + (if Routed(pre) then [Routing] else []) + [PostDispatch, PageInit, Retyping]
    ensures req.mode != "ajax" && r.Success? ==> Settled(r.value.model.cls, r.value.model.path)
    ensures req.mode != "ajax" ==>
      var prepared := old(PreparedState(cfg, uri, pre, post, walks));
      if prepared.Failure? then r == Failure(prepared.error)
      else if SettleOutcome(cfg, tpl, prepared.value).Failure? then r == Failure(SettleOutcome(cfg, tpl, prepared.value).error)
      else
        var plan := SettleOutcome(cfg, tpl, prepared.value).value.plan;
        r.Success? && r.value.model != null && SettledFrom(cfg, tpl, prepared.value, r.value.model) &&
        (plan.Keep? && post.model.Some? ==> r.value.model == post.model.value) &&
        (plan.Keep? && post.model.None? && pre.model.Some? ==> r.value.model == pre.model.value) &&
        (plan.RetypeTo? || (pre.model.None? && post.model.None?) ==> fresh(r.value.model))
  {
    var router := new Router();
    if req.mode == "ajax" {
      router.controllerName := AjaxController(req);
      return Success(router);
    }
    var err := router.Prepare(cfg, uri, pre, post, walks);
    if err.Some? {
      return Failure(err.value);
    }
    err := router.Settle(cfg, tpl);
    if err.Some? {
      return Failure(err.value);
    }
    return Success(router);
  }
}
