/**
 * The default language detector of the plugin: a side-effect-free rule that
 * picks a language code from five request sources in a fixed priority.
 *
 * The request context is modelled as already-parsed maps: the URL's search
 * parameters, the cookie jar, the routed path parameters, the request-scoped
 * store and the request headers.
 */
module Detector {
  import opened Wrappers

  /** A cookie of the jar; the detector reads only its value. */
  datatype Cookie = Cookie(value: string)

  /** The parts of a request context that the detector reads. */
  datatype Context = Context(
    query: map<string, string>,          // URL search parameters, first value per name
    cookie: Option<map<string, Cookie>>, // None: the context carries no cookie jar
    params: Option<map<string, string>>, // None: the route has no parameter map
    store: map<string, Option<string>>,  // a key holding None holds null
    headers: map<string, string>)

  /** The names under which each source is consulted. */
  datatype DetectorOptions = DetectorOptions(
    storeParamName: string,
    searchParamName: string,
    headerName: string,
    cookieName: string,
    pathParamName: string)

  /** The configuration of the detector the plugin installs by default. */
  const DefaultDetectorOptions: DetectorOptions :=
    DetectorOptions(
      storeParamName := "language",
      searchParamName := "lang",
      headerName := "accept-language",
      cookieName := "lang",
      pathParamName := "lang")

  /** JavaScript truthiness of a string-or-null: null and "" are falsy. */
  predicate Truthy(v: Option<string>) {
    v.Some? && v.value != ""
  }

  /**
   * The detector's early-return chain. Query and cookie are guarded by
   * truthiness, so an empty value falls through; the path parameter and the
   * store are guarded by key presence, so an empty (or null) value is returned.
   */
  function Detect(opts: DetectorOptions, ctx: Context): (lang: Option<string>) {
    var search := Lookup(ctx.query, opts.searchParamName);
    if Truthy(search) then search
    else
      var cookie := if ctx.cookie.Some? then Lookup(ctx.cookie.value, opts.cookieName) else None;
      if cookie.Some? && cookie.value.value != "" then Some(cookie.value.value)
      else if ctx.params.Some? && opts.pathParamName in ctx.params.value then
        Some(ctx.params.value[opts.pathParamName])
      else if opts.storeParamName in ctx.store then ctx.store[opts.storeParamName]
      else Lookup(ctx.headers, opts.headerName)
  }

  // ---------------------------------------------------------------------------
  // A reference definition: "first source that accepts wins".
  // Each source is described on its own (when it ends the search, what it
  // yields); the order is a list. The chain above is proved equal to it.
  // ---------------------------------------------------------------------------

  datatype Source = SearchParam | CookieJar | PathParam | StoreEntry | Header

  const Priority: seq<Source> := [SearchParam, CookieJar, PathParam, StoreEntry, Header]

  /** The position of a source in the priority order. */
  function Rank(s: Source): (k: nat)
    ensures k < |Priority| && Priority[k] == s
  {
    match s
    case SearchParam => 0
    case CookieJar => 1
    case PathParam => 2
    case StoreEntry => 3
    case Header => 4
  }

  /** Whether source `s`, judged on its own guard, ends the search. */
  predicate Stops(opts: DetectorOptions, ctx: Context, s: Source) {
    match s
    case SearchParam => Truthy(Lookup(ctx.query, opts.searchParamName))
    case CookieJar =>
      ctx.cookie.Some? && opts.cookieName in ctx.cookie.value
      && ctx.cookie.value[opts.cookieName].value != ""
    case PathParam => ctx.params.Some? && opts.pathParamName in ctx.params.value
    case StoreEntry => opts.storeParamName in ctx.store
    case Header => true
  }

  /** The raw value that source `s` holds (None: absent or null). */
  function Yield(opts: DetectorOptions, ctx: Context, s: Source): (v: Option<string>) {
    match s
    case SearchParam => Lookup(ctx.query, opts.searchParamName)
    case CookieJar =>
      if ctx.cookie.Some? && opts.cookieName in ctx.cookie.value
      then Some(ctx.cookie.value[opts.cookieName].value) else None
    case PathParam => if ctx.params.Some? then Lookup(ctx.params.value, opts.pathParamName) else None
    case StoreEntry => if opts.storeParamName in ctx.store then ctx.store[opts.storeParamName] else None
    case Header => Lookup(ctx.headers, opts.headerName)
  }

  /** The index of the first source of `order` that stops the search, if any. */
  function FirstStop(opts: DetectorOptions, ctx: Context, order: seq<Source>): (r: Option<nat>)
    ensures r.Some? ==> r.value < |order| && Stops(opts, ctx, order[r.value])
    ensures r.Some? ==> forall j :: 0 <= j < r.value ==> !Stops(opts, ctx, order[j])
    ensures r.None? ==> forall j :: 0 <= j < |order| ==> !Stops(opts, ctx, order[j])
  {
    if order == [] then None
    else if Stops(opts, ctx, order[0]) then Some(0)
    else
      match FirstStop(opts, ctx, order[1..])
      case None => None
      case Some(i) => Some(i + 1)
  }

  /** The source that decides the detection: the first in priority order that stops. */
  function Winner(opts: DetectorOptions, ctx: Context): (w: Source)
    ensures Stops(opts, ctx, w)
    ensures forall s :: Rank(s) < Rank(w) ==> !Stops(opts, ctx, s)
  {
    var r := FirstStop(opts, ctx, Priority);
    if r.Some? then Priority[r.value] else Header
  }

  /** Two sources with no higher source stopping the search cannot both be the winner. */
  lemma WinnerUnique(opts: DetectorOptions, ctx: Context, s: Source)
    requires Stops(opts, ctx, s)
    requires forall t :: Rank(t) < Rank(s) ==> !Stops(opts, ctx, t)
    ensures Winner(opts, ctx) == s
  {
  }

  /**
   * The early-return chain returns exactly what the deciding source holds:
   * the result is null or the value of one of the five sources, the first
   * (in priority order) whose guard admits it.
   */
  lemma DetectFollowsPriority(opts: DetectorOptions, ctx: Context)
    ensures Detect(opts, ctx) == Yield(opts, ctx, Winner(opts, ctx))
  {
    var w := Winner(opts, ctx);
    if Stops(opts, ctx, SearchParam) {
      WinnerUnique(opts, ctx, SearchParam);
    } else if Stops(opts, ctx, CookieJar) {
      WinnerUnique(opts, ctx, CookieJar);
    } else if Stops(opts, ctx, PathParam) {
      WinnerUnique(opts, ctx, PathParam);
    } else if Stops(opts, ctx, StoreEntry) {
      WinnerUnique(opts, ctx, StoreEntry);
    } else {
      WinnerUnique(opts, ctx, Header);
    }
  }

  /**
   * Only the deciding source and those above it matter: two contexts that
   * agree on which of those sources stop the search, and on the value of the
   * deciding one, get the same answer, whatever lower sources hold.
   */
  lemma DecidedByHigherSources(opts: DetectorOptions, ctx: Context, other: Context)
    requires forall t :: Rank(t) <= Rank(Winner(opts, ctx)) ==>
               (Stops(opts, ctx, t) <==> Stops(opts, other, t))
    requires Yield(opts, ctx, Winner(opts, ctx)) == Yield(opts, other, Winner(opts, ctx))
    ensures Detect(opts, ctx) == Detect(opts, other)
  {
    var w := Winner(opts, ctx);
    WinnerUnique(opts, other, w);
    DetectFollowsPriority(opts, ctx);
    DetectFollowsPriority(opts, other);
  }

  /** A non-empty query value is returned whatever the other sources hold. */
  lemma SearchParamWins(opts: DetectorOptions, ctx: Context)
    requires opts.searchParamName in ctx.query && ctx.query[opts.searchParamName] != ""
    ensures Detect(opts, ctx) == Some(ctx.query[opts.searchParamName])
    ensures Winner(opts, ctx) == SearchParam
  {
    WinnerUnique(opts, ctx, SearchParam);
  }

  /**
   * Without a usable query value, a non-empty cookie is returned; a missing
   * jar, a missing cookie or an empty cookie value falls through to the path
   * parameter.
   */
  lemma CookieAfterQuery(opts: DetectorOptions, ctx: Context)
    requires !Truthy(Lookup(ctx.query, opts.searchParamName))
    ensures Stops(opts, ctx, CookieJar) ==>
              Detect(opts, ctx) == Some(ctx.cookie.value[opts.cookieName].value)
    ensures !Stops(opts, ctx, CookieJar) ==>
              Detect(opts, ctx) == Detect(opts, ctx.(query := map[], cookie := None))
  {
  }

  /**
   * A present path parameter is returned even when it is empty, and then
   * shadows the store and the header.
   */
  lemma PathParamShadows(opts: DetectorOptions, ctx: Context, store: map<string, Option<string>>,
                         headers: map<string, string>)
    requires !Stops(opts, ctx, SearchParam) && !Stops(opts, ctx, CookieJar)
    requires ctx.params.Some? && opts.pathParamName in ctx.params.value
    ensures Detect(opts, ctx) == Some(ctx.params.value[opts.pathParamName])
    ensures Detect(opts, ctx) == Detect(opts, ctx.(store := store, headers := headers))
  {
  }

  /**
   * With no query, cookie or path value, a present store key gives its value
   * (possibly null); failing that the header's value, or null without one.
   */
  lemma StoreThenHeader(opts: DetectorOptions, ctx: Context)
    requires !Stops(opts, ctx, SearchParam) && !Stops(opts, ctx, CookieJar)
    requires !Stops(opts, ctx, PathParam)
    ensures opts.storeParamName in ctx.store ==> Detect(opts, ctx) == ctx.store[opts.storeParamName]
    ensures opts.storeParamName !in ctx.store ==>
              (Detect(opts, ctx).Some? <==> opts.headerName in ctx.headers)
    ensures opts.storeParamName !in ctx.store && opts.headerName in ctx.headers ==>
              Detect(opts, ctx) == Some(ctx.headers[opts.headerName])
  {
  }

  /**
   * The emptiness asymmetry: an empty query value is skipped while an empty
   * path parameter is returned.
   */
  lemma EmptyValuesAsymmetry(opts: DetectorOptions)
    ensures var ctx := Context(map[opts.searchParamName := ""], None,
                               Some(map[opts.pathParamName := ""]), map[], map[]);
            Detect(opts, ctx) == Some("") && Winner(opts, ctx) == PathParam
  {
    var ctx := Context(map[opts.searchParamName := ""], None,
                       Some(map[opts.pathParamName := ""]), map[], map[]);
    WinnerUnique(opts, ctx, PathParam);
  }

  /** The request scenarios of the default configuration. */
  lemma DefaultScenarios()
    ensures Detect(DefaultDetectorOptions,
                   Context(map["lang" := "fr"], Some(map["lang" := Cookie("de")]),
                           Some(map["lang" := "es"]), map[], map["accept-language" := "ja"])) == Some("fr")
    ensures Detect(DefaultDetectorOptions,
                   Context(map[], Some(map["lang" := Cookie("de")]),
                           Some(map["lang" := "es"]), map[], map["accept-language" := "ja"])) == Some("de")
    ensures Detect(DefaultDetectorOptions,
                   Context(map[], None, Some(map["lang" := "es"]),
                           map["language" := Some("it")], map["accept-language" := "ja"])) == Some("es")
    ensures Detect(DefaultDetectorOptions,
                   Context(map[], None, None, map["language" := Some("it")],
                           map["accept-language" := "ja"])) == Some("it")
    ensures Detect(DefaultDetectorOptions,
                   Context(map[], None, None, map[], map["accept-language" := "ja"])) == Some("ja")
    ensures Detect(DefaultDetectorOptions, Context(map[], None, None, map[], map[])) == None
  {
  }
}
