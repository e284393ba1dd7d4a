/** App (esox/app.go): route-table construction in App.Handler and the
    request-context defaults of App.setupCtx. */
module App {
  import opened Wrappers
  import opened Security
  import opened Chain

  /** An opaque collaborator handle (a static file tree, a CSRF unit, a
      logger). */
  type Handle = nat

  /** *time.Location: UTC or some other named zone. */
  datatype Location = UTC | Zone(name: string)

  datatype App = App(
    location: Option<Location>,
    staticResources: Handle,
    routes: map<string, HandlerId>,
    handler404: Option<HandlerId>,
    csrf: Option<Handle>,
    security: Option<Security>)

  const StaticPath := "/static/"
  const RootPath := "/"

  /** What a pattern of the ServeMux finally calls. */
  datatype Target = StaticFiles | RouteHandler(handler: HandlerId) | DefaultNotFound

  /** A ServeMux registration: the chain of stages in front of the target. */
  datatype Entry = Entry(chain: seq<Stage>, target: Target)

  datatype ConfigError = ReservedPath(path: string)

  predicate Wraps404(e: Entry)
  {
    exists i :: 0 <= i < |e.chain| && e.chain[i].NotFoundWrapper?
  }

  /** c.Then(target), or c.Append(notFoundMiddleware(h)).Then(target). */
  function Register(app: App, target: Target, wrap404: bool): (e: Entry)
    requires wrap404 ==> app.handler404.Some?
    ensures e.target == target
    ensures e.chain == Middleware(app.security) + (if wrap404 then [NotFoundWrapper(app.handler404.value)] else [])
    ensures Wraps404(e) <==> wrap404
  {
    var c := Middleware(app.security);
    if wrap404 then
      var e := Entry(c + [NotFoundWrapper(app.handler404.value)], target);
      assert e.chain[|c|].NotFoundWrapper?;
      e
    else
      Entry(c, target)
  }

  /** The registration of one user route. */
  function RouteEntry(app: App, path: string): Entry
    requires path in app.routes
  {
    Register(app, RouteHandler(app.routes[path]), path == RootPath && app.handler404.Some?)
  }

  /** The /static/ entry registered before the loop. */
  function BaseMux(app: App): map<string, Entry>
  {
    map[StaticPath := Register(app, StaticFiles, false)]
  }

  /** The route table App.Handler builds, independent of the order in which
      the Go map hands out the routes. */
  function Mux(app: App): (r: Result<map<string, Entry>, ConfigError>)
    ensures r.Failure? <==> StaticPath in app.routes
    ensures r.Failure? ==> r.error == ReservedPath(StaticPath)
    ensures r.Success? ==>
      r.value.Keys == app.routes.Keys + {StaticPath} + (if app.handler404.Some? then {RootPath} else {})
    ensures r.Success? ==> r.value[StaticPath] == Entry(Middleware(app.security), StaticFiles)
    ensures r.Success? ==>
      forall p :: p in app.routes ==> r.value[p].target == RouteHandler(app.routes[p])
    ensures r.Success? ==>
      forall p :: p in r.value ==> (Wraps404(r.value[p]) <==> p == RootPath && app.handler404.Some?)
    ensures r.Success? ==>
      forall p :: p in r.value ==>
        r.value[p].chain == Middleware(app.security) +
          (if p == RootPath && app.handler404.Some? then [NotFoundWrapper(app.handler404.value)] else [])
    ensures r.Success? ==>
      (RootPath in r.value && r.value[RootPath].target == DefaultNotFound <==>
       app.handler404.Some? && RootPath !in app.routes)
  {
    if StaticPath in app.routes then
      Failure(ReservedPath(StaticPath))
    else
      Success(map p | p in TablePaths(app) :: TableEntry(app, p))
  }

  /** The paths App.Handler registers when it does not panic. */
  function TablePaths(app: App): set<string>
  {
    app.routes.Keys + {StaticPath} + (if app.handler404.Some? then {RootPath} else {})
  }

  /** The entry the table holds at a registered path. */
  function TableEntry(app: App, p: string): (e: Entry)
    requires p in app.routes || p == StaticPath || (p == RootPath && app.handler404.Some?)
    ensures e.chain == Middleware(app.security) +
      (if p == RootPath && app.handler404.Some? then [NotFoundWrapper(app.handler404.value)] else [])
    ensures Wraps404(e) <==> p == RootPath && app.handler404.Some?
  {
    if p in app.routes then RouteEntry(app, p)
    else if p == StaticPath then Register(app, StaticFiles, false)
    else Register(app, DefaultNotFound, true)
  }

  /** App.Handler: registers /static/, then every route in whatever order
      the map yields them, then the fallback root entry. The panic on a
      route at /static/ becomes a failure result. */
  method Handler(app: App) returns (r: Result<map<string, Entry>, ConfigError>)
    ensures r == Mux(app)
  {
    var mux := BaseMux(app);
    var hasRootPath := false;
    var todo := app.routes.Keys;
    while todo != {}
      invariant todo <= app.routes.Keys
      invariant StaticPath in app.routes ==> StaticPath in todo
      invariant mux.Keys == {StaticPath} + (app.routes.Keys - todo)
      invariant mux[StaticPath] == BaseMux(app)[StaticPath]
      invariant forall p :: p in app.routes && p !in todo ==> mux[p] == RouteEntry(app, p)
      invariant hasRootPath <==> RootPath in app.routes && RootPath !in todo && app.handler404.Some?
      decreases todo
    {
      var path :| path in todo;
      if path == StaticPath {
        return Failure(ReservedPath(StaticPath));
      }
      if path == RootPath && app.handler404.Some? {
        hasRootPath := true;
        mux := mux[path := Register(app, RouteHandler(app.routes[path]), true)];
      } else {
        mux := mux[path := Register(app, RouteHandler(app.routes[path]), false)];
      }
      todo := todo - {path};
    }
    RoutedTable(app, mux);
    if !hasRootPath && app.handler404.Some? {
      mux := mux[RootPath := Register(app, DefaultNotFound, true)];
    }
    return Success(mux);
  }

  /** A table that holds the static entry and every route's entry, and
      nothing else, is the one Mux describes before the fallback root. */
  lemma RoutedTable(app: App, mux: map<string, Entry>)
    requires StaticPath !in app.routes
    requires mux.Keys == {StaticPath} + app.routes.Keys
    requires mux[StaticPath] == BaseMux(app)[StaticPath]
    requires forall p :: p in app.routes ==> mux[p] == RouteEntry(app, p)
    ensures Mux(app).Success?
    ensures app.handler404.Some? && RootPath !in app.routes ==>
      Mux(app).value == mux[RootPath := Register(app, DefaultNotFound, true)]
    ensures !(app.handler404.Some? && RootPath !in app.routes) ==> Mux(app).value == mux
  {
    if app.handler404.Some? && RootPath !in app.routes {
      var full := mux[RootPath := Register(app, DefaultNotFound, true)];
      assert full.Keys == TablePaths(app);
      assert forall p :: p in full ==> full[p] == TableEntry(app, p);
    } else {
      assert mux.Keys == TablePaths(app);
      assert forall p :: p in mux ==> mux[p] == TableEntry(app, p);
    }
  }

  /** Every handler the mux can reach, the static one and the fallback
      included, runs after the security stage has written its headers. */
  lemma SecurityOnEveryRoute(app: App, path: string, h: map<string, string>)
    requires Mux(app).Success? && path in Mux(app).value
    ensures HeadersAtHandler(Mux(app).value[path].chain, h) == h + SecurityWrites(app.security)
  {
    var e := Mux(app).value[path];
    if Wraps404(e) {
      assert e.chain == Middleware(app.security) + [NotFoundWrapper(app.handler404.value)];
      SecurityHeadersBeforeHandler(app.security, [NotFoundWrapper(app.handler404.value)], h);
    } else {
      assert e.chain == Middleware(app.security) + [];
      SecurityHeadersBeforeHandler(app.security, [], h);
    }
  }

  /** The values App.setupCtx attaches to the base context. */
  datatype Ctx = Ctx(
    logger: Option<Handle>,
    csrf: Option<Handle>,
    location: Option<Location>,
    staticResources: Option<Handle>)

  /** App.setupCtx: the logger, the CSRF unit when configured, the location
      (UTC when App.Location is nil) and the static file tree. */
  function SetupCtx(app: App, ctx: Ctx, log: Handle): (c: Ctx)
    ensures c.logger == Some(log)
    ensures app.location.Some? ==> c.location == app.location
    ensures app.location.None? ==> c.location == Some(UTC)
    ensures c.csrf == if app.csrf.Some? then app.csrf else ctx.csrf
    ensures c.staticResources == Some(app.staticResources)
  {
    var withLog := ctx.(logger := Some(log));
    var withCsrf := if app.csrf.Some? then withLog.(csrf := app.csrf) else withLog;
    var withLocation :=
      if app.location.Some? then withCsrf.(location := app.location)
      else withCsrf.(location := Some(UTC));
    withLocation.(staticResources := Some(app.staticResources))
  }
}
