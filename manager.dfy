/** The manager (package `manager`): `New` validates a configuration and
    fills in defaults; `Run` installs the middleware, registers the fixed
    routes and one POST route per plugin, connects the browser, and only
    then starts serving. Request handling is `Serve`, a function of the
    route table and the backends (plugin execution, the file store's
    answers, content sniffing), which are oracles here. */
module Manager {
  import opened Values
  import opened Http
  import opened Store
  import opened Registry
  import Middleware
  import FileEndpoints

  type RouterRef = nat

  /** The part of a CORS configuration the manager decides. */
  datatype CorsConfig = CorsConfig(allowOrigins: seq<string>, allowHeaders: seq<string>)

  /** `Config`. Optional references (`nil` in Go) are `None`. */
  datatype Config = Config(
    serverAddress: string,
    serverCors: Option<CorsConfig>,
    fileStore: Option<StoreRef>,
    router: Option<RouterRef>,
    browser: Option<BrowserRef>,
    browserServerId: int,
    browserServiceUrl: string,
    browserUserDataDir: string,
    browserMonitorEnabled: bool,
    plugins: seq<Plugin>)

  /** A reference taken from the configuration, or a fresh one that `New`
      creates (`gin.New()`, `rod.New()`). */
  datatype Supplied<T> = Given(ref: T) | Fresh

  /** What the browser connector is built with. */
  datatype ConnectorSettings = ConnectorSettings(
    browser: Supplied<BrowserRef>,
    serverId: int,
    serviceUrl: string,
    userDataDir: string,
    monitorEnabled: bool)

  /** The fields of the `Manager` that `New` builds. */
  datatype Settings = Settings(
    address: string,
    cors: CorsConfig,
    fileStore: StoreRef,
    router: Supplied<RouterRef>,
    connector: ConnectorSettings,
    plugins: seq<Plugin>)

  const DefaultServiceUrl := "ws://127.0.0.1:7317"
  const DefaultUserDataDir := "/tmp/rod/user-data/browserBro_userData"
  const AllowAll := CorsConfig(["*"], ["*"])

  function SuppliedOf<T>(o: Option<T>): Supplied<T>
  {
    match o
    case None => Fresh
    case Some(r) => Given(r)
  }

  /** `New`. */
  function New(cfg: Config): (r: Result<Settings, string>)
    ensures cfg.serverAddress == "" ==> r == Err("server address is required")
    ensures cfg.serverAddress != "" && cfg.fileStore.None? ==> r == Err("file store is required")
    ensures r.Ok? <==> cfg.serverAddress != "" && cfg.fileStore.Some?
    ensures r.Ok? ==>
      && r.value.address == cfg.serverAddress
      && r.value.fileStore == cfg.fileStore.value
      && r.value.plugins == cfg.plugins
      && r.value.cors == (if cfg.serverCors.None? then AllowAll else cfg.serverCors.value)
      && r.value.router == SuppliedOf(cfg.router)
      && r.value.connector.browser == SuppliedOf(cfg.browser)
      && r.value.connector.serverId == (if cfg.browserServerId <= 0 then 1 else cfg.browserServerId)
      && r.value.connector.serviceUrl == (if cfg.browserServiceUrl == "" then DefaultServiceUrl else cfg.browserServiceUrl)
      && r.value.connector.userDataDir == (if cfg.browserUserDataDir == "" then DefaultUserDataDir else cfg.browserUserDataDir)
      && r.value.connector.monitorEnabled == cfg.browserMonitorEnabled
  {
    if cfg.serverAddress == "" then Err("server address is required")
    else if cfg.fileStore.None? then Err("file store is required")
    else
      var cors := if cfg.serverCors.None? then AllowAll else cfg.serverCors.value;
      var serverId := if cfg.browserServerId <= 0 then 1 else cfg.browserServerId;
      var serviceUrl := if cfg.browserServiceUrl == "" then DefaultServiceUrl else cfg.browserServiceUrl;
      var userDataDir := if cfg.browserUserDataDir == "" then DefaultUserDataDir else cfg.browserUserDataDir;
      Ok(Settings(cfg.serverAddress, cors, cfg.fileStore.value, SuppliedOf(cfg.router),
                  ConnectorSettings(SuppliedOf(cfg.browser), serverId, serviceUrl, userDataDir, cfg.browserMonitorEnabled),
                  cfg.plugins))
  }

  /** A configuration that spells out every setting of a manager. */
  function ConfigOf(s: Settings): Config
  {
    Config(s.address, Some(s.cors), Some(s.fileStore),
           if s.router.Given? then Some(s.router.ref) else None,
           if s.connector.browser.Given? then Some(s.connector.browser.ref) else None,
           s.connector.serverId, s.connector.serviceUrl, s.connector.userDataDir,
           s.connector.monitorEnabled, s.plugins)
  }

  /** Every default `New` fills in is one it leaves alone: configuring a
      manager with its own settings yields the same settings. */
  lemma NewIsIdempotent(cfg: Config)
    requires New(cfg).Ok?
    ensures New(ConfigOf(New(cfg).value)) == New(cfg)
  {
  }

  /** A constructed manager always has a positive server id and non-empty
      service URL and profile directory. */
  lemma NewFillsEveryDefault(cfg: Config)
    requires New(cfg).Ok?
    ensures New(cfg).value.connector.serverId >= 1
    ensures New(cfg).value.connector.serviceUrl != ""
    ensures New(cfg).value.connector.userDataDir != ""
  {
  }

  /** `New` has no check on the plugin list: an empty list is accepted. */
  lemma NewAcceptsNoPlugins(address: string, store: StoreRef)
    requires address != ""
    ensures New(Config(address, None, Some(store), None, None, 0, "", "", false, [])).Ok?
    ensures New(Config(address, None, Some(store), None, None, 0, "", "", false, [])).value.plugins == []
  {
  }

  // ---------------------------------------------------------------------
  // Routes

  /** A route path: a literal one, or a prefix followed by `:filename`. */
  datatype Pattern = Exact(path: string) | WithFilename(prefix: string)

  /** The path as the router lists it in `Routes()`. */
  function PatternPath(p: Pattern): string
  {
    match p
    case Exact(s) => s
    case WithFilename(pre) => pre + ":filename"
  }

  datatype Handler = Health | ListPlugins | RunPlugin(plugin: Plugin) | GetFile | DeleteFile

  /** A registered route. `injects` is the store the group's context
      middleware puts in the request context, if the group has one. */
  datatype Route = Route(verb: Method, pattern: Pattern, injects: Option<StoreRef>, handler: Handler)

  datatype GlobalMiddleware = Logger | Recovery | Cors(config: CorsConfig)

  const PluginsPath := "/api/v1/plugins"
  const FilesPrefix := "/api/v1/files/"

  const HealthRoute := Route(Get, Exact("/api/v1/health"), None, Health)
  const ListRoute := Route(Get, Exact(PluginsPath), None, ListPlugins)

  function PluginRoute(p: Plugin): Route
  {
    Route(Post, Exact(PluginsPath + "/" + p.Name()), None, RunPlugin(p))
  }

  function PluginRoutes(plugins: seq<Plugin>): (r: seq<Route>)
    ensures |r| == |plugins|
    ensures forall i :: 0 <= i < |plugins| ==> r[i] == PluginRoute(plugins[i])
  {
    seq(|plugins|, i requires 0 <= i < |plugins| => PluginRoute(plugins[i]))
  }

  function FileRoutes(store: StoreRef): seq<Route>
  {
    [Route(Get, WithFilename(FilesPrefix), Some(store), GetFile),
     Route(Delete, WithFilename(FilesPrefix), Some(store), DeleteFile)]
  }

  /** The routes `Run` registers, in registration order. */
  function RouteTable(plugins: seq<Plugin>, store: StoreRef): seq<Route>
  {
    [HealthRoute, ListRoute] + PluginRoutes(plugins) + FileRoutes(store)
  }

  /** Whether a pattern matches a request path, and the filename it binds:
      `:filename` matches one non-empty path segment. */
  function MatchPattern(p: Pattern, path: string): (r: Option<string>)
    ensures p.Exact? ==> (r.Some? <==> path == p.path) && (r.Some? ==> r.value == "")
    ensures p.WithFilename? && r.Some? ==> path == p.prefix + r.value && r.value != "" && '/' !in r.value
    ensures p.WithFilename? && r.None? ==> forall f :: path == p.prefix + f ==> f == "" || '/' in f
  {
    match p
    case Exact(s) => if path == s then Some("") else None
    case WithFilename(pre) =>
      if |pre| < |path| && path[..|pre|] == pre && '/' !in path[|pre|..] then Some(path[|pre|..]) else None
  }

  /** A route answers a request: same method, and its pattern matches. */
  predicate Matches(route: Route, verb: Method, path: string)
  {
    route.verb == verb && MatchPattern(route.pattern, path).Some?
  }

  /** Route `i` is the first that answers the request. */
  predicate FirstMatch(routes: seq<Route>, verb: Method, path: string, i: int)
  {
    0 <= i < |routes| && Matches(routes[i], verb, path) &&
    forall j :: 0 <= j < i ==> !Matches(routes[j], verb, path)
  }

  /** The first route with the request's method whose pattern matches, and
      the filename it binds. */
  function Lookup(routes: seq<Route>, verb: Method, path: string): Option<(Route, string)>
  {
    if routes == [] then None
    else if Matches(routes[0], verb, path) then
      Some((routes[0], MatchPattern(routes[0].pattern, path).value))
    else Lookup(routes[1..], verb, path)
  }

  /** Lookup finds nothing exactly when no route answers, and otherwise the
      first route that answers, with the filename its pattern binds. */
  lemma {:induction false} LookupFirstMatch(routes: seq<Route>, verb: Method, path: string)
    ensures Lookup(routes, verb, path).None? <==> forall i :: 0 <= i < |routes| ==> !Matches(routes[i], verb, path)
    ensures Lookup(routes, verb, path).Some? ==>
      exists i :: FirstMatch(routes, verb, path, i) &&
                  Lookup(routes, verb, path).value == (routes[i], MatchPattern(routes[i].pattern, path).value)
  {
    if routes != [] && !Matches(routes[0], verb, path) {
      var tail := routes[1..];
      LookupFirstMatch(tail, verb, path);
      assert forall i :: 0 <= i < |tail| ==> tail[i] == routes[i + 1];
      if Lookup(tail, verb, path).Some? {
        var k :| FirstMatch(tail, verb, path, k) &&
                 Lookup(tail, verb, path).value == (tail[k], MatchPattern(tail[k].pattern, path).value);
        assert FirstMatch(routes, verb, path, k + 1);
      }
    } else if routes != [] {
      assert FirstMatch(routes, verb, path, 0);
    }
  }

  lemma {:induction false} LookupAppend(a: seq<Route>, b: seq<Route>, verb: Method, path: string)
    ensures Lookup(a + b, verb, path) == if Lookup(a, verb, path).Some? then Lookup(a, verb, path) else Lookup(b, verb, path)
  {
    if a != [] {
      assert (a + b)[0] == a[0];
      assert (a + b)[1..] == a[1..] + b;
      LookupAppend(a[1..], b, verb, path);
    } else {
      assert a + b == b;
    }
  }

  /** Plugin routes answer POST only. */
  lemma {:induction false} PluginRoutesOnlyPost(plugins: seq<Plugin>, verb: Method, path: string)
    requires verb != Post
    ensures Lookup(PluginRoutes(plugins), verb, path) == None
  {
    if plugins != [] {
      assert PluginRoutes(plugins)[1..] == PluginRoutes(plugins[1..]);
      PluginRoutesOnlyPost(plugins[1..], verb, path);
    }
  }

  /** POST to a plugin's path reaches the route of the first plugin with
      that name: its own route when names are distinct. */
  lemma {:induction false} PluginRouteFound(plugins: seq<Plugin>, i: nat)
    requires i < |plugins|
    requires forall j :: 0 <= j < i ==> plugins[j].Name() != plugins[i].Name()
    ensures Lookup(PluginRoutes(plugins), Post, PluginsPath + "/" + plugins[i].Name())
            == Some((PluginRoute(plugins[i]), ""))
  {
    var path := PluginsPath + "/" + plugins[i].Name();
    var prefix := PluginsPath + "/";
    assert path == prefix + plugins[i].Name();
    if i == 0 {
    } else {
      var other := prefix + plugins[0].Name();
      assert PluginRoute(plugins[0]).pattern == Exact(other);
      assert other != path by {
        assert plugins[0].Name() != plugins[i].Name();
        assert other[|prefix|..] == plugins[0].Name();
        assert path[|prefix|..] == plugins[i].Name();
      }
      assert PluginRoutes(plugins)[0] == PluginRoute(plugins[0]);
      assert PluginRoutes(plugins)[1..] == PluginRoutes(plugins[1..]);
      assert plugins[1..][i - 1] == plugins[i];
      PluginRouteFound(plugins[1..], i - 1);
    }
  }

  // ---------------------------------------------------------------------
  // Request handling

  /** What a plugin's `Run` does: return its results (a `nil` map is
      `None`), return an error, or panic with a value that no deferred
      `recover` of the plugin's own catches (a custom plugin, or a default
      one before its deferred function is in place). */
  datatype RunOutcome = Returned(results: Option<Params>) | Failed(error: string) | Panicked(value: string)

  /** What handlers call out to: a plugin's `Run`, the answers of the store
      a reference names, and `http.DetectContentType`. */
  datatype Backends = Backends(
    run: (Plugin, Params) -> RunOutcome,
    stores: StoreRef -> StoreView,
    sniff: Bytes -> string)

  /** `c.ShouldBindJSON(&params)` into `map[string]any`: an object binds,
      `null` binds as the empty (nil) map, anything else fails. */
  function BindParams(body: RequestBody): (r: Option<Params>)
    ensures r.Some? <==> body.Decoded? && (body.doc.JObject? || body.doc.JNull?)
    ensures r.Some? && body.doc.JObject? ==> r.value == body.doc.fields
    ensures r.Some? && body.doc.JNull? ==> r.value == map[]
  {
    match body
    case Decoded(JObject(m)) => Some(m)
    case Decoded(JNull) => Some(map[])
    case _ => None
  }

  function ResultsJson(results: Option<Params>): Json
  {
    match results
    case None => JNull
    case Some(m) => JObject(m)
  }

  const RouteNotFound := JsonResponse(StatusNotFound, MessageBody("route not found"))
  const InvalidBody := JsonResponse(StatusBadRequest, MessageBody("invalid request body"))

  /** `gin.Recovery`'s answer to a panic: status 500 and no body. */
  const RecoveredPanic := EmptyResponse(StatusInternalServerError)

  /** The POST handler `loadPlugins` registers for one plugin, behind the
      recovery middleware. */
  function PluginResponse(p: Plugin, body: RequestBody, be: Backends): (r: Response)
    ensures BindParams(body).None? ==> r == InvalidBody
    ensures BindParams(body).Some? && be.run(p, BindParams(body).value).Failed? ==>
      r == JsonResponse(StatusInternalServerError, MessageBody(be.run(p, BindParams(body).value).error))
    ensures BindParams(body).Some? && be.run(p, BindParams(body).value).Returned? ==>
      r == JsonResponse(StatusOK, JObject(map[p.Name() := ResultsJson(be.run(p, BindParams(body).value).results)]))
    ensures BindParams(body).Some? && be.run(p, BindParams(body).value).Panicked? ==> r == RecoveredPanic
    ensures r.status == StatusOK <==> BindParams(body).Some? && be.run(p, BindParams(body).value).Returned?
  {
    match BindParams(body)
    case None => InvalidBody
    case Some(params) =>
      match be.run(p, params)
      case Failed(e) => JsonResponse(StatusInternalServerError, MessageBody(e))
      case Returned(results) => JsonResponse(StatusOK, JObject(map[p.Name() := ResultsJson(results)]))
      case Panicked(_) => RecoveredPanic
  }

  /** The router answering one request. Before `NoRoute` is set the router
      answers unmatched paths with its own plain 404. A handler's panic is
      answered by the recovery middleware. */
  function Serve(routes: seq<Route>, noRoute: bool, plugins: seq<Plugin>, req: Request, be: Backends): (r: Response)
    ensures Lookup(routes, req.verb, req.path).None? ==>
      r == if noRoute then RouteNotFound else TextResponse(StatusNotFound, "404 page not found")
    ensures r.status in {StatusOK, StatusBadRequest, StatusNotFound, StatusInternalServerError}
    ensures r.status == StatusBadRequest ==> r == InvalidBody
  {
    match Lookup(routes, req.verb, req.path)
    case None => if noRoute then RouteNotFound else TextResponse(StatusNotFound, "404 page not found")
    case Some((route, filename)) =>
      var keys: map<string, StoreRef> := if route.injects.Some? then Middleware.InjectFileStore(map[], route.injects.value) else map[];
      match route.handler
      case Health => JsonResponse(StatusOK, MessageBody("ok"))
      case ListPlugins => JsonResponse(StatusOK, JObject(map["plugins" := JArray(JsonStrings(Names(plugins)))]))
      case RunPlugin(p) => PluginResponse(p, req.body, be)
      case GetFile =>
        (match Middleware.MustGet(keys, Middleware.ContextFileStore)
         case None => RecoveredPanic
         case Some(s) => FileEndpoints.Get(filename, be.stores(s), be.sniff))
      case DeleteFile =>
        (match Middleware.MustGet(keys, Middleware.ContextFileStore)
         case None => RecoveredPanic
         case Some(s) => FileEndpoints.Delete(filename, be.stores(s)))
  }

  /** One request: the response, and its log record when the logger is
      installed. */
  datatype Exchange = Exchange(response: Response, entry: Option<Middleware.Entry>)

  /** A request through the router; `logged` tells whether the logger
      middleware is installed. The logger is the outermost middleware, so
      it records the status the router finally answered, a recovered panic
      included. */
  function Handle(routes: seq<Route>, noRoute: bool, plugins: seq<Plugin>, req: Request, be: Backends,
                  logged: bool, clientIp: string, elapsed: int, privateErrors: string): (x: Exchange)
    ensures x.response == Serve(routes, noRoute, plugins, req, be)
    ensures x.entry.Some? <==> logged
    ensures x.entry.Some? ==> x.entry.value.status == x.response.status
    ensures x.entry.Some? ==>
      x.entry.value == Middleware.LogEntry(req, clientIp, Middleware.Downstream(x.response.status, privateErrors), elapsed)
  {
    var response := Serve(routes, noRoute, plugins, req, be);
    if logged then
      Exchange(response, Some(Middleware.LogEntry(req, clientIp, Middleware.Downstream(response.status, privateErrors), elapsed)))
    else Exchange(response, None)
  }

  // ---------------------------------------------------------------------
  // Properties of the served route table

  lemma LookupFixed(verb: Method, path: string)
    ensures Lookup([HealthRoute, ListRoute], verb, path) ==
      if verb == Get && path == HealthRoute.pattern.path then Some((HealthRoute, ""))
      else if verb == Get && path == PluginsPath then Some((ListRoute, ""))
      else None
  {
    var rs := [HealthRoute, ListRoute];
    assert rs[1..] == [ListRoute];
    assert [ListRoute][1..] == [];
    assert Lookup([ListRoute], verb, path) ==
      if verb == Get && path == PluginsPath then Some((ListRoute, "")) else Lookup([], verb, path);
    assert Lookup(rs, verb, path) ==
      if verb == Get && path == HealthRoute.pattern.path then Some((HealthRoute, "")) else Lookup([ListRoute], verb, path);
  }

  lemma LookupFiles(store: StoreRef, verb: Method, path: string)
    ensures Lookup(FileRoutes(store), verb, path) ==
      if verb == Get && MatchPattern(WithFilename(FilesPrefix), path).Some? then
        Some((FileRoutes(store)[0], MatchPattern(WithFilename(FilesPrefix), path).value))
      else if verb == Delete && MatchPattern(WithFilename(FilesPrefix), path).Some? then
        Some((FileRoutes(store)[1], MatchPattern(WithFilename(FilesPrefix), path).value))
      else None
  {
    var rs := FileRoutes(store);
    var m := MatchPattern(WithFilename(FilesPrefix), path);
    assert rs[1..] == [rs[1]];
    assert [rs[1]][1..] == [];
    assert Lookup([rs[1]], verb, path) ==
      if verb == Delete && m.Some? then Some((rs[1], m.value)) else Lookup([], verb, path);
    assert Lookup(rs, verb, path) ==
      if verb == Get && m.Some? then Some((rs[0], m.value)) else Lookup([rs[1]], verb, path);
  }

  /** How the route table decides: fixed routes first, then plugin
      routes, then the file routes. */
  lemma LookupTable(plugins: seq<Plugin>, store: StoreRef, verb: Method, path: string)
    ensures Lookup(RouteTable(plugins, store), verb, path) ==
      if Lookup([HealthRoute, ListRoute], verb, path).Some? then Lookup([HealthRoute, ListRoute], verb, path)
      else if Lookup(PluginRoutes(plugins), verb, path).Some? then Lookup(PluginRoutes(plugins), verb, path)
      else Lookup(FileRoutes(store), verb, path)
  {
    LookupAppend([HealthRoute, ListRoute] + PluginRoutes(plugins), FileRoutes(store), verb, path);
    LookupAppend([HealthRoute, ListRoute], PluginRoutes(plugins), verb, path);
  }

  /** The routes the table lists (method and path, as the router's
      `Routes()` shows them): health, the plugin list, one POST per plugin
      under its name, and the two file routes. */
  lemma RoutesListed(plugins: seq<Plugin>, store: StoreRef)
    ensures var t := RouteTable(plugins, store);
      && |t| == 4 + |plugins|
      && t[0].verb == Get && PatternPath(t[0].pattern) == "/api/v1/health"
      && t[1].verb == Get && PatternPath(t[1].pattern) == "/api/v1/plugins"
      && (forall i :: 0 <= i < |plugins| ==>
            t[2 + i].verb == Post && PatternPath(t[2 + i].pattern) == "/api/v1/plugins/" + plugins[i].Name())
      && t[|t| - 2].verb == Get && PatternPath(t[|t| - 2].pattern) == "/api/v1/files/:filename"
      && t[|t| - 1].verb == Delete && PatternPath(t[|t| - 1].pattern) == "/api/v1/files/:filename"
  {
    var t := RouteTable(plugins, store);
    var files := FileRoutes(store);
    assert t == [HealthRoute, ListRoute] + PluginRoutes(plugins) + files;
    assert t[|t| - 2] == files[0] && t[|t| - 1] == files[1];
    assert PatternPath(files[0].pattern) == "/api/v1/files/:filename";
    assert PluginsPath + "/" == "/api/v1/plugins/";
    forall i | 0 <= i < |plugins|
      ensures t[2 + i] == PluginRoute(plugins[i])
    {
    }
  }

  /** A plugin that panics is answered 500 with no body by the recovery
      middleware, and the logger records it at error level. */
  lemma PluginPanicIsLoggedAsError(plugins: seq<Plugin>, store: StoreRef, i: nat, req: Request, be: Backends,
                                   clientIp: string, elapsed: int, privateErrors: string)
    requires i < |plugins|
    requires forall j :: 0 <= j < i ==> plugins[j].Name() != plugins[i].Name()
    requires req.verb == Post && req.path == PluginsPath + "/" + plugins[i].Name()
    requires BindParams(req.body).Some? && be.run(plugins[i], BindParams(req.body).value).Panicked?
    ensures var x := Handle(RouteTable(plugins, store), true, plugins, req, be, true, clientIp, elapsed, privateErrors);
            && x.response == RecoveredPanic
            && x.entry.Some? && x.entry.value.level == Middleware.Error && x.entry.value.status == StatusInternalServerError
  {
    PluginEndpoint(plugins, store, i, req.rawQuery, req.body, be);
  }

  /** GET /api/v1/plugins lists exactly the plugin names, in order. */
  lemma ListsPluginNames(plugins: seq<Plugin>, store: StoreRef, rawQuery: string, body: RequestBody, be: Backends)
    ensures Serve(RouteTable(plugins, store), true, plugins, Request(Get, PluginsPath, rawQuery, body), be)
            == JsonResponse(StatusOK, JObject(map["plugins" := JArray(JsonStrings(Names(plugins)))]))
  {
    LookupTable(plugins, store, Get, PluginsPath);
    LookupFixed(Get, PluginsPath);
    assert HealthRoute.pattern.path != PluginsPath by {
      assert HealthRoute.pattern.path[8] != PluginsPath[8];
    }
  }

  /** POST /api/v1/plugins/{name} runs that plugin: 400 for a body that
      does not bind (the plugin is not run), 500 with the plugin's error
      text, or 200 with the result under the plugin's name. */
  lemma PluginEndpoint(plugins: seq<Plugin>, store: StoreRef, i: nat, rawQuery: string, body: RequestBody, be: Backends)
    requires i < |plugins|
    requires forall j :: 0 <= j < i ==> plugins[j].Name() != plugins[i].Name()
    ensures Serve(RouteTable(plugins, store), true, plugins,
                  Request(Post, PluginsPath + "/" + plugins[i].Name(), rawQuery, body), be)
            == PluginResponse(plugins[i], body, be)
  {
    var path := PluginsPath + "/" + plugins[i].Name();
    PluginRouteFound(plugins, i);
    LookupTable(plugins, store, Post, path);
    LookupFixed(Post, path);
  }

  /** GET and DELETE on /api/v1/files/{filename} hand the filename,
      unchanged, to the configured store. */
  lemma FileEndpointsUseStore(plugins: seq<Plugin>, store: StoreRef, filename: string, rawQuery: string,
                              body: RequestBody, be: Backends)
    requires filename != "" && '/' !in filename
    ensures Serve(RouteTable(plugins, store), true, plugins, Request(Get, FilesPrefix + filename, rawQuery, body), be)
            == FileEndpoints.Get(filename, be.stores(store), be.sniff)
    ensures Serve(RouteTable(plugins, store), true, plugins, Request(Delete, FilesPrefix + filename, rawQuery, body), be)
            == FileEndpoints.Delete(filename, be.stores(store))
  {
    var path := FilesPrefix + filename;
    assert path[..|FilesPrefix|] == FilesPrefix && path[|FilesPrefix|..] == filename;
    assert MatchPattern(WithFilename(FilesPrefix), path) == Some(filename);
    PluginRoutesOnlyPost(plugins, Get, path);
    PluginRoutesOnlyPost(plugins, Delete, path);
    LookupTable(plugins, store, Get, path);
    LookupTable(plugins, store, Delete, path);
    LookupFixed(Get, path);
    LookupFixed(Delete, path);
    LookupFiles(store, Get, path);
    LookupFiles(store, Delete, path);
    assert path != HealthRoute.pattern.path && path != PluginsPath by {
      assert |path| > |FilesPrefix| == |HealthRoute.pattern.path|;
      assert path[8] != PluginsPath[8];
    }
    assert Middleware.MustGet(Middleware.InjectFileStore(map[], store), Middleware.ContextFileStore) == Some(store);
  }

  /** The manager's own test: a manager with plugins "test" (returning no
      result) and "error" (failing with "plugin error"). */
  lemma ManagerScenario(store: StoreRef, be: Backends)
    requires be.run(CustomPlugin("test", 0), map[]) == Returned(None)
    requires be.run(CustomPlugin("error", 1), map[]) == Failed("plugin error")
    ensures var plugins := [CustomPlugin("test", 0), CustomPlugin("error", 1)];
            var routes := RouteTable(plugins, store);
            && Serve(routes, true, plugins, Request(Get, "/DNE", "", NoBody), be) == RouteNotFound
            && Serve(routes, true, plugins, Request(Get, "/api/v1/health", "", NoBody), be)
               == JsonResponse(StatusOK, MessageBody("ok"))
            && Serve(routes, true, plugins, Request(Post, "/api/v1/plugins/test", "", Decoded(JObject(map[]))), be)
               == JsonResponse(StatusOK, JObject(map["test" := JNull]))
            && Serve(routes, true, plugins, Request(Post, "/api/v1/plugins/test", "", NoBody), be) == InvalidBody
            && Serve(routes, true, plugins, Request(Post, "/api/v1/plugins/error", "", Decoded(JObject(map[]))), be)
               == JsonResponse(StatusInternalServerError, MessageBody("plugin error"))
  {
    var plugins := [CustomPlugin("test", 0), CustomPlugin("error", 1)];
    var routes := RouteTable(plugins, store);
    assert PluginsPath + "/" + plugins[0].Name() == "/api/v1/plugins/test";
    assert PluginsPath + "/" + plugins[1].Name() == "/api/v1/plugins/error";
    PluginEndpoint(plugins, store, 0, "", Decoded(JObject(map[])), be);
    PluginEndpoint(plugins, store, 0, "", NoBody, be);
    PluginEndpoint(plugins, store, 1, "", Decoded(JObject(map[])), be);
    PluginRoutesOnlyPost(plugins, Get, "/DNE");
    LookupTable(plugins, store, Get, "/DNE");
    LookupFixed(Get, "/DNE");
    LookupFiles(store, Get, "/DNE");
    LookupTable(plugins, store, Get, "/api/v1/health");
    LookupFixed(Get, "/api/v1/health");
    assert MatchPattern(WithFilename(FilesPrefix), "/DNE") == None;
    assert "/api/v1/health"[1] != "/DNE"[1];
    assert Lookup(RouteTable(plugins, store), Get, "/DNE") == None;
    assert Lookup(RouteTable(plugins, store), Get, "/api/v1/health") == Some((HealthRoute, ""));
  }

  // ---------------------------------------------------------------------
  // The manager object

  datatype State = Constructed | Running

  /** The loop of the plugin-list handler, collecting `plugin.Name()`. */
  method ListPluginNames(plugins: seq<Plugin>) returns (names: seq<string>)
    ensures names == Names(plugins)
  {
    names := [];
    var i := 0;
    while i < |plugins|
      invariant 0 <= i <= |plugins|
      invariant |names| == i
      invariant forall j :: 0 <= j < i ==> names[j] == plugins[j].Name()
    {
      names := names + [plugins[i].Name()];
      i := i + 1;
    }
  }

  /** How `Run` ends: it returns its error (or `nil`), or it panics. */
  datatype Exit = Returns(err: Option<string>) | Panics(message: string)

  class Manager {
    /** What `New` built. */
    const settings: Settings
    /** Constructed until `Run` has connected the browser and started the
        listener; Running afterwards. */
    var state: State
    /** The router: global middleware, whether `NoRoute` is set, routes. */
    var middleware: seq<GlobalMiddleware>
    var noRoute: bool
    var routes: seq<Route>

    /** The `&Manager{...}` built by `New`, over a router with no routes. */
    constructor (s: Settings)
      ensures settings == s && state == Constructed
      ensures middleware == [] && !noRoute && routes == []
    {
      settings := s;
      state := Constructed;
      middleware := [];
      noRoute := false;
      routes := [];
    }

    /** `Run`. `corsPanic` is what `cors.New` does with the configured
        CORS settings: it panics, with the given message, when they fail
        the library's validation. That panic ends `Run` after the logger
        and recovery middlewares are installed and before anything else
        is registered. `connect` is the browser connector's answer (`nil`
        or an error). The routes are registered before connecting, so they
        stay registered when the connection fails; the listener starts
        only after a successful connection. */
    method Run(corsPanic: Option<string>, connect: Option<string>) returns (x: Exit)
      modifies this
      ensures corsPanic.Some? ==>
        && x == Panics(corsPanic.value)
        && middleware == old(middleware) + [Logger, Recovery]
        && noRoute == old(noRoute) && routes == old(routes) && state == old(state)
      ensures corsPanic.None? ==>
        && x == Returns(connect)
        && middleware == old(middleware) + [Logger, Recovery, Cors(settings.cors)]
        && noRoute
        && routes == old(routes) + RouteTable(settings.plugins, settings.fileStore)
        && state == if connect.None? then Running else old(state)
    {
      middleware := middleware + [Logger, Recovery];
      if corsPanic.Some? {
        return Panics(corsPanic.value);
      }
      middleware := middleware + [Cors(settings.cors)];
      noRoute := true;
      routes := routes + [HealthRoute, ListRoute];
      LoadPlugins();
      routes := routes + FileRoutes(settings.fileStore);
      if connect.Some? {
        return Returns(connect);
      }
      state := Running;
      x := Returns(None);
    }

    /** `loadPlugins`: one POST route per plugin, each bound to its own
        plugin, in plugin order. */
    method LoadPlugins()
      modifies this`routes
      ensures routes == old(routes) + PluginRoutes(settings.plugins)
    {
      var plugins := settings.plugins;
      var i := 0;
      while i < |plugins|
        invariant 0 <= i <= |plugins|
        invariant routes == old(routes) + PluginRoutes(plugins[..i])
      {
        assert PluginRoutes(plugins[..i + 1]) == PluginRoutes(plugins[..i]) + [PluginRoute(plugins[i])];
        routes := routes + [PluginRoute(plugins[i])];
        i := i + 1;
      }
      assert plugins[..i] == plugins;
    }

    /** The router answering a request, with a log record when the logger
        has been installed. */
    function HandleRequest(req: Request, be: Backends, clientIp: string, elapsed: int, privateErrors: string): (x: Exchange)
      reads this
      ensures x.response == Serve(routes, noRoute, settings.plugins, req, be)
      ensures x.entry.Some? <==> Logger in middleware
      ensures x.entry.Some? ==> x.entry.value.status == x.response.status
    {
      Handle(routes, noRoute, settings.plugins, req, be, Logger in middleware, clientIp, elapsed, privateErrors)
    }
  }

  /** Construction, a CORS configuration the library rejects, a failed
      connection, and a successful one. A rejected configuration leaves no
      route registered; otherwise the routes are registered either way and
      only the connected manager serves. */
  method RunScenario(cfg: Config, be: Backends)
    returns (rejected: Exit, bad: Manager, failed: Exit, down: Manager, m: Manager)
    requires New(cfg).Ok?
    ensures rejected == Panics("bad origin") && bad.state == Constructed && bad.routes == []
    ensures bad.HandleRequest(Request(Get, "/api/v1/health", "", NoBody), be, "", 0, "").response
            == TextResponse(StatusNotFound, "404 page not found")
    ensures failed == Returns(Some("failed to connect to browser"))
    ensures down.state == Constructed
    ensures down.routes == RouteTable(cfg.plugins, cfg.fileStore.value)
    ensures m.state == Running
    ensures m.routes == RouteTable(cfg.plugins, cfg.fileStore.value)
    ensures m.HandleRequest(Request(Get, "/api/v1/health", "", NoBody), be, "", 0, "").response
            == JsonResponse(StatusOK, MessageBody("ok"))
    ensures m.HandleRequest(Request(Get, "/api/v1/health", "", NoBody), be, "", 0, "").entry.Some?
  {
    bad := new Manager(New(cfg).value);
    rejected := bad.Run(Some("bad origin"), None);
    down := new Manager(New(cfg).value);
    failed := down.Run(None, Some("failed to connect to browser"));
    m := new Manager(New(cfg).value);
    var ok := m.Run(None, None);
  }
}
