# browserbro, modelled in Dafny

browserbro is an HTTP service that drives a headless browser through
plugins. The manager validates its configuration and fills in defaults.
It then installs a logger, panic recovery and CORS. It registers a health
route, a plugin-list route, one POST route per plugin and two file routes
backed by a file store. Only after that does it connect the browser and
start listening. Two plugins come built in:

- `googlesearch` validates a query and a set of search types, then
  scrapes the result page of the "all" and "videos" sections when they
  are requested. The "images" and "news" types are accepted but produce
  nothing.
- `screenshot` validates a list of URLs, captures each one into a PNG in
  the file store, and answers with the file names.

This project models that logic and proves what it promises. The browser,
the router's JSON binding, the clock and the random file names are
oracles, passed as parameters:

- `values.dfy`: JSON values, plugin parameters (`map<string, Json>`),
  durations in nanoseconds, `Option` and `Result`.
- `http.dfy`: methods, status codes, requests and responses.
- `store.dfy`: the `fs.FileStore` interface and its not-found error.
- `localstore.dfy`: the local-directory store as a class over a
  path-to-bytes map. Paths come from an uninterpreted join function.
- `fileendpoints.dfy`: the GET and DELETE file handlers.
- `middleware.dfy`: the request logger's record (path, level, latency
  truncation, status, message) and the context middleware.
- `browser.dfy`: the browser session as the set of open pages.
- `googlesearch.dfy`, `screenshot.dfy`: the two plugins. Each has
  specification functions, the plugin's loops as methods proved against
  them, and lemmas.
- `registry.dfy`: the plugin registry and its custom-plugin list.
- `pluginfiles.dfy`: a screenshot file read back through the GET file
  endpoint.
- `manager.dfy`: `New`, the route table, request dispatch, and the
  `Manager` class whose `Run` builds the router.

The model assumes Go's per-iteration loop variables (Go 1.22 and later).
No source file states the Go version. But the manager's test
(`pkg/manager/manager_test.go:170-209`) only passes under that rule: it
expects POST `/api/v1/plugins/test` to run "test", not the last plugin. So
each plugin route is bound to its own plugin (`Manager.PluginRoutes`,
`Manager.PluginEndpoint`).

Code and tests disagree in one place. `New` never checks the plugin list,
but `pkg/manager/manager_test.go:90-97` expects an empty list to be
rejected with "at least one plugin is required". The model follows the
code: `Manager.NewAcceptsNoPlugins` proves that `New` accepts an empty list.

## Model

| member | source | states |
|---|---|---|
| `LocalStore.FileStore.PutObject` | pkg/fs/local/local.go:30-33 | the contents are written at `Join(BasePath, key)`, overwriting any earlier file there; every other path is unchanged |
| `LocalStore.FileStore.GetObject` | pkg/fs/local/local.go:35-41 | succeeds exactly when the joined path exists, and then returns its bytes; otherwise the error is `ErrorFileNotFound` |
| `LocalStore.FileStore.DeleteObject` | pkg/fs/local/local.go:43-49 | succeeds exactly when the joined path exists, and then removes only that path; otherwise it fails with `ErrorFileNotFound` and nothing changes |
| `LocalStore.FileStore.BasePath` | pkg/fs/local/local.go:51-53 | the configured base path, unchanged |
| `LocalStore.FileStore.constructor` | pkg/fs/local/local.go:18-28 | the store keeps its base path and starts over the directory's existing contents |
| `LocalStore.PutThenGet` | pkg/fs/local/local.go:30-41 | after a put of `b` at a path, a get of that path returns `b` byte for byte |
| `LocalStore.PutKeepsOthers` | pkg/fs/local/local.go:30-33 | a put leaves the answer for every other path as it was |
| `LocalStore.DeleteThenGet` | pkg/fs/local/local.go:43-49 | after a successful delete the path is absent, a get reports not-found, and every other path is unchanged |
| `LocalStore.DeleteTwice` | pkg/fs/local/local.go:44-46 | a second delete of the same path always fails with not-found |
| `LocalStore.PutGetDelete` | pkg/fs/local/local_test.go:49-61 | through the class: put, then get returns the bytes, the first delete succeeds, the second fails with not-found, and the key's path is gone |
| `FileEndpoints.Get` | pkg/manager/fs/fs.go:13-30 | the filename goes to the store unchanged; 200 with the stored bytes and their sniffed content type exactly when the store succeeds; 404 `{"error":"file not found"}` exactly on not-found; 500 `{"error":"internal server error"}` on any other error |
| `FileEndpoints.Delete` | pkg/manager/fs/fs.go:32-49 | 200 `{"message":"file deleted"}` exactly when the delete succeeds; 404 exactly on not-found; 500 otherwise, with the same bodies as `Get` |
| `FileEndpoints.GetAfterPut` | pkg/manager/fs/fs.go:13-30 | with the local store, a file put under a name is served back by GET with 200 and exactly the stored bytes |
| `FileEndpoints.DeleteThenGetAndDelete` | pkg/manager/fs/fs.go:32-49 | with the local store, after a DELETE both a GET and a repeated DELETE answer 404 |
| `FileEndpoints.DeleteStatus` | pkg/manager/fs/fs.go:32-49 | with the local store, DELETE answers 200 exactly when the file exists, and otherwise 404, never 500 |
| `Middleware.GoRem` | pkg/manager/middleware.go:23-26 | Go's truncating remainder: the dividend is the quotient truncated toward zero times the divisor plus the remainder, which takes the dividend's sign and is smaller in magnitude than the divisor and no larger in magnitude than the dividend |
| `Middleware.Truncate` | pkg/manager/middleware.go:24-26 | `Duration.Truncate`: a non-positive modulus leaves the duration unchanged; otherwise the result is a multiple of the modulus, rounded toward zero and less than one modulus away |
| `Middleware.LoggedLatency` | pkg/manager/middleware.go:22-26 | a latency of at most one minute is logged as measured; a longer one is logged as a whole number of seconds, at most the measured value and less than a second below it |
| `Middleware.TruncateToSecondBounds` | pkg/manager/middleware.go:24-26 | `Duration.Truncate(time.Second)` gives a whole number of seconds, rounded toward zero and within one second of the duration, for either sign |
| `Middleware.LoggedLatencyIdempotent` | pkg/manager/middleware.go:23-26 | logging an already-logged latency gives back the same value |
| `Middleware.LoggedPath` | pkg/manager/middleware.go:15-16 | the logged path is the request path, followed by `?` and the raw query exactly when the raw query is non-empty |
| `Middleware.LoggedPathRecovers` | pkg/manager/middleware.go:33-36 | when neither path holds a `?`, the logged path determines both the path and the raw query |
| `Middleware.LevelFor` | pkg/manager/middleware.go:38-43 | the level is error exactly when the status is 500 or more, and info otherwise |
| `Middleware.LogEntry` | pkg/manager/middleware.go:12-51 | the record holds the status left by the downstream handlers, the level for that status, the private errors as message, the method and client IP, the logged path, and the logged latency |
| `Middleware.LoggerExamples` | pkg/manager/middleware_test.go:34-50 | `/example?n=42` answered 200 and `/notfound` answered 404 are both logged at info level, with those paths and statuses |
| `Middleware.InjectFileStore` | pkg/manager/middleware.go:54-61 | the context passed on holds the file store under "fileStore", and every other key is kept |
| `Middleware.MustGet` | pkg/manager/fs/fs.go:15-16 | a lookup that yields the value exactly when the key is set, and otherwise fails where gin would panic |
| `Middleware.InjectedStoreIsFound` | pkg/manager/middleware.go:54-61 | behind the context middleware, the handler's `MustGet("fileStore")` yields exactly the injected store |
| `Browser.Session.constructor` | pkg/manager/manager.go:88-90 | the browser the manager creates (`rod.New()`) has opened no pages |
| `Browser.Session.OpenPage` | pkg/plugins/googlesearch/googlesearch.go:70-74 | `stealth.Page`: on failure nothing changes; otherwise a new page id is returned and added to the open pages |
| `Browser.Session.ClosePage` | pkg/plugins/googlesearch/googlesearch.go:79-85 | `page.Close()`: the page is no longer open |
| `GoogleSearch.Lower` | pkg/plugins/googlesearch/googlesearch.go:58 | lowercasing keeps the length and lowers each character |
| `GoogleSearch.CheckType` | pkg/plugins/googlesearch/googlesearch.go:54-64 | an element is accepted exactly when it is a string whose lowered form is a known type, and then it yields that lowered form; otherwise "'type' parameter must only contain strings" for a non-string, or "invalid search type: " plus the string as given |
| `GoogleSearch.DottedCapitalAccepted` | pkg/plugins/googlesearch/googlesearch.go:58-63 | "İMAGES" lowers to "images" and is accepted, as with Go's Unicode lowercasing; an unknown type is quoted as given |
| `GoogleSearch.CollectTypes` | pkg/plugins/googlesearch/googlesearch.go:53-65 | the loop over `type` computes `ParseTypes`: the set of lowered types, or the error of the first failing element |
| `GoogleSearch.PrefixErrorSticks` | pkg/plugins/googlesearch/googlesearch.go:53-65 | once a prefix of `type` fails, the whole array fails with that error |
| `GoogleSearch.ParseTypesOk` | pkg/plugins/googlesearch/googlesearch.go:53-65 | `type` is accepted exactly when every element is a string whose lowered form is a known type, and then the set holds exactly the lowered elements, duplicates collapsed |
| `GoogleSearch.FirstBadDecides` | pkg/plugins/googlesearch/googlesearch.go:53-65 | the first bad element decides the error: "'type' parameter must only contain strings" for a non-string, "invalid search type: " plus the original string for an unknown type, whatever follows |
| `GoogleSearch.ParsedTypesAllowed` | pkg/plugins/googlesearch/googlesearch.go:58-61 | accepted types are lowercase members of {all, images, news, videos} |
| `GoogleSearch.Validate` | pkg/plugins/googlesearch/googlesearch.go:37-68 | validation succeeds exactly when `query` is a string and `type` is absent or an array whose elements all pass; the query text is kept, and the types are {"all"} when `type` is absent and the parsed set otherwise |
| `GoogleSearch.ValidationCases` | pkg/plugins/googlesearch/googlesearch.go:37-68 | a missing `query` fails with "missing 'query' parameter"; a non-string one with "'query' parameter must be a string"; an absent `type` gives {"all"}; a non-array `type` fails with "'type' parameter must be an array of strings"; valid types lie within the four known |
| `GoogleSearch.BlockResultsInOrder` | pkg/plugins/googlesearch/googlesearch.go:103-116 | a scraped section has one `{link, title, description}` object per result block, in page order |
| `GoogleSearch.ScrapeBlocks` | pkg/plugins/googlesearch/googlesearch.go:103-116 | the loop over result blocks computes `BlockResults`: the objects, or the panic of the first block that cannot be read |
| `GoogleSearch.BlockPanicSticks` | pkg/plugins/googlesearch/googlesearch.go:105-109 | once a block panics, the section's outcome is that panic |
| `GoogleSearch.VideosUrlExtendsAll` | pkg/plugins/googlesearch/googlesearch.go:93-97 | both sections search the same `q`; the videos URL is the "all" URL followed by `&tbm=vid` (lines 120-121), as `Encode` sorts the keys |
| `GoogleSearch.OutputSections` | pkg/plugins/googlesearch/googlesearch.go:96-143 | on success the output has key "all" exactly when "all" was requested and "videos" exactly when "videos" was; "images" and "news" produce nothing |
| `GoogleSearch.EmptyTypesEmptyOutput` | pkg/plugins/googlesearch/googlesearch.go:46-68 | an empty `type` array is valid and yields an empty output |
| `GoogleSearch.Run` | pkg/plugins/googlesearch/googlesearch.go:36-144 | the plugin's answer is `Search`; every parameter error comes before a page is created; a page once created is closed on every exit path |
| `Screenshot.WaitStable` | pkg/plugins/screenshot/screenshot.go:64-67 | `waitStable` is the supplied boolean, and true when it is absent or not a boolean |
| `Screenshot.Deadline` | pkg/plugins/screenshot/screenshot.go:69-72 | the call is cancelled after 15 seconds (the per-URL time set at line 28) times the number of URLs |
| `Values.JsonStrings` | pkg/plugins/screenshot/screenshot.go:97-98 | a string list as JSON array items, one per string and in order, as the `files` output and the plugin-name list serialise |
| `Screenshot.FailureSticks` | pkg/plugins/screenshot/screenshot.go:74-95 | once the URL loop fails on a prefix, its outcome is that of the prefix |
| `Screenshot.CaptureAll` | pkg/plugins/screenshot/screenshot.go:74-95 | the loop succeeds exactly when every URL is a string that navigates and captures; then it yields the i-th drawn name for the i-th URL, each written below the base path |
| `Screenshot.FirstFailureDecides` | pkg/plugins/screenshot/screenshot.go:75-84 | the first failing URL decides the error: "'urls' parameter must only contain strings", "failed to navigate to the page '<u>': ...", or "failed to complete: ..."; the URLs before it are already captured and their files stay written |
| `Screenshot.SuccessOutput` | pkg/plugins/screenshot/screenshot.go:55-98 | on success `urls` was a non-empty array, and the output has the single key "files" with one name per URL in input order, each ending in ".screenshot.png" |
| `Screenshot.CapturedContents` | pkg/plugins/screenshot/screenshot.go:79-93 | when the file paths are distinct, every file of a successful call holds exactly the capture of its URL |
| `PluginFiles.ShotThenGet` | pkg/plugins/screenshot/screenshot.go:91-94 | after a successful screenshot call with distinct file paths, the i-th name in the answer is the i-th file name, and GET `/api/v1/files/<name>` over the same local store serves 200 with exactly the bytes captured for the i-th URL (pkg/manager/fs/fs.go:13-30) |
| `Screenshot.CaptureOne` | pkg/plugins/screenshot/screenshot.go:75-95 | one turn of the capture loop agrees with `Step`: a non-string URL, a failed navigation or a failed capture names the error and leaves the directory alone; a capture writes the PNG under the base path and appends its name |
| `Screenshot.Run` | pkg/plugins/screenshot/screenshot.go:38-101 | the answer and the store's new directory are those of `Shoot`; the page is created before any parameter check and closed on every exit path |
| `Registry.Names` | pkg/manager/manager.go:140-147 | one name per plugin, in order |
| `Registry.Registry.constructor` | pkg/plugins/plugins.go:15-17 | the custom list starts empty |
| `Registry.Registry.AddCustom` | pkg/plugins/plugins.go:28-34 | `nil` leaves the custom list unchanged; any other plugin is appended at the end with no name check |
| `Registry.Registry.Initialize` | pkg/plugins/plugins.go:19-26 | googlesearch, then screenshot, then the custom plugins in insertion order, so the length is 2 plus the custom count; the custom list is not changed |
| `Registry.RegistryScenario` | pkg/plugins/plugins_test.go:15-31 | two defaults before any custom plugin; adding `nil` changes nothing; a name added twice appears twice |
| `Manager.New` | pkg/manager/manager.go:72-121 | an empty address fails with "server address is required", checked before the store; then a missing store fails with "file store is required"; otherwise the CORS config defaults to origins and headers "*" or is kept as given, server id ≤ 0 becomes 1, an empty service URL becomes "ws://127.0.0.1:7317", an empty profile directory becomes "/tmp/rod/user-data/browserBro_userData", and the other values and the plugins are kept unchanged |
| `Manager.NewIsIdempotent` | pkg/manager/manager.go:81-102 | configuring a manager with its own settings gives the same settings: every default is a fixed point |
| `Manager.NewFillsEveryDefault` | pkg/manager/manager.go:91-99 | a constructed manager always has a positive server id and a non-empty service URL and profile directory |
| `Manager.NewAcceptsNoPlugins` | pkg/manager/manager.go:104-108 | `New` accepts an empty plugin list and keeps it |
| `Manager.PluginRoutes` | pkg/manager/manager.go:179-201 | one POST route per plugin, bound to that plugin, in plugin order |
| `Manager.MatchPattern` | pkg/manager/manager.go:153-156 | an exact pattern matches only its own path and binds nothing; `:filename` matches the prefix followed by exactly one non-empty segment with no `/`, and binds that segment |
| `Manager.LookupFirstMatch` | pkg/manager/manager.go:135-156 | the router's lookup finds nothing exactly when no route has the request's method and a matching pattern; otherwise it finds the first such route, in registration order, with the filename its pattern binds |
| `Manager.LookupAppend` | pkg/manager/manager.go:135-156 | routing in a table of two parts: a match in the first part wins, and otherwise the second part decides |
| `Manager.PluginRoutesOnlyPost` | pkg/manager/manager.go:181 | plugin routes answer POST only |
| `Manager.PluginRouteFound` | pkg/manager/manager.go:179-181 | a POST to `/api/v1/plugins/<name>` reaches the route of the first plugin with that name |
| `Manager.LookupFixed` | pkg/manager/manager.go:137-140 | the fixed routes answer only GET `/api/v1/health` and GET `/api/v1/plugins` |
| `Manager.LookupFiles` | pkg/manager/manager.go:153-156 | the file routes answer GET and DELETE on `/api/v1/files/<filename>` and bind the filename |
| `Manager.LookupTable` | pkg/manager/manager.go:135-156 | the route table tries the fixed routes, then the plugin routes, then the file routes |
| `Manager.RoutesListed` | pkg/manager/manager_test.go:142-155 | the route table lists GET `/api/v1/health`, GET `/api/v1/plugins`, POST `/api/v1/plugins/<name>` for each plugin in order, and GET and DELETE `/api/v1/files/:filename` |
| `Manager.BindParams` | pkg/manager/manager.go:182-183 | `ShouldBindJSON` into a map succeeds exactly for a JSON object, which binds as its fields, or JSON `null`, which leaves the map nil and so empty |
| `Manager.PluginResponse` | pkg/manager/manager.go:182-200 | a body that does not bind gives 400 `{"message":"invalid request body"}` and the plugin is not run; a plugin error gives 500 with the error text verbatim; a panic the plugin does not recover itself gives `gin.Recovery`'s 500 with no body (line 125); success gives 200 with the single key `name` mapped to the results, and only success gives 200 |
| `Manager.Serve` | pkg/manager/manager.go:125-156 | an unmatched request gets 404 `{"message":"route not found"}` once `NoRoute` is set, and the router's plain "404 page not found" before; every answer is 200, 400, 404 or 500, and 400 only as the invalid-body answer |
| `Manager.Handle` | pkg/manager/middleware.go:12-51 | the response is the router's; a log record exists exactly when the logger is installed, and it carries that response's status, a recovered panic's 500 included |
| `Manager.PluginPanicIsLoggedAsError` | pkg/manager/manager.go:124-125 | a plugin that panics is answered 500 with no body by the recovery middleware, and the logger, installed outside it, records it at error level with status 500 |
| `Manager.ListsPluginNames` | pkg/manager/manager.go:140-148 | GET `/api/v1/plugins` answers 200 with exactly the plugin names, one per plugin, in order |
| `Manager.PluginEndpoint` | pkg/manager/manager.go:179-201 | POST `/api/v1/plugins/<name>` runs that plugin and answers as `PluginResponse` |
| `Manager.FileEndpointsUseStore` | pkg/manager/manager.go:153-156 | GET and DELETE on `/api/v1/files/<filename>` pass the filename unchanged to the configured store's handlers |
| `Manager.ManagerScenario` | pkg/manager/manager_test.go:100-209 | with plugins "test" and "error": `/DNE` gives 404 "route not found", health gives 200 "ok", POST test gives 200 `{"test":null}`, a missing body gives 400, POST error gives 500 "plugin error" |
| `Manager.ListPluginNames` | pkg/manager/manager.go:141-144 | the loop collects exactly `Names(plugins)`: one name per plugin, in order |
| `Manager.Manager.constructor` | pkg/manager/manager.go:104-120 | a constructed manager holds its settings over a router with no middleware and no routes |
| `Manager.Manager.Run` | pkg/manager/manager.go:123-170 | the logger and recovery middlewares are added first; when `cors.New` rejects the CORS settings, `Run` panics there with no route registered, the not-found handler unset and no connection attempted; otherwise the CORS middleware follows, the not-found handler is set, the health, list, plugin and file routes are registered before connecting, the connect error is returned, and the manager starts serving only when the connection succeeds |
| `Manager.Manager.LoadPlugins` | pkg/manager/manager.go:176-207 | appends one POST route per plugin, each bound to its own plugin, in plugin order |
| `Manager.Manager.HandleRequest` | pkg/manager/manager.go:124-156 | the router answers a request from the registered routes; a log record, with the response's status, exists exactly when the logger middleware has been installed |
| `Manager.RunScenario` | pkg/manager/manager.go:123-169 | a manager whose CORS settings are rejected panics with no route registered, so its router answers the plain 404; one whose connection fails returns the connect error and stays Constructed, with every route already registered; one whose connection succeeds is Running over the same routes, serves health at 200 "ok", and logs the request |

## Left out

- File-system I/O of the local store: permissions, partial writes, and OS errors other than not-found. The directory is a map. `local.New`'s `MkdirAll` is folded into the constructor.
- `filepath.Join` is an uninterpreted function. Cleaning `..` and repeated slashes is not modelled.
- The browser: DOM queries, navigation, load and stability waits, and screenshots. All are oracle answers.
- `stealth.Page` page creation is an oracle answer that may fail.
- `GenerateRandomString`: the names drawn for a call are an oracle `names(i)`.
- Timers, goroutines and context cancellation. The deadline is passed to navigation, which may then fail. The search plugin's 15-second timer is not modelled.
- Concurrent request handling, and the background `ListenAndServe` goroutine. Serving is the state Running.
- The debug stack print in the search plugin's deferred function.
- On a recovered panic, Go also returns the partial output map. The manager ignores it when there is an error, so the model returns only the error.
- Query escaping (`url.QueryEscape`) is a parameter of the search browser.
- Content sniffing (`http.DetectContentType`) is a parameter `sniff`.
- JSON binding: a request body is modelled as already decoded, absent, or malformed.
- gin's routing beyond the matches modelled here. These are not modelled: trailing-slash redirects, path cleaning, and 405 handling (off in `gin.New`).
- Plugin names containing `/`, `:` or `*` would change gin's pattern syntax. They are taken literally.
- gin panics on duplicate routes, for example from two plugins with the same name or a second call to `Run`. This panic is not modelled. Lookup takes the first match instead.
- A panic in `stealth.Page` itself, before a default plugin's deferred `recover` is in place, is covered only as the `Panicked` outcome of a plugin's run. The plugin models (`GoogleSearch.Run`, `Screenshot.Run`) treat page creation as an ok-or-error answer.
- A router supplied through `Config.Router` is assumed to have no routes or middleware yet.
- `Manager.Manager.Run`: `cors.New`'s validation of the CORS settings is an oracle argument (a panic message, or none). The library is not part of this model, so which settings it rejects, such as no origins at all or an origin with no `http://` or `https://` scheme and no `*`, is not derived here.
- CORS behaviour at request time is not modelled. Only the origins and headers that the manager sets are kept (`Manager.CorsConfig`). `cors.DefaultConfig`'s other fields are not modelled.
- The browser connector (`pkg/manager/browser_connector.go`) is an ok-or-error answer to `Connect`.
- `Stop`, `DefaultManagerConfig` and `main.go` are not part of this model. They are process plumbing and environment reading, and `DefaultManagerConfig` does file-system I/O.
- zerolog output and `Duration.String` formatting: the log record is the result.
- Int64 overflow of durations: durations are unbounded integers.
- `GoogleSearch.Lower`: lowers ASCII capitals plus U+0130 and U+212A, the only letters Go's Unicode `strings.ToLower` maps to ASCII. Other letters are kept as they are, though Go lowers them to other non-ASCII letters. This never changes whether a type is accepted, since the known types are ASCII and the error quotes the string as given.
- `Manager.ManagerScenario`: uses a plugin `Run` oracle in place of the mock plugins' functions. Whether the "test" plugin was called is shown by the 200 answer rather than a flag.
