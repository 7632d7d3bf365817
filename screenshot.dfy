/** The `screenshot` plugin: it opens a page first, then validates `urls`
    and `waitStable`, gives the call a deadline of 15 seconds per URL, and
    captures each URL in turn into a PNG file below the file store's base
    path, answering with the list of file names. The browser is an oracle:
    page creation, navigation (which may fail, for instance when the
    deadline passes) and the capture (load and stability waits and the
    full-page screenshot, any of which may panic). The files are written
    into the local store's directory, where the file endpoints find them. */
module Screenshot {
  import opened Values
  import opened Browser
  import LocalStore

  const PluginName := "screenshot"

  /** `maxTimePerScreenshot`. */
  const MaxTimePerScreenshot: int := 15 * Second

  const ScreenshotSuffix := ".screenshot.png"

  /** What the browser does for this plugin. `names(i)` is the random
      six-byte name drawn for the i-th capture of the call. */
  datatype ShotBrowser = ShotBrowser(
    newPage: Option<string>,
    navigate: (string, int) -> Option<string>,
    capture: (string, bool) -> Result<Bytes, string>,
    names: nat -> string)

  /** `waitStable`: the supplied boolean, and true when it is absent or not
      a boolean. */
  function WaitStable(params: Params): (w: bool)
    ensures "waitStable" in params && params["waitStable"].JBool? ==> w == params["waitStable"].b
    ensures !("waitStable" in params && params["waitStable"].JBool?) ==> w
  {
    if "waitStable" in params && params["waitStable"].JBool? then params["waitStable"].b else true
  }

  /** The call's deadline for `n` URLs, in nanoseconds. */
  function Deadline(n: nat): (d: int)
    ensures d == n * 15 * Second
  {
    MaxTimePerScreenshot * n
  }

  /** The file name of the i-th capture. */
  function FileName(b: ShotBrowser, i: nat): string
  {
    b.names(i) + ScreenshotSuffix
  }

  /** Everything a call fixes before its loop starts. */
  datatype ShotCall = ShotCall(b: ShotBrowser, waitStable: bool, deadline: int,
                               basePath: string, join: (string, string) -> string)

  /** The state of the loop: names so far, the directory, and the error
      that ended the loop, if any. */
  datatype Progress = Progress(files: seq<string>, dir: LocalStore.Directory, failure: Option<string>)

  /** One turn of the loop, for the URL element `u` at position `i`. */
  function Step(call: ShotCall, files: seq<string>, dir: LocalStore.Directory, u: Json, i: nat): Progress
  {
    if !u.JString? then Progress(files, dir, Some("'urls' parameter must only contain strings"))
    else
      match call.b.navigate(u.s, call.deadline)
      case Some(e) => Progress(files, dir, Some("failed to navigate to the page '" + u.s + "': " + e))
      case None =>
        match call.b.capture(u.s, call.waitStable)
        case Err(p) => Progress(files, dir, Some("failed to complete: " + p))
        case Ok(png) =>
          var name := FileName(call.b, i);
          Progress(files + [name], dir[call.join(call.basePath, name) := png], None)
  }

  /** The loop over `urls`, by prefix: it stops at the first failure. */
  function Capture(call: ShotCall, urls: seq<Json>, dir0: LocalStore.Directory): Progress
  {
    if urls == [] then Progress([], dir0, None)
    else
      var p := Capture(call, urls[..|urls| - 1], dir0);
      if p.failure.Some? then p
      else Step(call, p.files, p.dir, urls[|urls| - 1], |urls| - 1)
  }

  /** `BotCheck.Run` as a function: the result and the directory after. */
  function Shoot(params: Params, b: ShotBrowser, basePath: string,
                 join: (string, string) -> string, dir: LocalStore.Directory): (Result<Params, string>, LocalStore.Directory)
  {
    if b.newPage.Some? then (Err("failed to create stealth page: " + b.newPage.value), dir)
    else if "urls" !in params || !params["urls"].JArray? then
      (Err("'urls' parameter must be an array of string"), dir)
    else if params["urls"].items == [] then (Err("empty 'urls' parameter"), dir)
    else
      var urls := params["urls"].items;
      var call := ShotCall(b, WaitStable(params), Deadline(|urls|), basePath, join);
      var p := Capture(call, urls, dir);
      if p.failure.Some? then (Err(p.failure.value), p.dir)
      else (Ok(map["files" := JArray(JsonStrings(p.files))]), p.dir)
  }

  /** The URL element `u` is captured without failure. */
  ghost predicate Captures(call: ShotCall, u: Json)
  {
    u.JString? && call.b.navigate(u.s, call.deadline).None? && call.b.capture(u.s, call.waitStable).Ok?
  }

  /** Once a prefix fails, the loop's outcome is that of the prefix. */
  lemma {:induction false} FailureSticks(call: ShotCall, urls: seq<Json>, dir0: LocalStore.Directory, n: nat)
    requires n <= |urls|
    requires Capture(call, urls[..n], dir0).failure.Some?
    ensures Capture(call, urls, dir0) == Capture(call, urls[..n], dir0)
    decreases |urls| - n
  {
    if n == |urls| {
      assert urls[..n] == urls;
    } else {
      assert urls[..n + 1][..n] == urls[..n];
      FailureSticks(call, urls, dir0, n + 1);
    }
  }

  /** The loop succeeds exactly when every URL is captured, and then its
      names are the call's names in input order, each written below the
      base path. */
  lemma {:induction false} CaptureAll(call: ShotCall, urls: seq<Json>, dir0: LocalStore.Directory)
    ensures Capture(call, urls, dir0).failure.None? <==> forall i :: 0 <= i < |urls| ==> Captures(call, urls[i])
    ensures Capture(call, urls, dir0).failure.None? ==>
      var p := Capture(call, urls, dir0);
      && |p.files| == |urls|
      && (forall i :: 0 <= i < |urls| ==> p.files[i] == FileName(call.b, i))
      && (forall i :: 0 <= i < |urls| ==> call.join(call.basePath, FileName(call.b, i)) in p.dir)
  {
    if urls != [] {
      var init := urls[..|urls| - 1];
      CaptureAll(call, init, dir0);
      assert forall i :: 0 <= i < |init| ==> init[i] == urls[i];
      if Capture(call, init, dir0).failure.Some? {
        assert !Captures(call, urls[0]) || exists i :: 0 <= i < |init| && !Captures(call, init[i]);
      }
    }
  }

  /** The first URL that fails decides the error; the URLs before it have
      already been captured and their files stay written. */
  lemma {:induction false} FirstFailureDecides(call: ShotCall, urls: seq<Json>, dir0: LocalStore.Directory, i: nat)
    requires i < |urls|
    requires forall j :: 0 <= j < i ==> Captures(call, urls[j])
    requires !Captures(call, urls[i])
    ensures var before := Capture(call, urls[..i], dir0);
            Capture(call, urls, dir0) == Step(call, before.files, before.dir, urls[i], i)
    ensures Capture(call, urls, dir0).failure ==
      if !urls[i].JString? then Some("'urls' parameter must only contain strings")
      else if call.b.navigate(urls[i].s, call.deadline).Some? then
        Some("failed to navigate to the page '" + urls[i].s + "': " + call.b.navigate(urls[i].s, call.deadline).value)
      else Some("failed to complete: " + call.b.capture(urls[i].s, call.waitStable).error)
    ensures |Capture(call, urls, dir0).files| == i
    ensures forall j :: 0 <= j < i ==> call.join(call.basePath, FileName(call.b, j)) in Capture(call, urls, dir0).dir
  {
    var prefix := urls[..i];
    CaptureAll(call, prefix, dir0);
    assert forall j :: 0 <= j < |prefix| ==> prefix[j] == urls[j];
    assert urls[..i + 1][..i] == prefix;
    FailureSticks(call, urls, dir0, i + 1);
  }

  /** On success the output is `{"files": [...]}` with one name per URL in
      input order, each ending in ".screenshot.png". */
  lemma SuccessOutput(params: Params, b: ShotBrowser, basePath: string,
                      join: (string, string) -> string, dir: LocalStore.Directory)
    requires Shoot(params, b, basePath, join, dir).0.Ok?
    ensures "urls" in params && params["urls"].JArray? && |params["urls"].items| > 0
    ensures var out := Shoot(params, b, basePath, join, dir).0.value;
            && out.Keys == {"files"}
            && out["files"] == JArray(seq(|params["urls"].items|, i requires 0 <= i => JString(FileName(b, i))))
            && forall i :: 0 <= i < |params["urls"].items| ==>
                 var f := FileName(b, i); |f| >= |ScreenshotSuffix| && f[|f| - |ScreenshotSuffix|..] == ScreenshotSuffix
  {
    var urls := params["urls"].items;
    var call := ShotCall(b, WaitStable(params), Deadline(|urls|), basePath, join);
    CaptureAll(call, urls, dir);
    var p := Capture(call, urls, dir);
    assert JsonStrings(p.files) == seq(|urls|, i requires 0 <= i => JString(FileName(b, i)));
  }

  /** With pairwise distinct file paths, every file of a successful call
      holds exactly the capture of its URL. */
  lemma {:induction false} CapturedContents(call: ShotCall, urls: seq<Json>, dir0: LocalStore.Directory)
    requires Capture(call, urls, dir0).failure.None?
    requires forall i, j :: 0 <= i < j < |urls| ==>
               call.join(call.basePath, FileName(call.b, i)) != call.join(call.basePath, FileName(call.b, j))
    ensures forall i :: 0 <= i < |urls| ==>
              urls[i].JString? && call.b.capture(urls[i].s, call.waitStable).Ok? &&
              call.join(call.basePath, FileName(call.b, i)) in Capture(call, urls, dir0).dir &&
              Capture(call, urls, dir0).dir[call.join(call.basePath, FileName(call.b, i))]
                == call.b.capture(urls[i].s, call.waitStable).value
  {
    CaptureAll(call, urls, dir0);
    if urls != [] {
      var init := urls[..|urls| - 1];
      assert urls[..|urls| - 1][..|init|] == init;
      CaptureAll(call, init, dir0);
      assert forall i :: 0 <= i < |init| ==> init[i] == urls[i];
      CapturedContents(call, init, dir0);
    }
  }

  /** One turn of the capture loop: captures the URL element `u` into the
      store's directory, or names the failure that ends the loop. */
  method CaptureOne(b: ShotBrowser, waitStable: bool, deadline: int, store: LocalStore.FileStore,
                    files: seq<string>, u: Json, i: nat)
    returns (files': seq<string>, failure: Option<string>)
    modifies store
    ensures Progress(files', store.dir, failure)
      == Step(ShotCall(b, waitStable, deadline, store.basePath, store.join), files, old(store.dir), u, i)
  {
    files', failure := files, None;
    if !u.JString? {
      failure := Some("'urls' parameter must only contain strings");
      return;
    }
    var nav := b.navigate(u.s, deadline);
    if nav.Some? {
      failure := Some("failed to navigate to the page '" + u.s + "': " + nav.value);
      return;
    }
    var shot := b.capture(u.s, waitStable);
    if shot.Err? {
      failure := Some("failed to complete: " + shot.error);
      return;
    }
    var name := FileName(b, i);
    // The browser writes the PNG itself at Join(BasePath(), name).
    store.dir := store.dir[store.join(store.BasePath(), name) := shot.value];
    files' := files + [name];
  }

  /** `BotCheck.Run`: opens a page before anything else, closes it on every
      exit, and writes each capture into the store's directory. */
  method Run(params: Params, session: Session, store: LocalStore.FileStore, b: ShotBrowser)
    returns (r: Result<Params, string>)
    requires session.Valid()
    modifies session, store
    ensures session.Valid()
    ensures r == Shoot(params, b, store.basePath, store.join, old(store.dir)).0
    ensures store.dir == Shoot(params, b, store.basePath, store.join, old(store.dir)).1
    ensures session.open == old(session.open)
    ensures session.created == old(session.created) + (if b.newPage.None? then 1 else 0)
  {
    var page := session.OpenPage(b.newPage);
    if page.Err? {
      return Err("failed to create stealth page: " + page.error);
    }
    if "urls" !in params || !params["urls"].JArray? {
      session.ClosePage(page.value);
      return Err("'urls' parameter must be an array of string");
    }
    var urls := params["urls"].items;
    if |urls| == 0 {
      session.ClosePage(page.value);
      return Err("empty 'urls' parameter");
    }
    var waitStable := WaitStable(params);
    var deadline := Deadline(|urls|);
    ghost var call := ShotCall(b, waitStable, deadline, store.basePath, store.join);

    var files: seq<string> := [];
    var i := 0;
    while i < |urls|
      invariant 0 <= i <= |urls|
      invariant session.Valid() && session.open == old(session.open) + {page.value}
      invariant session.created == old(session.created) + 1
      invariant Capture(call, urls[..i], old(store.dir)) == Progress(files, store.dir, None)
    {
      assert urls[..i + 1][..i] == urls[..i];
      var failure;
      files, failure := CaptureOne(b, waitStable, deadline, store, files, urls[i], i);
      if failure.Some? {
        assert Capture(call, urls[..i + 1], old(store.dir)) == Progress(files, store.dir, failure);
        FailureSticks(call, urls, old(store.dir), i + 1);
        session.ClosePage(page.value);
        return Err(failure.value);
      }
      i := i + 1;
    }
    assert urls[..i] == urls;
    session.ClosePage(page.value);
    r := Ok(map["files" := JArray(JsonStrings(files))]);
  }
}
