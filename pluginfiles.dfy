/** Files written by a plugin and served by the file endpoints: the
    screenshot plugin writes each capture below the local store's base
    path, and `GET /api/v1/files/:filename` reads it back through the same
    store. */
module PluginFiles {
  import opened Values
  import opened Http
  import opened Screenshot
  import LocalStore
  import FileEndpoints

  /** After a successful screenshot call, GET on the i-th file name the
      answer lists serves exactly the bytes captured for the i-th URL,
      provided the call's file paths are pairwise distinct (a repeated
      random name would make a later capture overwrite an earlier one). */
  lemma ShotThenGet(params: Params, b: ShotBrowser, basePath: string, join: (string, string) -> string,
                    dir: LocalStore.Directory, sniff: Bytes -> string, i: nat)
    requires Shoot(params, b, basePath, join, dir).0.Ok?
    requires "urls" in params && params["urls"].JArray? && i < |params["urls"].items|
    requires forall x, y :: 0 <= x < y < |params["urls"].items| ==>
               join(basePath, FileName(b, x)) != join(basePath, FileName(b, y))
    ensures var urls := params["urls"].items;
            var out := Shoot(params, b, basePath, join, dir).0.value;
            && urls[i].JString? && b.capture(urls[i].s, WaitStable(params)).Ok?
            && out["files"].JArray? && |out["files"].items| == |urls|
            && out["files"].items[i] == JString(FileName(b, i))
            && FileEndpoints.Get(FileName(b, i), LocalStore.ViewOf(Shoot(params, b, basePath, join, dir).1, basePath, join), sniff)
               == DataResponse(StatusOK, sniff(b.capture(urls[i].s, WaitStable(params)).value),
                               b.capture(urls[i].s, WaitStable(params)).value)
  {
    var urls := params["urls"].items;
    SuccessOutput(params, b, basePath, join, dir);
    CapturedContents(ShotCall(b, WaitStable(params), Deadline(|urls|), basePath, join), urls, dir);
  }
}
