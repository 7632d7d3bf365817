/** The file endpoints `GET /api/v1/files/:filename` and
    `DELETE /api/v1/files/:filename` (package `manager/fs`): each passes
    the route's filename unchanged to the store and turns the store's
    answer into one response. Content-type sniffing is the library's
    `http.DetectContentType`, kept as the parameter `sniff`. */
module FileEndpoints {
  import opened Values
  import opened Http
  import opened Store
  import LocalStore

  const NotFoundResponse := JsonResponse(StatusNotFound, ErrorBody("file not found"))
  const InternalErrorResponse := JsonResponse(StatusInternalServerError, ErrorBody("internal server error"))

  /** `fs.Get`. */
  function Get(filename: string, store: StoreView, sniff: Bytes -> string): (r: Response)
    ensures r.status == StatusOK <==> store.getObject(filename).Ok?
    ensures r.status == StatusOK ==>
      r == DataResponse(StatusOK, sniff(store.getObject(filename).value), store.getObject(filename).value)
    ensures r.status == StatusNotFound <==> store.getObject(filename) == Err(FileNotFound)
    ensures r.status == StatusNotFound ==> r == NotFoundResponse
    ensures r.status != StatusOK && r.status != StatusNotFound ==> r == InternalErrorResponse
  {
    match store.getObject(filename)
    case Err(FileNotFound) => NotFoundResponse
    case Err(OtherError(_)) => InternalErrorResponse
    case Ok(data) => DataResponse(StatusOK, sniff(data), data)
  }

  /** `fs.Delete`. */
  function Delete(filename: string, store: StoreView): (r: Response)
    ensures r.status == StatusOK <==> store.deleteObject(filename).Ok?
    ensures r.status == StatusOK ==> r == JsonResponse(StatusOK, MessageBody("file deleted"))
    ensures r.status == StatusNotFound <==> store.deleteObject(filename) == Err(FileNotFound)
    ensures r.status == StatusNotFound ==> r == NotFoundResponse
    ensures r.status != StatusOK && r.status != StatusNotFound ==> r == InternalErrorResponse
  {
    match store.deleteObject(filename)
    case Err(FileNotFound) => NotFoundResponse
    case Err(OtherError(_)) => InternalErrorResponse
    case Ok(_) => JsonResponse(StatusOK, MessageBody("file deleted"))
  }

  /** Against the local store: a file put under `filename` is served back
      by GET with status 200 and exactly the stored bytes. */
  lemma GetAfterPut(dir: LocalStore.Directory, basePath: string, join: (string, string) -> string,
                    filename: string, b: Bytes, sniff: Bytes -> string)
    ensures Get(filename, LocalStore.ViewOf(dir[join(basePath, filename) := b], basePath, join), sniff)
            == DataResponse(StatusOK, sniff(b), b)
  {
    LocalStore.PutThenGet(dir, join(basePath, filename), b);
  }

  /** Against the local store: DELETE on a key consumes it, so the
      following GET and a repeated DELETE both answer 404. */
  lemma DeleteThenGetAndDelete(dir: LocalStore.Directory, basePath: string, join: (string, string) -> string,
                               filename: string, sniff: Bytes -> string)
    ensures var after := LocalStore.Unlink(dir, join(basePath, filename)).0;
            && Get(filename, LocalStore.ViewOf(after, basePath, join), sniff) == NotFoundResponse
            && Delete(filename, LocalStore.ViewOf(after, basePath, join)) == NotFoundResponse
  {
    LocalStore.DeleteTwice(dir, join(basePath, filename));
  }

  /** Against the local store: DELETE answers 200 exactly when the file is
      there, and 404 otherwise; never 500. */
  lemma DeleteStatus(dir: LocalStore.Directory, basePath: string, join: (string, string) -> string,
                     filename: string)
    ensures var r := Delete(filename, LocalStore.ViewOf(dir, basePath, join));
            && (r.status == StatusOK <==> join(basePath, filename) in dir)
            && (r.status != StatusOK ==> r == NotFoundResponse)
  {
  }
}
