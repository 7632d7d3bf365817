/** HTTP vocabulary of the service: methods, status codes and the two kinds
    of response body it produces (a JSON document or raw bytes). */
module Http {
  import opened Values

  const StatusOK := 200
  const StatusBadRequest := 400
  const StatusNotFound := 404
  const StatusInternalServerError := 500

  /** The name of a method other than the three the service routes, so
      that each method has exactly one representation. */
  type OtherMethodName = s: string | s != "GET" && s != "POST" && s != "DELETE" witness "PATCH"

  datatype Method = Get | Post | Delete | OtherMethod(name: OtherMethodName)

  /** A request body as JSON binding sees it: absent, a well-formed JSON
      document, or text that is not JSON. */
  datatype RequestBody = NoBody | Decoded(doc: Json) | Malformed

  /** The parts of an incoming request the service looks at. The router
      has already split the URL into its path and its raw query. */
  datatype Request = Request(verb: Method, path: string, rawQuery: string, body: RequestBody)

  /** A response as the router writes it: `c.JSON(status, body)`,
      `c.Data(status, contentType, data)`, the router's own plain-text
      answer, or a status with no body (`c.AbortWithStatus`). */
  datatype Response =
    | JsonResponse(status: int, body: Json)
    | DataResponse(status: int, contentType: string, data: Bytes)
    | TextResponse(status: int, text: string)
    | EmptyResponse(status: int)

  /** `helper.HTTPMessage{Message: m}`, i.e. `{"message": m}`. */
  function MessageBody(m: string): Json
  {
    JObject(map["message" := JString(m)])
  }

  /** `gin.H{"error": m}`, the body the file endpoints use for failures. */
  function ErrorBody(m: string): Json
  {
    JObject(map["error" := JString(m)])
  }
}
