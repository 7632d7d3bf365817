/** Values shared by every part of the model: JSON documents as the service
    decodes and encodes them, raw byte strings, and the two wrapper types
    used for Go's `nil` and `(value, error)` returns. */
module Values {

  /** `time.Second` and `time.Minute`: durations are integer nanoseconds. */
  const Second: int := 1_000_000_000
  const Minute: int := 60 * Second

  /** A byte string, as held by the file store and sent in GET responses. */
  type Bytes = seq<bv8>

  /** A decoded JSON value (Go's `any` after encoding/json). Numbers are
      carried, never computed with, so they are kept as reals. */
  datatype Json =
    | JNull
    | JBool(b: bool)
    | JNumber(n: real)
    | JString(s: string)
    | JArray(items: seq<Json>)
    | JObject(fields: map<string, Json>)

  /** The untyped parameter object a plugin receives (`map[string]any`). */
  type Params = map<string, Json>

  /** A possibly absent value: Go's `nil`. */
  datatype Option<T> = None | Some(value: T)

  /** A Go `(value, error)` pair in which exactly one side is meaningful. */
  datatype Result<T, E> = Ok(value: T) | Err(error: E)

  /** A list of strings as a JSON array's items, in order. */
  function JsonStrings(ss: seq<string>): (r: seq<Json>)
    ensures |r| == |ss| && forall i :: 0 <= i < |ss| ==> r[i] == JString(ss[i])
  {
    seq(|ss|, i requires 0 <= i < |ss| => JString(ss[i]))
  }
}
