/** The two middlewares of the manager: the request logger, which computes
    one log record per request after the downstream handlers have run, and
    the context middleware, which hands the file store to the file
    endpoints. The clock is a parameter (the elapsed time in nanoseconds)
    and the log sink is left out; the record is the result. */
module Middleware {
  import opened Values
  import opened Http

  /** Go's `/` on integers, which truncates toward zero. */
  function GoQuo(a: int, b: int): int
    requires b > 0
  {
    if a >= 0 then a / b else -((-a) / b)
  }

  /** Go's `%` on integers: the remainder of the quotient truncated toward
      zero, so it takes the sign of the dividend. */
  function GoRem(a: int, b: int): (r: int)
    requires b > 0
    ensures a == GoQuo(a, b) * b + r
    ensures a >= 0 ==> 0 <= r < b && r <= a
    ensures a < 0 ==> -b < r <= 0 && a <= r
  {
    if a >= 0 then RemainderAtMost(a, b); a % b
    else RemainderAtMost(-a, b); -((-a) % b)
  }

  /** Euclidean division of a non-negative number: a non-negative quotient,
      and a remainder no larger than the dividend. */
  lemma RemainderAtMost(a: int, b: int)
    requires a >= 0 && b > 0
    ensures a / b >= 0 && a % b <= a
  {
    if a / b > 0 {
      assert (a / b) * b >= b;
    }
  }

  /** `time.Duration.Truncate`: rounds `d` toward zero to a multiple of `m`;
      a non-positive `m` leaves `d` as it is. */
  function Truncate(d: int, m: int): (r: int)
    ensures m <= 0 ==> r == d
    ensures m > 0 ==> r == GoQuo(d, m) * m
    ensures m > 0 && d >= 0 ==> 0 <= r <= d < r + m
    ensures m > 0 && d < 0 ==> r - m < d <= r <= 0
  {
    if m <= 0 then d
    else
      assert d == GoQuo(d, m) * m + GoRem(d, m);
      d - GoRem(d, m)
  }

  /** The latency the logger reports: above one minute it is truncated to
      whole seconds, otherwise it is reported as measured. */
  function LoggedLatency(elapsed: int): (r: int)
    ensures elapsed <= Minute ==> r == elapsed
    ensures elapsed > Minute ==> r % Second == 0 && r <= elapsed < r + Second && r >= Minute
  {
    if elapsed > Minute then Truncate(elapsed, Second) else elapsed
  }

  /** Truncation to whole seconds lies between zero and `d` for a positive
      duration, and between `d` and zero for a negative one, always less
      than a second away. */
  lemma TruncateToSecondBounds(d: int)
    ensures Truncate(d, Second) % Second == 0
    ensures d >= 0 ==> 0 <= Truncate(d, Second) <= d < Truncate(d, Second) + Second
    ensures d < 0 ==> Truncate(d, Second) - Second < d <= Truncate(d, Second) <= 0
  {
  }

  /** Reporting is idempotent: a reported latency reports as itself. */
  lemma LoggedLatencyIdempotent(elapsed: int)
    ensures LoggedLatency(LoggedLatency(elapsed)) == LoggedLatency(elapsed)
  {
    if elapsed > Minute {
      var r := LoggedLatency(elapsed);
      assert GoRem(r, Second) == 0;
    }
  }

  /** The logged path: the request path, plus `?` and the raw query when
      there is one. */
  function LoggedPath(path: string, rawQuery: string): (p: string)
    ensures |p| == |path| + (if rawQuery == "" then 0 else 1 + |rawQuery|)
    ensures p[..|path|] == path
    ensures rawQuery == "" ==> p == path
    ensures rawQuery != "" ==> p[|path|] == '?' && p[|path| + 1..] == rawQuery
  {
    if rawQuery != "" then path + "?" + rawQuery else path
  }

  /** A query-free path and its raw query can be read back from the logged
      path whenever the path itself holds no `?`. */
  lemma LoggedPathRecovers(path: string, rawQuery: string, path': string, rawQuery': string)
    requires '?' !in path && '?' !in path'
    requires LoggedPath(path, rawQuery) == LoggedPath(path', rawQuery')
    ensures path == path' && rawQuery == rawQuery'
  {
  }

  datatype Level = Info | Error

  /** Error for server failures (status 500 and above), info otherwise. */
  function LevelFor(status: int): (l: Level)
    ensures l == Error <==> status >= StatusInternalServerError
  {
    if status >= 500 then Error else Info
  }

  /** What downstream handlers left behind: the response status and the
      private errors collected during the request, already rendered. */
  datatype Downstream = Downstream(status: int, privateErrors: string)

  /** One log record. `latency` is in nanoseconds; its text form is the
      library's `Duration.String`. */
  datatype Entry = Entry(level: Level, ip: string, verb: Method, status: int,
                         path: string, latency: int, message: string)

  /** `loggerMiddleware`: the record of a request, from the request as it
      arrived, the client address, what the handlers did, and the time the
      handlers took. */
  function LogEntry(req: Request, clientIp: string, after: Downstream, elapsed: int): (e: Entry)
    ensures e.status == after.status
    ensures e.level == Error <==> after.status >= StatusInternalServerError
    ensures e.message == after.privateErrors
    ensures e.verb == req.verb && e.ip == clientIp
    ensures e.path == LoggedPath(req.path, req.rawQuery)
    ensures e.latency == LoggedLatency(elapsed)
  {
    Entry(LevelFor(after.status), clientIp, req.verb, after.status,
          LoggedPath(req.path, req.rawQuery), LoggedLatency(elapsed), after.privateErrors)
  }

  /** The two requests of the logger's test: `/example?n=42` answered 200
      and `/notfound` answered 404, both logged at info level. */
  lemma LoggerExamples(ip: string, elapsed: int)
    ensures var e := LogEntry(Request(Get, "/example", "n=42", NoBody), ip, Downstream(200, ""), elapsed);
            e.path == "/example?n=42" && e.level == Info && e.status == 200
    ensures var e := LogEntry(Request(Get, "/notfound", "", NoBody), ip, Downstream(404, ""), elapsed);
            e.path == "/notfound" && e.level == Info && e.status == 404
  {
  }

  /** `helper.ContextFileStore`. */
  const ContextFileStore := "fileStore"

  /** `contextMiddleware`: the request context handed to the next handler,
      with the file store set under "fileStore" and every other key kept. */
  function InjectFileStore<V>(keys: map<string, V>, store: V): (k: map<string, V>)
    ensures ContextFileStore in k && k[ContextFileStore] == store
    ensures k.Keys == keys.Keys + {ContextFileStore}
    ensures forall x :: x in keys && x != ContextFileStore ==> k[x] == keys[x]
  {
    keys[ContextFileStore := store]
  }

  /** `c.MustGet(key)`: the value, or `None` where gin would panic. */
  function MustGet<V>(keys: map<string, V>, key: string): (r: Option<V>)
    ensures r.Some? <==> key in keys
    ensures r.Some? ==> r.value == keys[key]
  {
    if key in keys then Some(keys[key]) else None
  }

  /** Behind the context middleware, the handler's `MustGet` never panics
      and yields exactly the store that was injected. */
  lemma InjectedStoreIsFound<V>(keys: map<string, V>, store: V)
    ensures MustGet(InjectFileStore(keys, store), ContextFileStore) == Some(store)
  {
  }
}
