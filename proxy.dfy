/**
 * The per-request handler of the caching proxy (the callback given to
 * `http.createServer` in caching-proxy.js).
 *
 * The network is not modelled: what the origin answers is an input
 * (`OriginOutcome`), what the proxy sends to the origin is an output
 * (`OutboundRequest`), and the reply to the client is a `Response` value.
 * `Handle` is the specification of one request; `HandleRequest` is the
 * handler itself, which mutates the shared `Cache`.
 */
module Proxy {
  import opened Wrappers
  import opened CacheStore

  /** The response header that tells the client whether the store answered. */
  const IndicatorHeader := "X-Cache"

  /** An incoming request; `path` is the path and query of its URL. */
  datatype Request = Request(httpMethod: string, path: string, headers: Headers, body: string)

  /**
   * The origin URL after parsing: its host name, and the port `new URL`
   * reports for it. That port is `None` when the URL gives no port or gives
   * its scheme's default (80 for `http:`, 443 for `https:`).
   */
  datatype OriginUrl = OriginUrl(hostname: string, port: Option<nat>)

  /** What the origin does with a forwarded request. `status` 0 means the origin gave none. */
  datatype OriginOutcome =
    | Error
    | Ok(status: int, headers: Headers, chunks: seq<string>)

  /** The request the proxy opens towards the origin. */
  datatype OutboundRequest =
    OutboundRequest(hostname: string, port: nat, path: string, httpMethod: string, headers: Headers, body: string)

  /** The reply written to the client. */
  datatype Response = Response(status: int, headers: Headers, body: string)

  /** The outcome of handling one request: the reply, the new store, the request sent to the origin (if any), and whether the store was flushed to the file. */
  datatype Step = Step(response: Response, store: Store, forwarded: Option<OutboundRequest>, flushed: bool)

  /** The cache key: method, a colon, then path. Headers and body play no part. */
  function CacheKey(httpMethod: string, path: string): (key: string)
    ensures |key| == |httpMethod| + 1 + |path|
    ensures key[..|httpMethod|] == httpMethod && key[|httpMethod|] == ':' && key[|httpMethod| + 1..] == path
  {
    httpMethod + ":" + path
  }

  /** An HTTP method is a token, which never contains a colon; for such methods the key determines the request's method and path. */
  lemma KeyInjective(m1: string, p1: string, m2: string, p2: string)
    requires ':' !in m1 && ':' !in m2
    requires CacheKey(m1, p1) == CacheKey(m2, p2)
    ensures m1 == m2 && p1 == p2
  {
  }

  /**
   * The header merge `{...h, 'X-Cache': v}`: the indicator is set to `v`,
   * every other name keeps its value, and no name is added or dropped.
   * Only the exact name "X-Cache" is overridden.
   */
  function WithIndicator(h: Headers, v: string): (r: Headers)
    ensures IndicatorHeader in r && r[IndicatorHeader] == v
    ensures r.Keys == h.Keys + {IndicatorHeader}
    ensures forall n :: n in h && n != IndicatorHeader ==> r[n] == h[n]
  {
    h[IndicatorHeader := v]
  }

  /** `statusCode || 200`: an absent status (0) becomes 200, any other is kept. */
  function StatusOrDefault(status: int): (r: int)
    ensures r != 0
    ensures status != 0 ==> r == status
    ensures status == 0 ==> r == 200
  {
    if status == 0 then 200 else status
  }

  /**
   * `new URL(origin).port || 80`: when the reported port is empty (no port,
   * or the scheme's default port) 80 is used; any other port, even "0", is
   * kept.
   */
  function OriginPort(urlPort: Option<nat>): (r: nat)
    ensures urlPort.None? ==> r == 80
    ensures urlPort.Some? ==> r == urlPort.value
  {
    match urlPort
    case None => 80
    case Some(p) => p
  }

  /** The options of the outbound request: the origin's host and port, the client's method, path, headers and (piped) body. */
  function Forward(origin: OriginUrl, req: Request): (out: OutboundRequest)
    ensures out.hostname == origin.hostname && out.port == OriginPort(origin.port)
    ensures out.httpMethod == req.httpMethod && out.path == req.path
    ensures out.headers == req.headers && out.body == req.body
  {
    OutboundRequest(origin.hostname, OriginPort(origin.port), req.path, req.httpMethod, req.headers, req.body)
  }

  /** The response body received in chunks, joined in order. */
  function Concat(chunks: seq<string>): (body: string)
  {
    if chunks == [] then "" else chunks[0] + Concat(chunks[1..])
  }

  /** Appending one more chunk appends its text to the body. */
  lemma {:induction false} ConcatSnoc(chunks: seq<string>, c: string)
    ensures Concat(chunks + [c]) == Concat(chunks) + c
  {
    if chunks != [] {
      assert (chunks + [c])[1..] == chunks[1..] + [c];
      ConcatSnoc(chunks[1..], c);
    }
  }

  /** How the body is split into chunks does not matter, only their order. */
  lemma {:induction false} ConcatAppend(a: seq<string>, b: seq<string>)
    ensures Concat(a + b) == Concat(a) + Concat(b)
  {
    if a != [] {
      assert (a + b)[1..] == a[1..] + b;
      ConcatAppend(a[1..], b);
    } else {
      assert a + b == b;
    }
  }

  /** Every chunk appears in the body, right after the text of the chunks before it. */
  lemma {:induction false} ConcatContainsChunk(chunks: seq<string>, i: nat)
    requires i < |chunks|
    ensures var pre := Concat(chunks[..i]);
            |pre| + |chunks[i]| <= |Concat(chunks)| &&
            Concat(chunks)[|pre|..|pre| + |chunks[i]|] == chunks[i]
  {
    assert chunks == chunks[..i] + ([chunks[i]] + chunks[i + 1..]);
    ConcatAppend(chunks[..i], [chunks[i]] + chunks[i + 1..]);
    assert ([chunks[i]] + chunks[i + 1..])[1..] == chunks[i + 1..];
  }

  /** The `data` events: `body += chunk` for each chunk, in the order received. */
  method AccumulateBody(chunks: seq<string>) returns (body: string)
    ensures body == Concat(chunks)
  {
    body := "";
    var i := 0;
    while i < |chunks|
      invariant 0 <= i <= |chunks|
      invariant body == Concat(chunks[..i])
    {
      assert chunks[..i + 1] == chunks[..i] + [chunks[i]];
      ConcatSnoc(chunks[..i], chunks[i]);
      body := body + chunks[i];
      i := i + 1;
    }
    assert chunks[..i] == chunks;
  }

  /** The body of the reply to a failed forward. */
  const InternalError := "Internal Server Error"

  /**
   * One request, from the store before to the reply and the store after.
   * A hit replies 200 from the store and consults nobody; a miss forwards,
   * and then either stores and replies with the origin's answer or replies
   * 500 and stores nothing.
   */
  function Handle(store: Store, origin: OriginUrl, req: Request, outcome: OriginOutcome): (s: Step)
  {
    var key := CacheKey(req.httpMethod, req.path);
    if key in store then
      Step(Response(200, WithIndicator(store[key].headers, "HIT"), store[key].body), store, None, false)
    else
      var out := Some(Forward(origin, req));
      match outcome
      case Error =>
        Step(Response(500, map[], InternalError), store, out, false)
      case Ok(status, headers, chunks) =>
        var body := Concat(chunks);
        Step(Response(StatusOrDefault(status), WithIndicator(headers, "MISS"), body),
             store[key := CachedResponse(headers, body)], out, true)
  }

  /**
   * The handler over the shared store. On a successful miss it inserts the
   * captured response, flushes the whole store, and only then replies; a
   * failed flush is not rolled back, even when it leaves the file damaged.
   */
  method HandleRequest(cache: Cache, origin: OriginUrl, req: Request, outcome: OriginOutcome, save: SaveOutcome)
    returns (resp: Response, forwarded: Option<OutboundRequest>)
    modifies cache
    ensures var s := Handle(old(cache.entries), origin, req, outcome);
      && resp == s.response && forwarded == s.forwarded && cache.entries == s.store
      && (s.flushed && save == SaveOk ==> cache.file == Image(cache.entries))
      && (s.flushed && save == FailDuringWrite ==> cache.file == Damaged)
      && (!s.flushed || save == FailBeforeWrite ==> cache.file == old(cache.file))
  {
    var key := CacheKey(req.httpMethod, req.path);
    if key in cache.entries {
      var cached := cache.entries[key];
      resp := Response(200, WithIndicator(cached.headers, "HIT"), cached.body);
      forwarded := None;
    } else {
      forwarded := Some(Forward(origin, req));
      match outcome
      case Error =>
        resp := Response(500, map[], InternalError);
      case Ok(status, headers, chunks) =>
        var body := AccumulateBody(chunks);
        cache.entries := cache.entries[key := CachedResponse(headers, body)];
        cache.Save(save);
        resp := Response(StatusOrDefault(status), WithIndicator(headers, "MISS"), body);
    }
  }

  // ---------------------------------------------------------------------
  // Properties of one request

  /** Requests that differ only in headers or body are handled alike. */
  lemma SameKeySameTreatment(store: Store, origin: OriginUrl, r1: Request, r2: Request, outcome: OriginOutcome)
    requires r1.httpMethod == r2.httpMethod && r1.path == r2.path
    ensures Handle(store, origin, r1, outcome).response == Handle(store, origin, r2, outcome).response
    ensures Handle(store, origin, r1, outcome).store == Handle(store, origin, r2, outcome).store
  {
  }

  /** A hit: 200 whatever the origin first said, the stored headers with the indicator set to HIT, the stored body; nothing stored, nothing forwarded, nothing flushed. */
  lemma HitServesStored(store: Store, origin: OriginUrl, req: Request, outcome: OriginOutcome)
    requires CacheKey(req.httpMethod, req.path) in store
    ensures var s := Handle(store, origin, req, outcome);
            var c := store[CacheKey(req.httpMethod, req.path)];
            && s.store == store && s.forwarded == None && !s.flushed
            && s.response.status == 200
            && s.response.body == c.body
            && s.response.headers[IndicatorHeader] == "HIT"
            && s.response.headers.Keys == c.headers.Keys + {IndicatorHeader}
            && forall n :: n in c.headers && n != IndicatorHeader ==> s.response.headers[n] == c.headers[n]
  {
  }

  /** A successful miss stores the origin's headers and the in-order body under the key, leaves every other key alone, and flushes. */
  lemma MissStoresCapture(store: Store, origin: OriginUrl, req: Request, status: int, headers: Headers, chunks: seq<string>)
    requires CacheKey(req.httpMethod, req.path) !in store
    ensures var s := Handle(store, origin, req, Ok(status, headers, chunks));
            var key := CacheKey(req.httpMethod, req.path);
            && s.flushed && s.forwarded == Some(Forward(origin, req))
            && s.store.Keys == store.Keys + {key}
            && s.store[key] == CachedResponse(headers, Concat(chunks))
            && forall k :: k in store ==> s.store[k] == store[k]
  {
  }

  /** A successful miss replies with the origin's status (200 when absent), the origin's headers with the indicator set to MISS, and the body just stored. */
  lemma MissReplies(store: Store, origin: OriginUrl, req: Request, status: int, headers: Headers, chunks: seq<string>)
    requires CacheKey(req.httpMethod, req.path) !in store
    ensures var s := Handle(store, origin, req, Ok(status, headers, chunks));
            && s.response.status == (if status != 0 then status else 200)
            && s.response.headers[IndicatorHeader] == "MISS"
            && s.response.headers.Keys == headers.Keys + {IndicatorHeader}
            && (forall n :: n in headers && n != IndicatorHeader ==> s.response.headers[n] == headers[n])
            && s.response.body == s.store[CacheKey(req.httpMethod, req.path)].body
  {
  }

  /** A forwarding error: 500 with the generic body and no headers, the store unchanged, nothing flushed; so the same request right after is again a miss and is forwarded again. */
  lemma ErrorIsNotCached(store: Store, origin: OriginUrl, req: Request, next: OriginOutcome)
    requires CacheKey(req.httpMethod, req.path) !in store
    ensures var s := Handle(store, origin, req, Error);
            && s.response == Response(500, map[], InternalError)
            && s.store == store && !s.flushed && s.forwarded.Some?
            && Handle(s.store, origin, req, next).forwarded == Some(Forward(origin, req))
  {
  }

  /** The reply carries the indicator HIT exactly when the origin was not consulted, and the store changes exactly when it is flushed. */
  lemma IndicatorTellsSource(store: Store, origin: OriginUrl, req: Request, outcome: OriginOutcome)
    ensures var s := Handle(store, origin, req, outcome);
            && (s.forwarded.None? <==> (IndicatorHeader in s.response.headers && s.response.headers[IndicatorHeader] == "HIT"))
            && (s.flushed <==> s.store != store)
            && (s.flushed ==> s.store.Keys == store.Keys + {CacheKey(req.httpMethod, req.path)} && |s.store| == |store| + 1)
  {
  }

  /** Names are exact strings: an origin header that differs from the indicator only in case passes through beside it. */
  lemma IndicatorNameIsExact(h: Headers, v: string)
    requires "x-cache" in h
    ensures var r := WithIndicator(h, v);
            "x-cache" in r && r["x-cache"] == h["x-cache"] && r[IndicatorHeader] == v
  {
  }

  // ---------------------------------------------------------------------
  // Properties of request sequences

  /** A successful miss followed by any request with the same method and path: a hit serving what the first captured, as status 200, without consulting the origin. */
  lemma MissThenHit(store: Store, origin: OriginUrl, r1: Request, status: int, headers: Headers, chunks: seq<string>,
                    r2: Request, later: OriginOutcome)
    requires CacheKey(r1.httpMethod, r1.path) !in store
    requires r2.httpMethod == r1.httpMethod && r2.path == r1.path
    ensures var s1 := Handle(store, origin, r1, Ok(status, headers, chunks));
            var s2 := Handle(s1.store, origin, r2, later);
            && s2.forwarded == None && s2.store == s1.store
            && s2.response.status == 200
            && s2.response.body == s1.response.body
            && s2.response.headers == WithIndicator(headers, "HIT")
  {
  }

  /** A hit changes nothing, so repeating it gives the same reply. */
  lemma HitIsRepeatable(store: Store, origin: OriginUrl, req: Request, o1: OriginOutcome, o2: OriginOutcome)
    requires CacheKey(req.httpMethod, req.path) in store
    ensures var s1 := Handle(store, origin, req, o1);
            Handle(s1.store, origin, req, o2) == s1
  {
  }
}
