# Caching proxy — a Dafny model of the request-handling and caching pipeline

`caching-proxy.js` is a forward HTTP proxy for one fixed origin. It keeps a
process-wide store from cache key (`METHOD:path`) to the origin's captured
headers and body. It fills the store from `cache.json` at start-up and
rewrites the whole file after every successful miss. Each reply is tagged
with `X-Cache: HIT` or `X-Cache: MISS`. The `clear-cache` command empties the
store and deletes the file.

The model has five modules:

- `Wrappers` (`wrappers.dfy`): `Option`, for values that may be `undefined`.
- `CacheStore` (`cache_store.dfy`): the store as a class `Cache`. The field
  `entries` is the in-memory map. The ghost field `file` is the state of
  `cache.json`: `NoFile`, `Image(store)` (the text of a whole store), or
  `Damaged` (emptied or cut short by a write that failed after the file was
  opened, which truncates it). `Load`, `Save` and `Clear` model `loadCache`,
  `saveCache` and `clearCache`. The results of reading, parsing and writing
  the file are inputs: `LoadOutcome` is `Absent | ParseError | Parsed(image)`,
  and `SaveOutcome` is `SaveOk | FailBeforeWrite | FailDuringWrite`. A load
  outcome must fit the file (`CanLoad`): `Absent` exactly when there is no
  file, and `ParseError` for a damaged one.
- `Proxy` (`proxy.dfy`): the request handler.
  - Pure parts, as functions: the key, the header merge, the status
    default, the origin port default and the outbound request options.
  - `Concat`: the in-order join of the body chunks.
  - `AccumulateBody`: the `body += chunk` loop, proved equal to `Concat`.
  - `Handle`: the specification of one request, from
    (store, origin, request, origin outcome) to (reply, new store, request
    sent to the origin, whether the store was flushed).
  - `HandleRequest`: the handler itself. It mutates a shared `Cache` and is
    proved to follow `Handle`.
  - Lemmas: the properties of one request and of request sequences.
- `Cli` (`cli.dfy`): the `start` defaults. The port is `argv.port || 3000`.
  An origin is required, and without one the process exits with code 1.
- `Scenarios` (`scenarios.dfy`): client methods that run short request
  sequences using only the contracts above: `GET /foo` misses and then hits;
  a refused connection is retried; a failed write keeps the entry in memory
  but damages the file, so a restarted server misses; a failed open keeps
  the file; after a clear the request misses again; a restart serves from
  the file.

Three behaviours of the code worth knowing:

- The indicator merge `{...headers, 'X-Cache': v}` overrides only the exact
  name `X-Cache`. An origin header whose name differs from `X-Cache` only in
  case (for example `x-cache`) passes through beside it, with the origin's
  value. `IndicatorNameIsExact` states this.
- A hit always replies 200, because the store holds no status code. A 404
  that was cached is replayed as 200 (`RestartServesFromFile`).
- The origin port falls back to 80 whenever the parsed URL reports no port.
  The URL parser also reports no port for a scheme's default, so an origin
  such as `https://h` or `https://h:443` is contacted on port 80
  (`OriginPort`).

## Model

| member | source | states |
|---|---|---|
| `CacheStore.Cache.constructor` | caching-proxy.js:6-7 | the process starts with an empty store, whatever the file holds |
| `CacheStore.Cache.Load` | caching-proxy.js:10-20 | a parsed file replaces the whole store; a missing file, or one that cannot be read or parsed (a damaged file always), leaves the store as it was; the file is untouched |
| `CacheStore.Cache.Save` | caching-proxy.js:23-30 | the in-memory store never changes; on success the file holds the store; a failure before the file is opened leaves the file as it was, a failure while writing leaves it damaged |
| `CacheStore.Cache.Clear` | caching-proxy.js:33-40 | afterwards the store is empty and there is no file, whatever the state before, so a second clear gives the same state |
| `Proxy.CacheKey` | caching-proxy.js:68-69 | the key is the method, then one colon, then the path: its prefix is the method, the next character is `:`, and the rest is the path |
| `Proxy.KeyInjective` | caching-proxy.js:69 | for methods without a colon (every HTTP method token), equal keys mean equal method and equal path |
| `Proxy.SameKeySameTreatment` | caching-proxy.js:68-71 | two requests with the same method and path get the same reply and the same new store, whatever their headers and bodies |
| `Proxy.WithIndicator` | caching-proxy.js:74-77 | the merged headers map `X-Cache` to the given value; every other name keeps its value; no name is added except `X-Cache` and none is dropped |
| `Proxy.IndicatorNameIsExact` | caching-proxy.js:101-104 | names are compared exactly: an origin `x-cache` header survives unchanged next to `X-Cache` |
| `Proxy.StatusOrDefault` | caching-proxy.js:101 | the reply status is never absent: the origin's status when present (non-zero), otherwise 200 |
| `Proxy.OriginPort` | caching-proxy.js:83 | the outbound port is the port `new URL` reports (any port other than the scheme's default, even 0), and 80 when it reports none, that is when the URL gives no port or gives its scheme's default |
| `Proxy.Forward` | caching-proxy.js:81-87 | the outbound request goes to the origin's host and port and carries the client's method, path, headers and body verbatim |
| `Proxy.ConcatSnoc` | caching-proxy.js:91-93 | one more `data` chunk appends exactly its text to the body |
| `Proxy.ConcatAppend` | caching-proxy.js:90-93 | joining a sequence of text chunks distributes over any split of that sequence: the body is the join of the first part followed by the join of the rest |
| `Proxy.ConcatContainsChunk` | caching-proxy.js:90-93 | every chunk appears in the body at the offset just after the chunks before it |
| `Proxy.AccumulateBody` | caching-proxy.js:90-93 | the `body += chunk` loop yields the in-order concatenation of all chunks |
| `Proxy.HandleRequest` | caching-proxy.js:67-116 | reply, outbound request and new store are those of the specification `Handle`; the file changes only on a successful miss (to the whole new store, or damaged when the write fails midway), and a failed save is not rolled back |
| `Proxy.HitServesStored` | caching-proxy.js:71-78 | on a hit: status 200, stored body, stored headers with `X-Cache` set to `HIT` and nothing else changed; store unchanged, origin not consulted, nothing flushed |
| `Proxy.MissStoresCapture` | caching-proxy.js:89-100 | after a successful miss the key maps to the origin headers and the in-order body, every other key keeps its entry, one request went to the origin and the store is flushed |
| `Proxy.MissReplies` | caching-proxy.js:101-105 | a successful miss replies with the origin status or 200, exactly the origin headers plus `X-Cache` (set to `MISS`, every other value kept, nothing else added), and the body just stored |
| `Proxy.ErrorIsNotCached` | caching-proxy.js:109-113 | a forwarding error replies 500 `Internal Server Error` with no headers, leaves the store unchanged and flushes nothing, so the identical request right after is forwarded again |
| `Proxy.IndicatorTellsSource` | caching-proxy.js:71-113 | the reply says `HIT` exactly when the origin was not consulted; the store changes exactly when it is flushed, and then by exactly one new key |
| `Proxy.MissThenHit` | caching-proxy.js:71-105 | after a successful miss, any request with the same method and path is a hit: status 200, the captured body, the captured headers with `HIT`, no origin call |
| `Proxy.HitIsRepeatable` | caching-proxy.js:71-78 | a hit leaves the state as it was, so repeating it gives the same reply and state |
| `Cli.ListenPort` | caching-proxy.js:57 | the listening port is the given one unless it is absent or 0, in which case it is 3000 |
| `Cli.Start` | caching-proxy.js:56-63 | `start` exits with code 1 exactly when the origin is missing or empty; otherwise it listens on the default-resolved port for the given origin |

## Left out

- The HTTP server and client are not modelled: `http.createServer`, `http.request`, `req.pipe`, `server.listen` and the event callbacks. What the origin answers is an input (`OriginOutcome`), and what is sent to it is an output (`OutboundRequest`).
- File-system calls are not modelled. Their results are the `LoadOutcome` and `SaveOutcome` inputs, and the file is the ghost `file`. Whether the file exists decides between `Absent` and the other outcomes, and a damaged file gives `ParseError`. For an intact image the outcome may still be `ParseError` (a read error) or `Parsed` of any store, because parsing is opaque (next line).
- `JSON.parse` and `JSON.stringify` are opaque. The save/load round trip is therefore a hypothesis of `RestartServesFromFile`, not a proved property. A parsed file whose values are not `{headers, body}` objects is outside the model, which takes a typed map.
- The hit test `if (cache[cacheKey])` is modelled as key membership. Every stored value is an object, and objects are truthy.
- `url.parse` and `new URL` are not modelled. The request path and the origin's host name and port are given. A malformed origin URL makes `new URL` throw inside the handler on a miss, and that is not modelled.
- Converting buffer chunks to text is not modelled. Chunks are strings already. In the program each chunk is decoded as UTF-8 on its own, so a multi-byte character split across two chunks becomes replacement characters, and the body does depend on where the chunks break. The model's body is the join of the decoded chunks as given.
- Command dispatch, `yargs` and `process.exit` are not modelled, except for the `start` defaults in `Cli`. A non-numeric `--port` (NaN, which is falsy) is modelled as an absent port.
- `CacheStore.Cache.Clear`: does not model a failure of `unlinkSync`. That failure is an uncaught exception that ends the one-shot process.
- Logging (`console.log`, `console.error`) is not modelled.
- Only an origin exchange that completes (`Ok`: the response's `end` event fires) or a request error that fires (`Error`) is modelled. An origin that never answers (there is no timeout) or that closes before the declared body length (neither `end` nor `error` fires) leaves the client without a reply and stores nothing; the model has no outcome for that.
- Concurrent in-flight requests are not modelled (last writer wins on the shared store). The model handles one request at a time.
- How `res.writeHead` sends two header names that differ only in case is Node's behaviour, not part of this model.
