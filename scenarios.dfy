/**
 * Clients of the handler that run short request sequences against a
 * `Cache`, using only the contracts of `Cache` and `HandleRequest`.
 */
module Scenarios {
  import opened Wrappers
  import opened CacheStore
  import opened Proxy

  /** `GET /foo` against `http://example.test:8080`: a miss that stores and flushes, then a hit that consults nobody. */
  method GetFooTwice() {
    var origin := OriginUrl("example.test", Some(8080));
    var cache := new Cache(NoFile);
    var req := Request("GET", "/foo", map[], "");
    var answer := Ok(200, map["content-type" := "text/plain"], ["bar"]);
    assert Concat(["bar"]) == "bar";

    var resp, sent := HandleRequest(cache, origin, req, answer, SaveOk);
    assert resp.status == 200 && resp.body == "bar";
    assert resp.headers[IndicatorHeader] == "MISS";
    assert sent == Some(OutboundRequest("example.test", 8080, "/foo", "GET", map[], ""));
    assert CacheKey("GET", "/foo") == "GET:/foo";
    assert "GET:/foo" in cache.file.store;

    resp, sent := HandleRequest(cache, origin, req, Error, SaveOk);
    assert resp.status == 200 && resp.body == "bar";
    assert resp.headers[IndicatorHeader] == "HIT";
    assert sent == None;
  }

  /** A refused connection for `GET /bar` is answered 500 and not stored, so the next identical request is forwarded again. */
  method RefusedIsRetried() {
    var origin := OriginUrl("example.test", None);
    var cache := new Cache(NoFile);
    var req := Request("GET", "/bar", map[], "");

    var resp, sent := HandleRequest(cache, origin, req, Error, SaveOk);
    assert resp == Response(500, map[], "Internal Server Error");
    assert cache.entries == map[] && cache.file == NoFile;

    resp, sent := HandleRequest(cache, origin, req, Error, SaveOk);
    assert sent.Some? && sent.value.port == 80;
  }

  /**
   * A save that fails while writing keeps the new entry in memory, so the
   * next request is still a hit, but it leaves the file damaged: a server
   * started afterwards cannot parse it, starts empty, and misses.
   */
  method FailedWriteIsNotRolledBack(ghost image: FileImage) {
    var origin := OriginUrl("example.test", None);
    var cache := new Cache(image);
    var req := Request("GET", "/baz", map[], "");

    var resp, sent := HandleRequest(cache, origin, req, Ok(0, map[], []), FailDuringWrite);
    assert resp.status == 200 && cache.file == Damaged;

    resp, sent := HandleRequest(cache, origin, req, Error, SaveOk);
    assert sent == None && resp.headers[IndicatorHeader] == "HIT";

    var restarted := new Cache(cache.file);
    restarted.Load(ParseError);
    resp, sent := HandleRequest(restarted, origin, req, Error, SaveOk);
    assert sent.Some? && resp.status == 500;
  }

  /** A save that fails before the file is opened leaves the file as it was. */
  method FailedOpenKeepsFile(stored: CachedResponse) {
    var before := Image(map["GET:/old" := stored]);
    var cache := new Cache(before);
    var resp, sent := HandleRequest(cache, OriginUrl("example.test", None), Request("GET", "/new", map[], ""),
                                    Ok(201, map[], ["x"]), FailBeforeWrite);
    assert resp.status == 201 && cache.file == before;
  }

  /** After `clear-cache` there is no file, so a server started afterwards starts empty and a previously cached request misses. */
  method ClearThenRestart(stored: CachedResponse) {
    var cache := new Cache(Image(map["GET:/foo" := stored]));
    cache.Clear();
    assert cache.file == NoFile;
    cache.Clear();
    assert cache.entries == map[] && cache.file == NoFile;

    var server := new Cache(cache.file);
    server.Load(Absent);  // the only outcome a missing file allows
    var resp, sent := HandleRequest(server, OriginUrl("example.test", None), Request("GET", "/foo", map[], ""), Error, SaveOk);
    assert sent.Some? && resp.status == 500;
  }

  /** A restart whose load parses the flushed image serves the earlier miss as a hit, with status 200 rather than the origin's 404. */
  method RestartServesFromFile() {
    var origin := OriginUrl("example.test", None);
    var first := new Cache(NoFile);
    var req := Request("GET", "/foo", map[], "");
    var resp, sent := HandleRequest(first, origin, req, Ok(404, map[], ["gone"]), SaveOk);
    assert resp.status == 404;

    var second := new Cache(first.file);
    assert second.file == Image(first.entries);
    second.Load(Parsed(first.entries));  // the parser gives back what was written
    resp, sent := HandleRequest(second, origin, req, Error, SaveOk);
    assert sent == None;
    assert resp.status == 200;  // the status is not stored, so the replay says 200
  }
}
