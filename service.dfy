/**
 * The service package: `proxySuccessOrError`, which classifies what the
 * upstream registry answered, and `cacheOrProxy`, which serves one request
 * from the cache or from upstream. Upstream is a function from the request
 * sent to what came back; the client's `http.ResponseWriter`, the log that
 * manifests are echoed to, the cache and the two Prometheus counters are
 * state.
 */
module Service {
  import opened Wrappers
  import opened Model
  import opened Streams
  import opened Headers
  import Cache
  import Strconv

  const HeaderProxiedBy := "X-Proxied-By"
  const HeaderProxiedFor := "X-Proxied-For"
  const HeaderProxyDate := "X-Proxy-Date"

  /** An outbound request: method, URL and header. */
  datatype Request = Request(verb: string, url: string, header: Header)

  /** An upstream response: status, header, and the answers its body's reads give. */
  datatype Response = Response(statusCode: int, header: Header, body: seq<ReadStep>)

  /** What `client.Do` gives: a transport failure (no response at all) or a response. */
  datatype Fetch = TransportFailure(reason: string) | Responded(response: Response)

  /** The two errors `proxySuccessOrError` can return. */
  datatype ProxyError = Transport(reason: string) | Non200Error(code: int)

  /** `proxySuccessOrError`'s pair of results: a response or nil, an error or nil. */
  datatype Classified = Classified(response: Option<Response>, err: Option<ProxyError>)

  /**
   * `proxySuccessOrError`: a transport failure gives no response and its
   * error; a response with status 200 is returned with no error; any other
   * response is returned together with a `Non200Error` carrying its status.
   */
  function ProxySuccessOrError(f: Fetch): (c: Classified)
    ensures c.response.Some? <==> f.Responded?
    ensures c.response.Some? ==> c.response.value == f.response
    ensures c.err.None? <==> f.Responded? && f.response.statusCode == 200
    ensures f.TransportFailure? ==> c.err == Some(Transport(f.reason))
    ensures f.Responded? && f.response.statusCode != 200 ==> c.err == Some(Non200Error(f.response.statusCode))
    ensures c.err.Some? && c.err.value.Non200Error? ==>
      c.response.Some? && c.err.value.code == c.response.value.statusCode != 200
  {
    match f
    case TransportFailure(reason) => Classified(None, Some(Transport(reason)))
    case Responded(resp) =>
      if resp.statusCode == 200 then Classified(Some(resp), None)
      else Classified(Some(resp), Some(Non200Error(resp.statusCode)))
  }

  /** The path segment naming an object's kind in a registry URL. */
  function KindSegment(t: ObjectType): (s: string)
    ensures s == "manifests" <==> t.Manifest?
    ensures s == "blobs" <==> t.Blob?
  {
    if t.Manifest? then "manifests" else "blobs"
  }

  /** The upstream URL: `https://<registry>/v2/<repository>/manifests/<ref>`, or `/blobs/<ref>`. */
  function UpstreamUrl(id: ObjectIdentifier): string {
    "https://" + id.registry + "/v2/" + id.repository + "/" + KindSegment(id.kind) + "/" + id.ref
  }

  /** An upstream URL names the registry, then the repository, then the kind and the reference. */
  lemma UpstreamUrlShape(id: ObjectIdentifier)
    ensures var url, p := UpstreamUrl(id), "https://" + id.registry + "/v2/" + id.repository + "/";
      && url[..|p|] == p
      && url[|p|..] == KindSegment(id.kind) + "/" + id.ref
  {
    var p := "https://" + id.registry + "/v2/" + id.repository + "/";
    assert UpstreamUrl(id) == p + (KindSegment(id.kind) + "/" + id.ref);
  }

  /** The request `proxy` builds: the method and URL given, and a copy of the inbound header. */
  function UpstreamRequest(id: ObjectIdentifier, inbound: Header): Request {
    Request("GET", UpstreamUrl(id), Merge(map[], inbound))
  }

  /**
   * `proxy(url, method, headers)`: a new request whose header receives every
   * inbound header value (Authorization and Accept included), sent with the
   * client. The request is returned beside the answer so that callers can
   * state what was asked.
   */
  method Proxy(url: string, verb: string, headers: Header, upstream: Request -> Fetch)
      returns (req: Request, f: Fetch)
    ensures req.verb == verb && req.url == url
    ensures req.header == Merge(map[], headers) && f == upstream(req)
  {
    var h := CopyHeaders(map[], headers);
    req := Request(verb, url, h);
    f := upstream(req);
  }

  /**
   * The one case the source does not survive: on a miss whose upstream
   * request fails in transport, the nil response's header is read
   * (service.go line 87).
   */
  predicate DereferencesNil(lookup: Cache.LookupResult, id: ObjectIdentifier, inbound: Header,
                            upstream: Request -> Fetch) {
    lookup.Miss? && upstream(UpstreamRequest(id, inbound)).TransportFailure?
  }

  /** The two markers every response carries, added after whatever the header already held. */
  function ProxyMarks(h: Header, id: ObjectIdentifier): Header {
    Add(Add(h, HeaderProxiedBy, "cacheyd"), HeaderProxiedFor, id.registry)
  }

  /** The headers a hit adds: the cache date, the size in decimal, the content type and the digest. */
  function HitHeaders(h: Header, c: Cache.CachedObject): Header {
    Add(Add(Add(Add(h, HeaderProxyDate, c.cacheDate), HeaderContentLength, Strconv.Itoa(c.sizeBytes)),
            HeaderContentType, c.contentType),
        HeaderDockerContentDigest, c.dockerContentDigest)
  }

  /** What a cache writer is closed with: the bytes it received and the two headers given to `Close`. */
  datatype CommitInfo = CommitInfo(data: Bytes, contentType: string, digest: string)

  /**
   * Everything one call of `cacheOrProxy` does: the status and header the
   * client gets, the bytes written to the client and to the log, the two
   * counters, the upstream request (if one was sent) and the commit (if the
   * cache writer was closed).
   */
  datatype Outcome = Outcome(
    status: int,
    header: Header,
    clientBody: Bytes,
    auditBody: Bytes,
    hits: nat,
    misses: nat,
    asked: Option<Request>,
    commit: Option<CommitInfo>)

  /**
   * The outcome of `cacheOrProxy` for a lookup result, starting from the
   * response header `h0` and the counters `hits`, `misses`. `non200Matches` is
   * what `errors.Is(err, &Non200Error{})` answers for a `Non200Error`. A
   * response whose status is never set is sent with 200.
   */
  function Serve(lookup: Cache.LookupResult, id: ObjectIdentifier, isHead: bool, inbound: Header,
                 upstream: Request -> Fetch, non200Matches: bool,
                 h0: Header, hits: nat, misses: nat): Outcome
    requires !DereferencesNil(lookup, id, inbound, upstream)
  {
    var h := ProxyMarks(h0, id);
    match lookup
    case StoreFault => Outcome(500, h, [], [], hits, misses, None, None)
    case Hit(c) => Outcome(200, HitHeaders(h, c), c.data, [], hits + 1, misses, None, None)
    case Miss => ServeMiss(id, isHead, inbound, upstream, non200Matches, h, hits, misses + 1)
  }

  /**
   * The miss path of `Serve`, from the header that already carries the
   * markers and the counters after the miss was counted.
   */
  function ServeMiss(id: ObjectIdentifier, isHead: bool, inbound: Header, upstream: Request -> Fetch,
                     non200Matches: bool, h: Header, hits: nat, misses: nat): Outcome
    requires upstream(UpstreamRequest(id, inbound)).Responded?
  {
    var req := UpstreamRequest(id, inbound);
    var resp := upstream(req).response;
    var payload := Payload(resp.body);
    var sent := if isHead then [] else payload;
    if resp.statusCode != 200 then
      if non200Matches then
        Outcome(resp.statusCode, Merge(h, resp.header), sent, [], hits, misses, Some(req), None)
      else
        Outcome(200, h, [], [], hits, misses, Some(req), None)
    else
      Outcome(resp.statusCode, Merge(h, resp.header), sent,
              if id.kind.Manifest? then payload else [], hits, misses, Some(req),
              Some(CommitInfo(payload, Get(resp.header, HeaderContentType),
                              Get(resp.header, HeaderDockerContentDigest))))
  }

  /** The header names the service writes are pairwise distinct. */
  lemma HeaderNamesDistinct()
    ensures HeaderProxiedBy != HeaderProxiedFor
    ensures HeaderProxiedBy != HeaderProxyDate && HeaderProxiedFor != HeaderProxyDate
    ensures HeaderProxiedBy != HeaderContentLength && HeaderProxiedFor != HeaderContentLength
    ensures HeaderProxiedBy != HeaderContentType && HeaderProxiedFor != HeaderContentType
    ensures HeaderProxiedBy != HeaderDockerContentDigest && HeaderProxiedFor != HeaderDockerContentDigest
    ensures HeaderProxyDate != HeaderContentLength && HeaderProxyDate != HeaderContentType
    ensures HeaderProxyDate != HeaderDockerContentDigest
    ensures HeaderContentLength != HeaderContentType && HeaderContentLength != HeaderDockerContentDigest
    ensures HeaderContentType != HeaderDockerContentDigest
  {
    assert |HeaderProxiedBy| == 12 && |HeaderProxiedFor| == 13 && |HeaderProxyDate| == 12;
    assert |HeaderContentLength| == 14 && |HeaderContentType| == 12 && |HeaderDockerContentDigest| == 21;
    assert HeaderProxiedBy[6] == 'i' && HeaderProxyDate[6] == 'y';
    assert HeaderProxiedBy[0] == 'X' && HeaderContentType[0] == 'C';
    assert HeaderProxyDate[0] == 'X';
  }

  /** The markers are appended, in order, to the values the header held before. */
  lemma ProxyMarksAdded(h: Header, id: ObjectIdentifier)
    ensures Values(ProxyMarks(h, id), HeaderProxiedBy) == Values(h, HeaderProxiedBy) + ["cacheyd"]
    ensures Values(ProxyMarks(h, id), HeaderProxiedFor) == Values(h, HeaderProxiedFor) + [id.registry]
    ensures forall k :: k != HeaderProxiedBy && k != HeaderProxiedFor ==>
      Values(ProxyMarks(h, id), k) == Values(h, k)
  {
    HeaderNamesDistinct();
  }

  /** A hit's four headers each gain exactly the cached record's value; other keys keep theirs. */
  lemma HitHeadersAdded(h: Header, c: Cache.CachedObject)
    ensures var r := HitHeaders(h, c);
      && Values(r, HeaderProxyDate) == Values(h, HeaderProxyDate) + [c.cacheDate]
      && Values(r, HeaderContentLength) == Values(h, HeaderContentLength) + [Strconv.Itoa(c.sizeBytes)]
      && Values(r, HeaderContentType) == Values(h, HeaderContentType) + [c.contentType]
      && Values(r, HeaderDockerContentDigest) == Values(h, HeaderDockerContentDigest) + [c.dockerContentDigest]
    ensures forall k :: k !in {HeaderProxyDate, HeaderContentLength, HeaderContentType, HeaderDockerContentDigest} ==>
      Values(HitHeaders(h, c), k) == Values(h, k)
  {
    HeaderNamesDistinct();
  }

  /**
   * Every path, the 500 included, first appends `X-Proxied-By: cacheyd` and
   * `X-Proxied-For: <registry>`; on a fresh response these are the values a
   * client reads.
   */
  lemma EveryResponseMarked(lookup: Cache.LookupResult, id: ObjectIdentifier, isHead: bool, inbound: Header,
                            upstream: Request -> Fetch, non200Matches: bool, h0: Header, hits: nat, misses: nat)
    requires !DereferencesNil(lookup, id, inbound, upstream)
    ensures var o := Serve(lookup, id, isHead, inbound, upstream, non200Matches, h0, hits, misses);
      var before, after := Values(h0, HeaderProxiedBy), Values(h0, HeaderProxiedFor);
      && |Values(o.header, HeaderProxiedBy)| > |before|
      && Values(o.header, HeaderProxiedBy)[..|before| + 1] == before + ["cacheyd"]
      && |Values(o.header, HeaderProxiedFor)| > |after|
      && Values(o.header, HeaderProxiedFor)[..|after| + 1] == after + [id.registry]
    ensures h0 == map[] ==>
      var o := Serve(lookup, id, isHead, inbound, upstream, non200Matches, h0, hits, misses);
      Get(o.header, HeaderProxiedBy) == "cacheyd" && Get(o.header, HeaderProxiedFor) == id.registry
  {
    var o := Serve(lookup, id, isHead, inbound, upstream, non200Matches, h0, hits, misses);
    var h := ProxyMarks(h0, id);
    ProxyMarksAdded(h0, id);
    var tailBy, tailFor := MarksKept(lookup, id, isHead, inbound, upstream, non200Matches, h0, hits, misses);
    PrefixOfAppend(Values(h0, HeaderProxiedBy) + ["cacheyd"], tailBy);
    PrefixOfAppend(Values(h0, HeaderProxiedFor) + [id.registry], tailFor);
  }

  lemma PrefixOfAppend(a: seq<string>, b: seq<string>)
    ensures |a + b| >= |a| && (a + b)[..|a|] == a
  {
  }

  /** Whatever a path adds to the header comes after the markers. */
  lemma MarksKept(lookup: Cache.LookupResult, id: ObjectIdentifier, isHead: bool, inbound: Header,
                  upstream: Request -> Fetch, non200Matches: bool, h0: Header, hits: nat, misses: nat)
      returns (tailBy: seq<string>, tailFor: seq<string>)
    requires !DereferencesNil(lookup, id, inbound, upstream)
    ensures var o := Serve(lookup, id, isHead, inbound, upstream, non200Matches, h0, hits, misses);
      var h := ProxyMarks(h0, id);
      && Values(o.header, HeaderProxiedBy) == Values(h, HeaderProxiedBy) + tailBy
      && Values(o.header, HeaderProxiedFor) == Values(h, HeaderProxiedFor) + tailFor
  {
    var h := ProxyMarks(h0, id);
    var o := Serve(lookup, id, isHead, inbound, upstream, non200Matches, h0, hits, misses);
    match lookup
    case StoreFault =>
      tailBy, tailFor := [], [];
      assert o.header == h;
    case Hit(c) =>
      tailBy, tailFor := [], [];
      HitHeadersAdded(h, c);
      HeaderNamesDistinct();
      assert o.header == HitHeaders(h, c);
    case Miss =>
      var resp := upstream(UpstreamRequest(id, inbound)).response;
      if resp.statusCode != 200 && !non200Matches {
        tailBy, tailFor := [], [];
        assert o.header == h;
      } else {
        tailBy, tailFor := Values(resp.header, HeaderProxiedBy), Values(resp.header, HeaderProxiedFor);
        assert o.header == Merge(h, resp.header);
      }
  }

  /**
   * A lookup error ends in status 500: neither counter moves, upstream is not
   * asked, nothing is written and nothing is committed.
   */
  lemma StoreFaultIs500(id: ObjectIdentifier, isHead: bool, inbound: Header,
                        upstream: Request -> Fetch, non200Matches: bool, h0: Header, hits: nat, misses: nat)
    ensures var o := Serve(Cache.StoreFault, id, isHead, inbound, upstream, non200Matches, h0, hits, misses);
      && o.status == 500 && o.header == ProxyMarks(h0, id)
      && o.hits == hits && o.misses == misses
      && o.asked == None && o.commit == None && o.clientBody == [] && o.auditBody == []
  {
  }

  /**
   * A hit is served from the cache, for HEAD too: one more hit, status 200,
   * the cached bytes as body, the record's size (in decimal, reading back as
   * the size), content type and digest as headers, and no upstream request.
   */
  lemma HitServedFromCache(c: Cache.CachedObject, id: ObjectIdentifier, isHead: bool, inbound: Header,
                           upstream: Request -> Fetch, non200Matches: bool, h0: Header, hits: nat, misses: nat)
    ensures var o := Serve(Cache.Hit(c), id, isHead, inbound, upstream, non200Matches, h0, hits, misses);
      && o.status == 200 && o.hits == hits + 1 && o.misses == misses
      && o.clientBody == c.data && o.auditBody == [] && o.asked == None && o.commit == None
      && Values(o.header, HeaderContentLength) == Values(h0, HeaderContentLength) + [Strconv.Itoa(c.sizeBytes)]
      && Values(o.header, HeaderContentType) == Values(h0, HeaderContentType) + [c.contentType]
      && Values(o.header, HeaderDockerContentDigest) == Values(h0, HeaderDockerContentDigest) + [c.dockerContentDigest]
      && Values(o.header, HeaderProxyDate) == Values(h0, HeaderProxyDate) + [c.cacheDate]
    ensures Strconv.DecimalValue(Strconv.Itoa(c.sizeBytes)) == c.sizeBytes
  {
    ProxyMarksAdded(h0, id);
    HitHeadersAdded(ProxyMarks(h0, id), c);
    HeaderNamesDistinct();
    Strconv.ItoaRoundTrip(c.sizeBytes);
  }

  /**
   * A miss counts once and asks upstream with GET, at the identifier's URL,
   * with every inbound header value forwarded.
   */
  lemma MissAsksUpstream(id: ObjectIdentifier, isHead: bool, inbound: Header,
                         upstream: Request -> Fetch, non200Matches: bool, h0: Header, hits: nat, misses: nat)
    requires !DereferencesNil(Cache.Miss, id, inbound, upstream)
    ensures var o := Serve(Cache.Miss, id, isHead, inbound, upstream, non200Matches, h0, hits, misses);
      && o.hits == hits && o.misses == misses + 1
      && o.asked.Some? && o.asked.value.verb == "GET" && o.asked.value.url == UpstreamUrl(id)
      && forall k :: Values(o.asked.value.header, k) == Values(inbound, k)
  {
    MergeValues(map[], inbound);
  }

  /**
   * A non-200 answer that `errors.Is` recognises is passed through: its
   * status, every one of its header values after the markers, its body unless
   * the request was HEAD, and nothing cached or logged.
   */
  lemma PassthroughMirrorsUpstream(id: ObjectIdentifier, isHead: bool, inbound: Header,
                                   upstream: Request -> Fetch, h0: Header, hits: nat, misses: nat)
    requires upstream(UpstreamRequest(id, inbound)).Responded?
    requires upstream(UpstreamRequest(id, inbound)).response.statusCode != 200
    ensures var resp := upstream(UpstreamRequest(id, inbound)).response;
      var o := Serve(Cache.Miss, id, isHead, inbound, upstream, true, h0, hits, misses);
      && o.status == resp.statusCode
      && (forall k :: Values(o.header, k) == Values(ProxyMarks(h0, id), k) + Values(resp.header, k))
      && o.clientBody == (if isHead then [] else Payload(resp.body))
      && o.auditBody == [] && o.commit == None
  {
  }

  /**
   * Were `errors.Is` not to recognise the error, a non-200 answer would be
   * dropped: the client would get status 200 with the markers only and an
   * empty body, and nothing would be cached.
   */
  lemma UnrecognisedNon200Dropped(id: ObjectIdentifier, isHead: bool, inbound: Header,
                                  upstream: Request -> Fetch, h0: Header, hits: nat, misses: nat)
    requires upstream(UpstreamRequest(id, inbound)).Responded?
    requires upstream(UpstreamRequest(id, inbound)).response.statusCode != 200
    ensures var o := Serve(Cache.Miss, id, isHead, inbound, upstream, false, h0, hits, misses);
      && o.status == 200 && o.header == ProxyMarks(h0, id)
      && o.clientBody == [] && o.auditBody == [] && o.commit == None
  {
  }

  /**
   * A 200 answer is streamed and committed: the cache writer gets the whole
   * body (bytes read before a read error included, as the copy's error is
   * not looked at), the log gets it for a manifest, the client unless the
   * request was HEAD, and the writer is closed with upstream's `Content-Type`
   * and `Docker-Content-Digest`.
   */
  lemma SuccessStreamsAndCommits(id: ObjectIdentifier, isHead: bool, inbound: Header,
                                 upstream: Request -> Fetch, non200Matches: bool, h0: Header, hits: nat, misses: nat)
    requires upstream(UpstreamRequest(id, inbound)).Responded?
    requires upstream(UpstreamRequest(id, inbound)).response.statusCode == 200
    ensures var resp := upstream(UpstreamRequest(id, inbound)).response;
      var o := Serve(Cache.Miss, id, isHead, inbound, upstream, non200Matches, h0, hits, misses);
      && o.status == 200
      && (forall k :: Values(o.header, k) == Values(ProxyMarks(h0, id), k) + Values(resp.header, k))
      && o.commit == Some(CommitInfo(Payload(resp.body), Get(resp.header, HeaderContentType),
                                     Get(resp.header, HeaderDockerContentDigest)))
      && o.auditBody == (if id.kind.Manifest? then Payload(resp.body) else [])
      && o.clientBody == (if isHead then [] else Payload(resp.body))
  {
  }

  /**
   * On a miss HEAD changes only what the client's body gets: status, header,
   * counters, request, log and commit are those of the same GET, and the
   * client's body is empty.
   */
  lemma HeadOnlyWithholdsClientBody(id: ObjectIdentifier, inbound: Header,
                                    upstream: Request -> Fetch, non200Matches: bool, h0: Header, hits: nat, misses: nat)
    requires !DereferencesNil(Cache.Miss, id, inbound, upstream)
    ensures var head := Serve(Cache.Miss, id, true, inbound, upstream, non200Matches, h0, hits, misses);
      var get := Serve(Cache.Miss, id, false, inbound, upstream, non200Matches, h0, hits, misses);
      && head.clientBody == []
      && head.(clientBody := get.clientBody) == get
  {
  }

  /**
   * A successful miss makes the next request for the identifier a hit that
   * serves the same bytes, with upstream's content type and digest, and asks
   * upstream nothing.
   */
  lemma SecondRequestHits(files: map<string, Cache.Entry>, id: ObjectIdentifier, isHead: bool, inbound: Header,
                          upstream: Request -> Fetch, non200Matches: bool, h0: Header, hits: nat, misses: nat,
                          now: string)
    requires upstream(UpstreamRequest(id, inbound)).Responded?
    requires upstream(UpstreamRequest(id, inbound)).response.statusCode == 200
    ensures var resp := upstream(UpstreamRequest(id, inbound)).response;
      var first := Serve(Cache.Miss, id, isHead, inbound, upstream, non200Matches, h0, hits, misses);
      var files' := Cache.Commit(files, id, first.commit.value.data, first.commit.value.contentType,
                                 first.commit.value.digest, now);
      var second := Serve(Cache.Lookup(files', true, id), id, isHead, inbound, upstream, non200Matches,
                          h0, first.hits, first.misses);
      && second.clientBody == Payload(resp.body)
      && second.asked == None && second.commit == None
      && second.hits == hits + 1 && second.misses == misses + 1
      && Values(second.header, HeaderContentType) == Values(h0, HeaderContentType) + [Get(resp.header, HeaderContentType)]
  {
    var resp := upstream(UpstreamRequest(id, inbound)).response;
    var first := Serve(Cache.Miss, id, isHead, inbound, upstream, non200Matches, h0, hits, misses);
    var c := first.commit.value;
    Cache.CommitThenHit(files, id, c.data, c.contentType, c.digest, now);
    HitServedFromCache(Cache.CachedObject(|c.data|, now, c.contentType, c.digest, c.data), id, isHead, inbound,
                       upstream, non200Matches, h0, first.hits, first.misses);
  }

  /**
   * When the cache's writes fail, the commit still happens with no bytes: the
   * next request for the same object is a hit that serves an empty body and
   * asks upstream nothing.
   */
  lemma FailedCacheWriteServesEmpty(files: map<string, Cache.Entry>, id: ObjectIdentifier, isHead: bool,
                                    inbound: Header, upstream: Request -> Fetch, non200Matches: bool, h0: Header,
                                    hits: nat, misses: nat, now: string)
    requires upstream(UpstreamRequest(id, inbound)).Responded?
    requires upstream(UpstreamRequest(id, inbound)).response.statusCode == 200
    ensures var first := Serve(Cache.Miss, id, isHead, inbound, upstream, non200Matches, h0, hits, misses);
      var files' := Cache.Commit(files, id, [], first.commit.value.contentType, first.commit.value.digest, now);
      var second := Serve(Cache.Lookup(files', true, id), id, isHead, inbound, upstream, non200Matches,
                          h0, first.hits, first.misses);
      && second.status == 200 && second.clientBody == []
      && second.asked == None && second.commit == None
      && second.hits == hits + 1
  {
    var first := Serve(Cache.Miss, id, isHead, inbound, upstream, non200Matches, h0, hits, misses);
    var c := first.commit.value;
    Cache.CommitThenHit(files, id, [], c.contentType, c.digest, now);
  }

  /**
   * The client's `http.ResponseWriter`: its header, the status once one is
   * set, and the sink its body goes to.
   */
  class ResponseWriter {
    var header: Header
    var status: Option<int>
    const body: Sink

    constructor (body: Sink)
      ensures header == map[] && status == None && this.body == body
    {
      header := map[];
      status := None;
      this.body := body;
    }

    /** `WriteHeader(code)`: the first call sets the status; later calls are ignored. */
    method WriteHeader(code: int)
      modifies this
      ensures status == if old(status).None? then Some(code) else old(status)
      ensures header == old(header)
    {
      if status.None? {
        status := Some(code);
      }
    }

    /** The status the client receives: the one set, or 200 when none was. */
    function Status(): int
      reads this
    {
      status.GetOr(200)
    }
  }

  /**
   * `CacheydService` with its cache, the log manifests are echoed to
   * (`StdouteyBoi`), and the `cache_hits` and `cache_misses` counters.
   */
  class CacheydService {
    const cache: Cache.FileCache
    const audit: Sink
    var hits: nat
    var misses: nat

    constructor (cache: Cache.FileCache, audit: Sink)
      ensures this.cache == cache && this.audit == audit && hits == 0 && misses == 0
    {
      this.cache := cache;
      this.audit := audit;
      hits, misses := 0, 0;
    }

    /**
     * `cacheOrProxy(object, isHead, headers, w)`. `now` is the time the cache
     * files are written at; `non200Matches` is the answer of `errors.Is` for a
     * `Non200Error`. The request must not be one on which the source reads a
     * nil response. Returns the upstream request, if one was sent.
     */
    method CacheOrProxy(id: ObjectIdentifier, isHead: bool, inbound: Header, w: ResponseWriter,
                        upstream: Request -> Fetch, non200Matches: bool, now: string)
        returns (asked: Option<Request>)
      requires w.status.None? && w.body != audit
      requires !DereferencesNil(Cache.Lookup(cache.files, cache.available, id), id, inbound, upstream)
      modifies this, w, w.body, audit, cache
      ensures var o := Serve(Cache.Lookup(old(cache.files), old(cache.available), id), id, isHead, inbound,
                             upstream, non200Matches, old(w.header), old(hits), old(misses));
        && w.header == o.header && w.Status() == o.status
        && w.body.written == old(w.body.written) + (if w.body.failing then [] else o.clientBody)
        && audit.written == old(audit.written) + (if audit.failing then [] else o.auditBody)
        && hits == o.hits && misses == o.misses && asked == o.asked
        && cache.available == old(cache.available)
        && cache.files == if o.commit.None? then old(cache.files)
                          else Cache.Commit(old(cache.files), id,
                                            if cache.writesFail then [] else o.commit.value.data,
                                            o.commit.value.contentType, o.commit.value.digest, now)
    {
      ghost var lookup := Cache.Lookup(cache.files, cache.available, id);
      ghost var h0 := w.header;
      w.header := Add(w.header, HeaderProxiedBy, "cacheyd");
      w.header := Add(w.header, HeaderProxiedFor, id.registry);

      var cached, cacheWriter, err := cache.GetCache(id);
      if err.Some? {
        w.WriteHeader(500);
        return None;
      }
      if cached.Some? {
        assert lookup == Cache.Hit(cached.value);
        ServeCached(id, isHead, inbound, w, upstream, non200Matches, cached.value, h0, now);
        return None;
      }
      assert lookup == Cache.Miss;
      asked := ServeUpstream(id, isHead, inbound, w, upstream, non200Matches, cacheWriter, h0, now);
    }

    /**
     * A hit, once the markers are on the header: the hit is counted and the
     * cached object served.
     */
    method ServeCached(id: ObjectIdentifier, isHead: bool, inbound: Header, w: ResponseWriter,
                       upstream: Request -> Fetch, non200Matches: bool, c: Cache.CachedObject,
                       ghost h0: Header, now: string)
      requires w.status.None? && w.body != audit && w.header == ProxyMarks(h0, id)
      modifies this, w, w.body
      ensures var o := Serve(Cache.Hit(c), id, isHead, inbound, upstream, non200Matches, h0, old(hits), old(misses));
        && w.header == o.header && w.Status() == o.status
        && w.body.written == old(w.body.written) + (if w.body.failing then [] else o.clientBody)
        && audit.written == old(audit.written) + (if audit.failing then [] else o.auditBody)
        && hits == o.hits && misses == o.misses && o.asked == None
        && cache.available == old(cache.available)
        && cache.files == if o.commit.None? then old(cache.files)
                          else Cache.Commit(old(cache.files), id,
                                            if cache.writesFail then [] else o.commit.value.data,
                                            o.commit.value.contentType, o.commit.value.digest, now)
    {
      hits := hits + 1;
      ServeHit(w, c);
    }

    /**
     * A miss, once the markers are on the header: the miss is counted, the
     * request sent upstream, then the passthrough, the dropped error or the
     * streamed and committed success.
     */
    method ServeUpstream(id: ObjectIdentifier, isHead: bool, inbound: Header, w: ResponseWriter,
                         upstream: Request -> Fetch, non200Matches: bool, cacheWriter: Cache.CacheWriter,
                         ghost h0: Header, now: string)
        returns (asked: Option<Request>)
      requires upstream(UpstreamRequest(id, inbound)).Responded?
      requires w.status.None? && w.body != audit && w.header == ProxyMarks(h0, id)
      requires cacheWriter.store == cache && cacheWriter.id == id
      requires cacheWriter.staged != audit && cacheWriter.staged != w.body
      requires cacheWriter.staged.written == [] && cacheWriter.staged.failing == cache.writesFail
      modifies this, w, w.body, audit, cacheWriter.staged, cache
      ensures var o := Serve(Cache.Miss, id, isHead, inbound, upstream, non200Matches, h0, old(hits), old(misses));
        && w.header == o.header && w.Status() == o.status
        && w.body.written == old(w.body.written) + (if w.body.failing then [] else o.clientBody)
        && audit.written == old(audit.written) + (if audit.failing then [] else o.auditBody)
        && hits == o.hits && misses == o.misses && asked == o.asked
        && cache.available == old(cache.available)
        && cache.files == if o.commit.None? then old(cache.files)
                          else Cache.Commit(old(cache.files), id,
                                            if cache.writesFail then [] else o.commit.value.data,
                                            o.commit.value.contentType, o.commit.value.digest, now)
    {
      misses := misses + 1;
      asked := ProxyMiss(id, isHead, inbound, w, upstream, non200Matches, cacheWriter, h0, now);
    }

    /**
     * A miss once it is counted: the request upstream, then its answer
     * classified, mirrored, or streamed and committed, as `ServeMiss` says.
     */
    method ProxyMiss(id: ObjectIdentifier, isHead: bool, inbound: Header, w: ResponseWriter,
                     upstream: Request -> Fetch, non200Matches: bool, cacheWriter: Cache.CacheWriter,
                     ghost h0: Header, now: string)
        returns (asked: Option<Request>)
      requires upstream(UpstreamRequest(id, inbound)).Responded?
      requires w.status.None? && w.body != audit && w.header == ProxyMarks(h0, id)
      requires cacheWriter.store == cache && cacheWriter.id == id
      requires cacheWriter.staged != audit && cacheWriter.staged != w.body
      requires cacheWriter.staged.written == [] && cacheWriter.staged.failing == cache.writesFail
      modifies w, w.body, audit, cacheWriter.staged, cache
      ensures var o := ServeMiss(id, isHead, inbound, upstream, non200Matches, ProxyMarks(h0, id), hits, misses);
        && w.header == o.header && w.Status() == o.status
        && w.body.written == old(w.body.written) + (if w.body.failing then [] else o.clientBody)
        && audit.written == old(audit.written) + (if audit.failing then [] else o.auditBody)
        && asked == o.asked
        && cache.available == old(cache.available)
        && cache.files == if o.commit.None? then old(cache.files)
                          else Cache.Commit(old(cache.files), id,
                                            if cache.writesFail then [] else o.commit.value.data,
                                            o.commit.value.contentType, o.commit.value.digest, now)
    {
      var req, f := Proxy(UpstreamUrl(id), "GET", inbound, upstream);
      assert req == UpstreamRequest(id, inbound);
      asked := Some(req);
      var classified := ProxySuccessOrError(f);
      var resp := classified.response.value;
      assert resp == upstream(req).response;

      if classified.err.Some? {
        if classified.err.value.Non200Error? && non200Matches {
          Mirror(w, resp, isHead);
        }
        return;
      }
      ServeSuccess(id, isHead, inbound, w, upstream, non200Matches, cacheWriter, h0, now);
    }

    /**
     * A 200 answer, once the miss is counted: upstream's header, status and
     * body as `ServeMiss` describes them, and the writer closed.
     */
    method ServeSuccess(id: ObjectIdentifier, isHead: bool, inbound: Header, w: ResponseWriter,
                        upstream: Request -> Fetch, non200Matches: bool, cacheWriter: Cache.CacheWriter,
                        ghost h0: Header, now: string)
      requires upstream(UpstreamRequest(id, inbound)).Responded?
      requires upstream(UpstreamRequest(id, inbound)).response.statusCode == 200
      requires w.status.None? && w.body != audit && w.header == ProxyMarks(h0, id)
      requires cacheWriter.store == cache && cacheWriter.id == id
      requires cacheWriter.staged != audit && cacheWriter.staged != w.body
      requires cacheWriter.staged.written == [] && cacheWriter.staged.failing == cache.writesFail
      modifies w, w.body, audit, cacheWriter.staged, cache
      ensures var o := ServeMiss(id, isHead, inbound, upstream, non200Matches, ProxyMarks(h0, id), hits, misses);
        && w.header == o.header && w.Status() == o.status
        && w.body.written == old(w.body.written) + (if w.body.failing then [] else o.clientBody)
        && audit.written == old(audit.written) + (if audit.failing then [] else o.auditBody)
        && cache.available == old(cache.available)
        && cache.files == if o.commit.None? then old(cache.files)
                          else Cache.Commit(old(cache.files), id,
                                            if cache.writesFail then [] else o.commit.value.data,
                                            o.commit.value.contentType, o.commit.value.digest, now)
    {
      var resp := upstream(UpstreamRequest(id, inbound)).response;
      ghost var kept := if cache.writesFail then [] else Payload(resp.body);
      StreamAndCommit(id, isHead, w, resp, cacheWriter, now);
      assert cache.files == Cache.Commit(old(cache.files), id, kept, Get(resp.header, HeaderContentType),
                                         Get(resp.header, HeaderDockerContentDigest), now);
    }

    /** A hit: the record's four headers, then the cached bytes copied to the client. */
    method ServeHit(w: ResponseWriter, c: Cache.CachedObject)
      modifies w, w.body
      ensures w.header == HitHeaders(old(w.header), c) && w.status == old(w.status)
      ensures w.body.written == old(w.body.written) + (if w.body.failing then [] else c.data)
    {
      w.header := HitHeaders(w.header, c);
      var reader, _ := Cache.GetReader(c);
      Cache.ReaderYieldsContent(c);
      var dst := [w.body];
      var _, _, _ := ReadIntoWriters(dst, reader);
      assert dst[0] == w.body;
    }

    /** A passthrough: upstream's header and status, and its body unless the request was HEAD. */
    method Mirror(w: ResponseWriter, resp: Response, isHead: bool)
      modifies w, w.body
      ensures w.header == Merge(old(w.header), resp.header)
      ensures w.status == if old(w.status).None? then Some(resp.statusCode) else old(w.status)
      ensures w.body.written == old(w.body.written) + (if w.body.failing || isHead then [] else Payload(resp.body))
    {
      w.header := CopyHeaders(w.header, resp.header);
      w.WriteHeader(resp.statusCode);
      if !isHead {
        var body := new Reader(resp.body);
        var dst := [w.body];
        var _, _, _ := ReadIntoWriters(dst, body);
        assert dst[0] == w.body;
      }
    }

    /**
     * A success: upstream's header and status, then its body copied to the
     * cache writer, to the log for a manifest, and to the client unless the
     * request was HEAD; the writer is closed whatever the copy returned.
     */
    method StreamAndCommit(id: ObjectIdentifier, isHead: bool, w: ResponseWriter, resp: Response,
                           cacheWriter: Cache.CacheWriter, now: string)
      requires w.body != audit && cacheWriter.staged != audit && cacheWriter.staged != w.body
      requires cacheWriter.staged.written == [] && cacheWriter.id == id
      requires cacheWriter.staged.failing == cacheWriter.store.writesFail
      modifies w, w.body, audit, cacheWriter.staged, cacheWriter.store
      ensures w.header == Merge(old(w.header), resp.header)
      ensures w.status == if old(w.status).None? then Some(resp.statusCode) else old(w.status)
      ensures w.body.written == old(w.body.written) + (if w.body.failing || isHead then [] else Payload(resp.body))
      ensures audit.written == old(audit.written) + (if audit.failing || !id.kind.Manifest? then [] else Payload(resp.body))
      ensures cacheWriter.store.available == old(cacheWriter.store.available)
      ensures cacheWriter.store.files == Cache.Commit(old(cacheWriter.store.files), id,
        if cacheWriter.store.writesFail then [] else Payload(resp.body),
        Get(resp.header, HeaderContentType), Get(resp.header, HeaderDockerContentDigest), now)
    {
      w.header := CopyHeaders(w.header, resp.header);
      w.WriteHeader(resp.statusCode);
      Fanout(id.kind.Manifest?, isHead, cacheWriter.staged, w.body, resp.body);
      assert cacheWriter.staged.written == if cacheWriter.staged.failing then [] else Payload(resp.body);
      cacheWriter.Close(Get(resp.header, HeaderContentType), Get(resp.header, HeaderDockerContentDigest), now);
    }

    /**
     * The copy of a success's body: to the cache writer's sink, then to the
     * log for a manifest, then to the client unless the request was HEAD.
     */
    method Fanout(manifest: bool, isHead: bool, staged: Sink, client: Sink, body: seq<ReadStep>)
      requires client != audit && staged != audit && staged != client
      modifies staged, audit, client
      ensures staged.written == old(staged.written) + (if staged.failing then [] else Payload(body))
      ensures audit.written == old(audit.written) + (if audit.failing || !manifest then [] else Payload(body))
      ensures client.written == old(client.written) + (if client.failing || isHead then [] else Payload(body))
    {
      var writers := [staged];
      if manifest {
        writers := writers + [audit];
      }
      if !isHead {
        writers := writers + [client];
      }
      assert writers[0] == staged;
      assert manifest ==> writers[1] == audit;
      assert !isHead ==> writers[|writers| - 1] == client;
      assert forall s :: s in writers ==> s == staged || (manifest && s == audit) || (!isHead && s == client);
      var src := new Reader(body);
      var _, _, _ := ReadIntoWriters(writers, src);
    }
  }
}
