/**
 * The HTTP route handlers of the mux package. A handler's writes to the
 * response are returned as a value: either a response it writes itself, or
 * the service entry point it calls. Path matching is done by the router
 * library; the repository part must match `ImageName.IsRepositoryName`.
 */
module Router {
  import opened Model
  import Headers

  /** Query parameters: each name with its values, in order. */
  type Query = map<string, seq<string>>

  /** `url.Values.Get`: the first value of `name`, or "" when it has none. */
  function QueryGet(q: Query, name: string): (v: string)
    ensures (name !in q || q[name] == []) ==> v == ""
    ensures name in q && q[name] != [] ==> v == q[name][0]
  {
    if name in q && q[name] != [] then q[name][0] else ""
  }

  /** What a handler does with the request. */
  datatype HandlerResult =
    | Respond(status: int, body: string)
    | Dispatch(entry: ObjectType, id: ObjectIdentifier, isHead: bool, headers: Headers.Header)

  /** The body of the 400 answer for a request that names no upstream registry. */
  function NoRegistryMessage(repo: string): string {
    "No ns query string given (are you using containerd?): I don't know what registry to ask for " + repo
  }

  /** The route `/`: body `cacheyd`; no status is set, so the status is 200. */
  function HandleRoot(): (r: HandlerResult)
    ensures r == Respond(200, "cacheyd")
  {
    Respond(200, "cacheyd")
  }

  /**
   * The route `/v2/{repo}/manifests/{ref}`. Without an `ns` value the answer is
   * 400 and a message naming the repository. Otherwise `GetManifest` is called
   * with the identifier built from the route and query. HEAD is not passed on
   * as such (its assignment is commented out in the source), and methods other
   * than GET and HEAD are dispatched all the same.
   */
  function HandleManifest(httpMethod: string, repo: string, ref: string, query: Query, headers: Headers.Header): (r: HandlerResult)
    ensures r.Respond? <==> QueryGet(query, "ns") == ""
    ensures r.Respond? ==> r.status == 400 && r.body == NoRegistryMessage(repo)
    ensures r.Dispatch? ==>
      && r.entry == Manifest
      && r.id == ObjectIdentifier(QueryGet(query, "ns"), repo, ref, Manifest)
      && !r.isHead
      && r.headers == headers
  {
    var registry := QueryGet(query, "ns");
    if registry == "" then Respond(400, NoRegistryMessage(repo))
    else
      var isHead := false;
      Dispatch(Manifest, ObjectIdentifier(registry, repo, ref, Manifest), isHead, headers)
  }

  /**
   * The route `/v2/{repo}/blobs/{digest}`: like the manifest route, but it
   * calls `GetBlob` and passes `isHead` exactly when the method is HEAD.
   */
  function HandleBlob(httpMethod: string, repo: string, digest: string, query: Query, headers: Headers.Header): (r: HandlerResult)
    ensures r.Respond? <==> QueryGet(query, "ns") == ""
    ensures r.Respond? ==> r.status == 400 && r.body == NoRegistryMessage(repo)
    ensures r.Dispatch? ==>
      && r.entry == Blob
      && r.id == ObjectIdentifier(QueryGet(query, "ns"), repo, digest, Blob)
      && (r.isHead <==> httpMethod == "HEAD")
      && r.headers == headers
  {
    var registry := QueryGet(query, "ns");
    if registry == "" then Respond(400, NoRegistryMessage(repo))
    else
      var isHead := httpMethod == "HEAD";
      Dispatch(Blob, ObjectIdentifier(registry, repo, digest, Blob), isHead, headers)
  }

  /**
   * Neither route rejects a method: with a registry given, any method other
   * than GET and HEAD is dispatched, as a request that wants a body.
   */
  lemma UnknownMethodsDispatched(httpMethod: string, repo: string, ref: string, query: Query, headers: Headers.Header)
    requires httpMethod != "GET" && httpMethod != "HEAD" && QueryGet(query, "ns") != ""
    ensures HandleManifest(httpMethod, repo, ref, query, headers).Dispatch?
    ensures !HandleManifest(httpMethod, repo, ref, query, headers).isHead
    ensures HandleBlob(httpMethod, repo, ref, query, headers).Dispatch?
    ensures !HandleBlob(httpMethod, repo, ref, query, headers).isHead
  {
  }

  /** HEAD is told apart on the blob route only. */
  lemma HeadOnlyOnBlobs(repo: string, ref: string, query: Query, headers: Headers.Header)
    requires QueryGet(query, "ns") != ""
    ensures !HandleManifest("HEAD", repo, ref, query, headers).isHead
    ensures HandleBlob("HEAD", repo, ref, query, headers).isHead
  {
  }
}
