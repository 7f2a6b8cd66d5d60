# cacheyd, modelled in Dafny

cacheyd is a pull-through cache for container registries. A client asks it
for a manifest or a blob at `/v2/<repository>/manifests/<ref>` or
`/v2/<repository>/blobs/<digest>`, naming the upstream registry in the `ns`
query parameter. The service first looks in a file cache. On a hit it serves
the stored bytes. On a miss it asks the registry with GET. A 200 answer is
streamed to the cache writer, to the log (for manifests) and to the client.
Any other answer is passed through unchanged when `errors.Is(err, &Non200Error{})` matches it, and dropped otherwise, leaving a bare 200; in both cases nothing is cached.

This project models that core and proves properties of it.

- `wrappers.dfy` (`Wrappers`): the `Option` type.
- `model.dfy` (`Model`):
  - the object identifier (registry, repository, reference, kind);
  - the three header names the service shares with the cache;
  - the spelling of a kind in the metadata sidecar.
- `headers.dfy` (`Headers`):
  - `http.Header` as a map from name to the values in order;
  - `Header.Add` and `Header.Get`;
  - `copyHeaders` as an imperative nested loop, proved equal to the specification function `Merge`.
- `streams.dfy` (`Streams`):
  - a source (`Reader`) is given by the answers its reads produce;
  - a destination (`Sink`) either accepts every write or rejects every write;
  - `readIntoWriters` is the imperative copy loop over one 32 KiB buffer. It is proved to deliver the source's whole payload, in order, to every destination that accepts writes. It also records the order of reads and writes.
- `strconv.dfy` (`Strconv`): `strconv.Itoa` as the `Content-Length` header writes it, with its parse round trip.
- `imagename.dfy` (`ImageName`): the router's repository-name pattern.
  - It is written as a left-to-right scanner.
  - It is proved to accept exactly the strings that obey character-level rules.
  - The proved consequences are: names are non-empty, start and end in `[a-z0-9]`, never contain `//`, never contain uppercase.
- `router.dfy` (`Router`): the three route handlers as functions from the request to a response or a dispatch.
- `cache.dfy` (`Cache`):
  - the cache key and the `.json` sidecar name;
  - the directory as a map from file name to file;
  - the lookup, the commit that closing a cache writer performs, and the reader over a cached object;
  - the cache's own test case;
  - `FileCache` and `CacheWriter` as classes.
- `service.dfy` (`Service`):
  - `proxySuccessOrError` and the request `proxy` builds;
  - the specification function `Serve`, which computes everything one call of `cacheOrProxy` does: status, header, client body, log output, counters, upstream request and commit;
  - the `ResponseWriter` and `CacheydService` classes, whose method `CacheOrProxy` is proved to do what `Serve` says;
  - lemmas stating, path by path, what `Serve` promises.

How the parts without a contract are modelled:

- Upstream is a function from the request sent to a `Fetch`: a transport failure, or a response with status, header and body.
- The answer of `errors.Is(err, &Non200Error{})` is a parameter, `non200Matches`, because `Non200Error` and its `Is` method are not part of this model.
- The file modification time a commit gives the content file is the parameter `now`.
- Logging is left out, apart from the write of a manifest's body to the log, which is the `audit` sink.
- `Key` (the file name of an object) is defined by its manifest and blob layouts. Its contract lives in the lemmas about it.
- `UpstreamUrl` is the `fmt.Sprintf` of service.go lines 81-86. `UpstreamUrlShape` and `KindSegment` state its layout.
- `Serve` has no `ensures` of its own. `CacheydService.CacheOrProxy` is proved equal to it, and the `Service` lemmas state its meaning.

Quirks of the code the model keeps:

- A transport failure is not answered with a server error. The code reads the nil response (service.go lines 87 and 101). The model makes that case a precondition (`DereferencesNil`).
- A failed read does not stop the commit. The copy's error is ignored, and the cache writer is closed with whatever was read.
- A failed write to the cache does not stop the commit either. Every write error is dropped, and the writer is closed all the same; in the model the commit then carries no bytes.
- A hit writes the body even for a HEAD request.
- Keys are not injective. `user/repository` and `user_repository` are both valid names, and their manifests share a file.

## Model

| member | source | states |
|---|---|---|
| Model.TypeName | pkg/cache/cache_test.go:29-50 | a kind is written in the sidecar as `manifest` or `blob`, and `manifest` exactly for manifests |
| Model.TypeNameRoundTrip | pkg/cache/cache_test.go:29-50 | the sidecar's type field reads back as the kind it was written from |
| Model.ParseTypeName | pkg/cache/cache_test.go:29-50 | the sidecar's type field names a kind exactly when it is `manifest` or `blob` |
| Headers.Add | pkg/service/service.go:164 | `Header.Add` creates the key if needed and appends the value to its values |
| Headers.AddKeepsOthers | pkg/service/service.go:164 | `Header.Add` adds no key but its own and leaves every other key's values unchanged |
| Headers.Get | pkg/service/service.go:119 | `Header.Get` gives the key's first value, or "" when it has none |
| Headers.MergeValues | pkg/service/service.go:161-167 | after copying, every key holds its old values followed by the source's values; a key the source lists with no values is not created |
| Headers.Merge | pkg/service/service.go:161-167 | the specification of `copyHeaders`; its definition is its contract, and its meaning is stated by `Headers.MergeValues`, `Headers.MergeStep` and `Headers.CopyHeaders` |
| Headers.MergeStep | pkg/service/service.go:162-166 | adding the values of one more source key extends the partial copy by exactly that key |
| Headers.AddValues | pkg/service/service.go:163-165 | the inner loop appends all values of one key, in order, and changes nothing when there are none |
| Headers.CopyHeaders | pkg/service/service.go:161-167 | the nested loop gives, for every key, the old values followed by all of the source's values, whatever order the keys are visited in |
| Streams.NextRead | pkg/service/service.go:132 | one read returns at most a buffer's worth; an error comes only with the source's last bytes; otherwise the bytes returned plus what is left are the whole remaining payload, and what is left is strictly smaller |
| Streams.Payload | pkg/service/service.go:128-159 | the bytes a source yields, including those that come with its ending error; its definition is its contract, and `Streams.ReadAccount` and `Streams.ReadIntoWriters` state what the copy does with it |
| Streams.Ending | pkg/service/service.go:151-157 | the error that ends a source, `io.EOF` when its answers run out; its definition is its contract, and `Streams.ReadIntoWriters` and `Streams.Returned` state how the copy returns it |
| Streams.Reader.Read | pkg/service/service.go:132 | `Read` fills the buffer's first `n` bytes with the next chunk and advances the source |
| Streams.Sink.Write | pkg/service/service.go:141 | a write appends the bytes to an accepting destination and reports failure, keeping nothing, on a failing one |
| Streams.Returned | pkg/service/service.go:151-157 | `io.EOF` is returned as nil; any other error, cancellation included, is returned as it is |
| Streams.RoundShape | pkg/service/service.go:132-150 | one iteration is a read followed, when bytes came back, by a write of them to each destination in order |
| Streams.CopyChunk | pkg/service/service.go:132-150 | one pass of the loop returns the next read's bytes and error and advances the source; every accepting destination then holds what it held plus those bytes |
| Streams.ReadAccount | pkg/service/service.go:131-158 | after each read, the bytes read so far plus those the source still holds are its whole payload, and an error ends the payload |
| Streams.WriteAll | pkg/service/service.go:139-149 | each destination in turn is given the chunk; accepting ones keep it, and write failures do not stop the loop |
| Streams.ReadIntoWriters | pkg/service/service.go:128-159 | every accepting destination receives exactly the source's payload, including bytes that came with the ending error; the chunks read concatenate to that payload and are at most 32768 bytes each; every chunk goes to all destinations before the next read; the result is nil on EOF and the ending error otherwise |
| Strconv.Itoa | pkg/service/service.go:69 | the size is written as non-empty decimal digits without a leading zero |
| Strconv.ItoaRoundTrip | pkg/service/service.go:69 | the `Content-Length` value reads back as the cached size |
| ImageName.StepFromExpected | pkg/mux/mux.go:11 | from the state a well-formed prefix predicts, the scanner accepts the next character exactly when the character rules admit it, and moves to the state the longer prefix predicts |
| ImageName.Step | pkg/mux/mux.go:11 | one character of the pattern's scanner; its definition is its contract, and `ImageName.StepFromExpected` states its meaning |
| ImageName.Run | pkg/mux/mux.go:11 | the scanner over a string, one `Step` per character; its definition is its contract, and `ImageName.ScanCharacterized` states its meaning |
| ImageName.Scan | pkg/mux/mux.go:11 | `Run` from the start state; its definition is its contract, and `ImageName.ScanCharacterized` states its meaning |
| ImageName.IsRepositoryName | pkg/mux/mux.go:11 | a string the route's pattern accepts, as the scanner ending inside a run; its definition is its contract, and `ImageName.ScannerMatchesRules` and `ImageName.NameShape` state its meaning |
| ImageName.FollowsNameRules | pkg/mux/mux.go:11 | the pattern's language as rules about single characters and their neighbours, the independent definition `ImageName.ScannerMatchesRules` proves the scanner equal to |
| ImageName.ScanCharacterized | pkg/mux/mux.go:11 | the scanner accepts a prefix exactly when it obeys the character rules, and its state is read off the last characters |
| ImageName.ScannerMatchesRules | pkg/mux/mux.go:11 | a string matches the pattern exactly when it is non-empty, uses only `[a-z0-9._/-]`, starts and ends with `[a-z0-9]`, has neighbouring separators only as `--` or `__`, and never has `___` |
| ImageName.NameShape | pkg/mux/mux.go:11 | a valid name is non-empty, starts and ends with a lowercase letter or digit, never contains `//` and never contains an uppercase letter |
| ImageName.RunIsName | pkg/mux/mux.go:11 | one run of `[a-z0-9]` is a valid name |
| ImageName.JoinIsName | pkg/mux/mux.go:11 | two valid names joined by `.`, `_`, `__`, one or more `-`, or `/` form a valid name |
| ImageName.AcceptedExamples | pkg/mux/mux.go:11 | `user/repository` and `user_repository` are valid names |
| ImageName.RejectedExamples | pkg/mux/mux.go:11 | `a___b`, `a//b`, `User/repository` and `repo/` are not valid names |
| Router.QueryGet | pkg/mux/mux.go:23 | the `ns` value is the parameter's first value, or "" |
| Router.NoRegistryMessage | pkg/mux/mux.go:25-50 | the 400 body both routes write: the fixed text followed by the repository; its definition is its contract, used by `Router.HandleManifest` and `Router.HandleBlob` |
| Router.HandleRoot | pkg/mux/mux.go:16-18 | `/` answers `cacheyd` with the default status 200 |
| Router.HandleManifest | pkg/mux/mux.go:20-39 | with no `ns` value the answer is 400 with the message naming the repository and nothing is dispatched; otherwise `GetManifest` is called with {registry: ns, repository, ref, manifest}, the inbound header and `isHead` false |
| Router.HandleBlob | pkg/mux/mux.go:42-61 | with no `ns` value the answer is 400 with the message; otherwise `GetBlob` is called with {registry: ns, repository, digest, blob} and `isHead` true exactly for HEAD |
| Router.UnknownMethodsDispatched | pkg/mux/mux.go:31-58 | methods other than GET and HEAD are dispatched on both routes, as requests that want a body |
| Router.HeadOnlyOnBlobs | pkg/mux/mux.go:31-58 | HEAD yields `isHead` on the blob route but not on the manifest route |
| Cache.ReplaceAt | pkg/cache/cache_test.go:23-27 | the key's repository part keeps every character except `/`, which becomes `_` |
| Cache.SlashToUnderscore | pkg/cache/cache_test.go:23-27 | the repository as the key spells it has the same length; `Cache.ReplaceAt` states it character by character |
| Cache.Key | pkg/cache/cache_test.go:21-43 | an object's file name: `<registry>-m-<repository, each / as _>-<ref>` for a manifest, `<registry>-b-<ref>` for a blob. Its definition is its contract, and `Cache.ManifestKeyExample`, `Cache.BlobKeyExample`, `Cache.BlobKeyIgnoresRepository`, `Cache.KindsNeverShareKey` and `Cache.KeyIsFileName` state its meaning |
| Cache.ReplaceAppend | pkg/cache/cache_test.go:23-27 | the replacement distributes over concatenation |
| Cache.NoSlashUnchanged | pkg/cache/cache_test.go:23-27 | a repository without `/` appears in the key unchanged |
| Cache.ReplaceTwoComponents | pkg/cache/cache_test.go:23-27 | `u/r` becomes `u_r` |
| Cache.TestRepositoryReplaced | pkg/cache/cache_test.go:23-27 | `user/repository` becomes `user_repository` |
| Cache.ManifestKeyExample | pkg/cache/cache_test.go:21-27 | the test's manifest has key `docker.io-m-user_repository-v1.2.3` |
| Cache.BlobKeyExample | pkg/cache/cache_test.go:37-43 | the test's blob has key `docker.io-b-` followed by its digest |
| Cache.SidecarName | pkg/cache/cache_test.go:58 | the sidecar's name is the key followed by `.json` |
| Cache.BlobKeyIgnoresRepository | pkg/cache/cache_test.go:37-43 | a blob's key depends on its registry and reference only |
| Cache.KindsNeverShareKey | pkg/cache/cache_test.go:21-43 | within a registry no manifest has a blob's key |
| Cache.KeyIsFileName | pkg/cache/cache_test.go:57-58 | a key has no `/` when its registry and reference have none, so the content file lies directly in the cache directory |
| Cache.ManifestKeysCollide | pkg/cache/cache_test.go:21-27 | two distinct identifiers, both with names the router accepts, can share a key |
| Cache.CollidingPair | pkg/cache/cache_test.go:21-27 | for any two runs `u` and `r`, the manifests of `u/r` and `u_r` are distinct, valid and share a key |
| Cache.SharedManifestKey | pkg/cache/cache_test.go:21-27 | the manifests of `u/r` and `u_r` share a key when neither part contains `/` |
| Cache.SidecarMayShadowContent | pkg/cache/cache_test.go:57-58 | a blob whose reference ends in `.json` is named like another blob's sidecar |
| Cache.RecordedObject | pkg/cache/cache_test.go:29-34 | a sidecar's identifier carries the registry, repository and reference it records |
| Cache.MetadataFor | pkg/cache/cache_test.go:29-50 | the sidecar record written for an object: its registry, repository, reference and type name, plus the content type and digest; its definition is its contract, and `Cache.MetadataRoundTrip` states its meaning |
| Cache.MetadataRoundTrip | pkg/cache/cache_test.go:29-50 | the sidecar written for an identifier records exactly that identifier |
| Cache.Lookup | pkg/cache/cache_test.go:64-69 | an unreadable store is an error; a hit occurs exactly when the content file and its sidecar are both present; a hit's size is the content file's length, and its data, date, content type and digest come from the two files |
| Cache.NeverCommittedIsMiss | pkg/cache/cache_test.go:64-67 | an identifier without a content file is a miss |
| Cache.Commit | pkg/service/service.go:119 | the directory after a writer is closed: the content file and its sidecar written; its definition is its contract, and `Cache.CommitThenHit`, `Cache.CommitIdempotent`, `Cache.RecommitMovesOnlyDate` and `Cache.CommitLeavesOthers` state its meaning |
| Cache.CommitThenHit | pkg/service/service.go:118-119 | after the writer is closed, the identifier is a hit serving exactly the bytes written, with the given content type and digest |
| Cache.CommitIdempotent | pkg/service/service.go:118-119 | committing the same bytes, headers and time again leaves the directory as it is |
| Cache.RecommitMovesOnlyDate | pkg/service/service.go:118-119 | committing the same bytes again at any later time gives the directory a single commit at that time gives; the hit keeps its data, size, content type and digest, and only its cache date moves |
| Cache.CommitLeavesOthers | pkg/service/service.go:118-119 | a commit does not change the lookup of an identifier whose two files it does not touch |
| Cache.ReaderYieldsContent | pkg/cache/cache_test.go:71-76 | reading a cached object to the end yields exactly its bytes and ends with EOF |
| Cache.GetReader | pkg/cache/cache_test.go:71-72 | `GetReader` returns a fresh reader over the cached bytes, and no error |
| Cache.FileCache.WriteFile | pkg/cache/cache_test.go:57-58 | writing a file adds or replaces exactly that file |
| Cache.FileCache.GetCache | pkg/cache/cache_test.go:64-67 | the result is an error exactly on a store fault, and a cached object exactly on a hit; otherwise a fresh writer for the identifier is returned, on a hit as well; the writer holds nothing yet and fails its writes exactly when the store's writes fail |
| Cache.CacheWriter.Close | pkg/service/service.go:119 | closing writes the bytes the writer kept (none when the store's writes fail) as the content file, and the sidecar beside it |
| Cache.ReadFromCache | pkg/cache/cache_test.go:53-76 | with an identifier's content file and sidecar in place, the lookup has no error, returns a writer, and gives a cached object whose size is the content's length; reading that object's reader to the end, as `io.ReadAll` does, gives exactly the content and a nil error |
| Cache.ReadManifestFromCache | pkg/cache/cache_test.go:20-35 | the manifest test case gives no error, a writer, a size of six, and a read of `6bytes` with a nil error |
| Cache.ReadBlobFromCache | pkg/cache/cache_test.go:36-51 | the blob test case gives no error, a writer, a size of six, and a read of `6bytes` with a nil error |
| Service.ProxySuccessOrError | pkg/service/service.go:169-180 | a response is returned exactly when one came back; no error exactly for status 200; a transport failure is returned as its error; any other status is returned with `Non200Error` carrying it |
| Service.DereferencesNil | pkg/service/service.go:86-101 | a miss whose request upstream ends in a transport failure, where the code reads the nil response; its definition is its contract, and it is the precondition of `Service.Serve` and `Service.CacheydService.CacheOrProxy` |
| Service.UpstreamUrl | pkg/service/service.go:81-86 | the URL `fmt.Sprintf` builds; its definition is its contract, and `Service.UpstreamUrlShape` states its layout |
| Service.UpstreamRequest | pkg/service/service.go:182-202 | the GET to that URL with the inbound header copied into an empty one; its definition is its contract, and `Service.Proxy` and `Service.MissAsksUpstream` state its meaning |
| Service.ProxyMarks | pkg/service/service.go:55-56 | the two markers added to the header; its definition is its contract, and `Service.ProxyMarksAdded` states its meaning |
| Service.HitHeaders | pkg/service/service.go:68-71 | the four record headers added on a hit; its definition is its contract, and `Service.HitHeadersAdded` states its meaning |
| Service.Serve | pkg/service/service.go:54-120 | everything one call of `cacheOrProxy` does, for a given lookup; its definition is its contract, `Service.CacheydService.CacheOrProxy` is proved to do what it says, and the `Service` lemmas below state its meaning path by path |
| Service.ServeMiss | pkg/service/service.go:78-119 | the miss path of `Serve` once the markers are added and the miss is counted; its definition is its contract, and `Service.MissAsksUpstream`, `Service.PassthroughMirrorsUpstream`, `Service.UnrecognisedNon200Dropped` and `Service.SuccessStreamsAndCommits` state its meaning |
| Service.KindSegment | pkg/service/service.go:81-84 | the URL segment is `manifests` exactly for manifests and `blobs` exactly for blobs |
| Service.UpstreamUrlShape | pkg/service/service.go:81-86 | the upstream URL is `https://<registry>/v2/<repository>/` followed by the kind's segment, `/` and the reference |
| Service.Proxy | pkg/service/service.go:182-202 | the request has the given method and URL and its header is the inbound header copied into an empty one (every inbound value, by `Headers.MergeValues`); the answer is the upstream's answer to that request |
| Service.ProxyMarksAdded | pkg/service/service.go:55-56 | the two markers are appended to the values the header held, and no other key changes |
| Service.HitHeadersAdded | pkg/service/service.go:68-71 | the four hit headers each gain exactly the cached record's value, and no other key changes |
| Service.EveryResponseMarked | pkg/service/service.go:55-56 | on every path, including the 500, the header's values for `X-Proxied-By` and `X-Proxied-For` begin with the old values followed by `cacheyd` and the registry; on a fresh response these are what `Get` returns |
| Service.StoreFaultIs500 | pkg/service/service.go:58-63 | a lookup error gives status 500 with only the markers; neither counter moves; no upstream request is made; nothing is written or committed |
| Service.HitServedFromCache | pkg/service/service.go:65-76 | a hit, HEAD included, gives status 200; the hit counter moves by one and the miss counter does not; the body is the cached bytes; `Content-Length` (reading back as the size), `Content-Type`, `Docker-Content-Digest` and `X-Proxy-Date` come from the record; no upstream request is made |
| Service.MissAsksUpstream | pkg/service/service.go:78-86 | a miss moves the miss counter by one and not the hit counter, and sends GET to the identifier's URL with every inbound header value |
| Service.PassthroughMirrorsUpstream | pkg/service/service.go:89-102 | a recognised non-200 answer gives the client that status, every upstream header value after the markers, and the upstream body unless the request was HEAD; nothing is logged or committed |
| Service.UnrecognisedNon200Dropped | pkg/service/service.go:89-103 | should `errors.Is` not match, a non-200 answer gives status 200 with the markers only and an empty body, and nothing is committed |
| Service.SuccessStreamsAndCommits | pkg/service/service.go:104-119 | a 200 answer gives that status and every upstream header value; the writer is given the whole body, whatever the request method and whether or not a read failed, and with upstream's `Content-Type` and `Docker-Content-Digest`; the log gets the body for manifests only; the client gets it unless the request was HEAD |
| Service.HeadOnlyWithholdsClientBody | pkg/service/service.go:97-116 | on a miss, HEAD differs from GET only in the client's body, which is empty |
| Service.SecondRequestHits | pkg/service/service.go:65-119 | after a successful miss is committed, the next request for the identifier is a hit; it serves the same bytes with upstream's content type and asks upstream nothing |
| Service.FailedCacheWriteServesEmpty | pkg/service/service.go:65-119 | when the cache's writes fail the writer is still closed, so the next request for the identifier is a hit that serves an empty body and asks upstream nothing |
| Service.ResponseWriter.WriteHeader | pkg/service/service.go:108 | the first status written is kept; later calls and the header are unaffected |
| Service.CacheydService.ServeHit | pkg/service/service.go:68-74 | the four record headers are added and the cached bytes are copied to the client |
| Service.CacheydService.Mirror | pkg/service/service.go:94-99 | the upstream header is copied, the status is set, and the body is copied unless the request was HEAD |
| Service.CacheydService.Fanout | pkg/service/service.go:110-118 | the body goes to the cache writer; to the log for a manifest; to the client unless HEAD |
| Service.CacheydService.StreamAndCommit | pkg/service/service.go:106-119 | the upstream header and status are copied; the body is fanned out; the writer is closed with upstream's content type and digest, and the content file is the whole body, or nothing when the store's writes fail |
| Service.CacheydService.ServeCached | pkg/service/service.go:65-76 | once the markers are on the header, a hit ends as `Serve` describes for that hit: one more hit, status 200, the record's headers and the cached bytes |
| Service.CacheydService.ServeUpstream | pkg/service/service.go:78-119 | once the markers are on the header, a miss ends as `Serve` describes for a miss: counted, asked upstream, then passed through, dropped, or streamed and committed |
| Service.CacheydService.ProxyMiss | pkg/service/service.go:81-119 | once the miss is counted, the request upstream and what follows end as `ServeMiss` describes: passed through, dropped, or streamed and committed |
| Service.CacheydService.ServeSuccess | pkg/service/service.go:104-119 | a 200 answer ends as `ServeMiss` describes: upstream's header and status, the body fanned out, and the writer closed with what it kept |
| Service.CacheydService.CacheOrProxy | pkg/service/service.go:54-120 | the client's header, status and body, the log, both counters, the upstream request and the cache directory end up as `Serve` says for the lookup of the current directory; the commit carries `Serve`'s bytes, or none when the store's writes fail |

## Left out

- `main.go` (the server, the `PORT` variable, the request log) is not part of this model.
- `GetManifest` and `GetBlob` only log and then call `cacheOrProxy`. `CacheOrProxy` stands for both.
- The HTTP client, TLS, DNS and `http.NewRequestWithContext` are left out. Each becomes the `upstream` function. A failure to build the request ends `proxy` like a transport failure and is a `TransportFailure` answer.
- The nil dereference on a transport failure (service.go lines 87 and 101) is a precondition of `Serve` and `CacheOrProxy`. What the server does after the panic is not modelled.
- `Non200Error` and its `Is` method are not part of this model. `errors.Is` is the parameter `non200Matches`.
- Prometheus counters are two unbounded natural-number fields.
- `log` output is left out, apart from manifest bodies, which go to the `audit` sink standing for `StdouteyBoi`.
- Regular-expression matching in gorilla/mux is replaced by the scanner: path-variable extraction and route selection are left out.
- The `FileCache` implementation is not part of this model. These stand in for it:
  - the lookup's error case is the `available` flag;
  - a sidecar is kept as the record its JSON encodes, so JSON encoding and decoding are left out;
  - file modification times are the strings passed as `now`;
  - `time.Time.String()` formatting is left out.
- Header-name canonicalisation in `Header.Add` and `Header.Get` is left out. Every name the service uses is already canonical.
- net/http's handling of a written response is left out:
  - discarding body bytes for HEAD responses;
  - freezing the header after `WriteHeader`;
  - the panic on status codes outside 100-999.

  The model records what the handler writes.
- `Close` of response bodies and readers is left out. It does not change what was read.
- Cache.CacheWriter: the content file's write either accepts every write or rejects every write, as the store's `writesFail` says. A write that starts failing part-way through would leave a partial file; the model does not capture that. The `FileCache` code is not part of this model, and the model assumes that `Close` always writes both the content file and the sidecar, even after every write was rejected. `Service.FailedCacheWriteServesEmpty` holds only under that assumption.
- Streams.Sink: a destination accepts every write or rejects every write. A destination that starts failing in the middle of a copy, such as a client that disconnects, is not modelled.
- Cache.Lookup: the sidecar record holds `contentType` and `dockerContentDigest`, which the test's JSON does not have (cache_test.go lines 29-34 and 45-50). The metadata fields' names in the real `FileCache` are not part of this model.
- Cache.Lookup: a file in the directory is tagged as content or as sidecar. A blob whose reference ends in `.json` can be committed under another blob's sidecar name. That other blob then becomes a miss, because its sidecar name holds a content file. The real `FileCache` would try to parse the bytes as JSON instead; that is not modelled.
- Concurrency is left out: concurrent misses on one key, request cancellation, partial files seen by other readers.
- Headers.Add: its own contract states only the key it adds to. What happens to the other keys is stated by `Headers.AddKeepsOthers`, and `Headers.Merge`'s meaning by `Headers.MergeValues`.
- Cache.SlashToUnderscore: its own contract states only the length. The character-by-character meaning is stated by `Cache.ReplaceAt`.
- Cache.ReadManifestFromCache and Cache.ReadBlobFromCache: the test writes files under the literal names it expects. The model writes them under `Key(id)`. `Cache.ManifestKeyExample` and `Cache.BlobKeyExample` prove those names equal.
- Service.CacheydService.CacheOrProxy: requires a response writer whose status has not been set, as net/http hands every handler. It also requires the log sink to differ from the client's.
- The `int64` counter `written` inside `readIntoWriters` and the `int64` size are unbounded integers.
