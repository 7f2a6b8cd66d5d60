/**
 * The file cache (package `cache`): how an identifier becomes a file name,
 * the `.json` metadata sidecar beside each content file, and the store's
 * `GetCache` lookup, reader and commit. The directory is a map from file name
 * to file; a sidecar is kept as the record its JSON encodes.
 */
module Cache {
  import opened Wrappers
  import opened Model
  import opened Streams
  import ImageName

  /** The repository path with every '/' replaced by '_'. */
  function SlashToUnderscore(s: string): (r: string)
    ensures |r| == |s|
  {
    if s == [] then [] else [if s[0] == '/' then '_' else s[0]] + SlashToUnderscore(s[1..])
  }

  /** Each character is kept, except that '/' becomes '_'. */
  lemma {:induction false} ReplaceAt(s: string, i: nat)
    requires i < |s|
    ensures SlashToUnderscore(s)[i] == if s[i] == '/' then '_' else s[i]
  {
    if i > 0 {
      ReplaceAt(s[1..], i - 1);
    }
  }

  /**
   * The content file's name: `<registry>-m-<repository, '/' as '_'>-<ref>` for
   * a manifest, `<registry>-b-<ref>` for a blob.
   */
  function Key(id: ObjectIdentifier): string {
    match id.kind
    case Manifest => id.registry + "-m-" + SlashToUnderscore(id.repository) + "-" + id.ref
    case Blob => id.registry + "-b-" + id.ref
  }

  /** The metadata sidecar's file name. */
  function SidecarName(key: string): (name: string)
    ensures |name| == |key| + 5 && name[..|key|] == key && name[|key|..] == ".json"
  {
    key + ".json"
  }

  /** The bytes `6bytes`, the content both test cases store. */
  const SixBytes: Bytes := [54, 98, 121, 116, 101, 115]

  /** The blob reference of the cache's test. */
  const TestDigest := "sha256:41891b95aca23018ba65b320ff3ce10a98ee3cb39261f02fd74867c68414e814"

  /** A two-component path becomes its components joined by '_'. */
  lemma ReplaceTwoComponents(u: string, r: string)
    requires '/' !in u && '/' !in r
    ensures SlashToUnderscore(u + "/" + r) == u + "_" + r
  {
    ReplaceAppend(u, "/");
    ReplaceAppend(u + "/", r);
    NoSlashUnchanged(u);
    NoSlashUnchanged(r);
    assert SlashToUnderscore("/") == "_";
  }

  /** The test's repository, with its separator replaced. */
  lemma TestRepositoryReplaced()
    ensures SlashToUnderscore("user/repository") == "user_repository"
  {
    ReplaceTwoComponents("user", "repository");
    TestNameSpelling();
  }

  /** The manifest key the cache's test expects. */
  lemma ManifestKeyExample()
    ensures Key(ObjectIdentifier("docker.io", "user/repository", "v1.2.3", Manifest))
      == "docker.io-m-user_repository-v1.2.3"
  {
    TestRepositoryReplaced();
    TestNameSpelling();
  }

  /** The blob key the cache's test expects: `docker.io-b-` followed by the reference. */
  lemma BlobKeyExample()
    ensures Key(ObjectIdentifier("docker.io", "user/repository", TestDigest, Blob))
      == "docker.io-b-" + TestDigest
  {
    TestNameSpelling();
  }

  /** The test's manifest file name, spelled out piece by piece. */
  lemma TestNameSpelling()
    ensures "docker.io" + "-m-" + "user_repository" + "-" + "v1.2.3" == "docker.io-m-user_repository-v1.2.3"
    ensures "docker.io" + "-b-" == "docker.io-b-"
    ensures "user" + "/" + "repository" == "user/repository"
    ensures "user" + "_" + "repository" == "user_repository"
  {
    assert "docker.io" + "-b-" == "docker.io-b-";
    assert "docker.io" + "-m-" == "docker.io-m-";
    assert "docker.io-m-" + "user_repository" == "docker.io-m-user_repository";
    assert "docker.io-m-user_repository" + "-" + "v1.2.3" == "docker.io-m-user_repository-v1.2.3";
  }

  /** The replacement works character by character, so it distributes over concatenation. */
  lemma {:induction false} ReplaceAppend(a: string, b: string)
    ensures SlashToUnderscore(a + b) == SlashToUnderscore(a) + SlashToUnderscore(b)
  {
    if a == [] {
      assert a + b == b;
    } else {
      assert (a + b)[1..] == a[1..] + b;
      ReplaceAppend(a[1..], b);
    }
  }

  /** A path without '/' is its own replacement. */
  lemma {:induction false} NoSlashUnchanged(s: string)
    requires '/' !in s
    ensures SlashToUnderscore(s) == s
  {
    if s != [] {
      assert s[0] in s;
      assert forall c :: c in s[1..] ==> c in s;
      NoSlashUnchanged(s[1..]);
      assert s == [s[0]] + s[1..];
    }
  }

  /** A blob's key does not depend on its repository. */
  lemma BlobKeyIgnoresRepository(a: ObjectIdentifier, b: ObjectIdentifier)
    requires a.kind == Blob && b.kind == Blob && a.registry == b.registry && a.ref == b.ref
    ensures Key(a) == Key(b)
  {
  }

  /** Within one registry a manifest's key never equals a blob's: the kind marker differs. */
  lemma KindsNeverShareKey(m: ObjectIdentifier, b: ObjectIdentifier)
    requires m.kind == Manifest && b.kind == Blob && m.registry == b.registry
    ensures Key(m) != Key(b)
  {
    var n := |m.registry|;
    assert Key(m)[n + 1] == 'm';
    assert Key(b)[n + 1] == 'b';
  }

  /**
   * A key is a single file name (it has no '/') whenever the registry and the
   * reference have none: the repository's separators are all replaced.
   */
  lemma KeyIsFileName(id: ObjectIdentifier)
    requires '/' !in id.registry && '/' !in id.ref
    ensures '/' !in Key(id)
  {
    var u := SlashToUnderscore(id.repository);
    assert '/' !in u by {
      forall i | 0 <= i < |u| ensures u[i] != '/' {
        ReplaceAt(id.repository, i);
      }
    }
  }

  /**
   * Keys are not injective on the names the router admits: `user/repository`
   * and `user_repository` are both valid and their manifests share a key.
   */
  lemma ManifestKeysCollide()
    ensures exists a: ObjectIdentifier, b: ObjectIdentifier ::
      && a != b
      && ImageName.IsRepositoryName(a.repository)
      && ImageName.IsRepositoryName(b.repository)
      && Key(a) == Key(b)
  {
    assert ImageName.IsRun("user") && ImageName.IsRun("repository");
    CollidingPair("user", "repository");
  }

  /** `u/r` and `u_r`, for two alphanumeric runs, are distinct valid names whose manifests share a key. */
  lemma CollidingPair(u: string, r: string)
    requires ImageName.IsRun(u) && ImageName.IsRun(r)
    ensures var a := ObjectIdentifier("docker.io", u + "/" + r, "latest", Manifest);
      var b := ObjectIdentifier("docker.io", u + "_" + r, "latest", Manifest);
      && a != b
      && ImageName.IsRepositoryName(a.repository)
      && ImageName.IsRepositoryName(b.repository)
      && Key(a) == Key(b)
  {
    ImageName.RunIsName(u);
    ImageName.RunIsName(r);
    ImageName.JoinIsName(u, "/", r);
    ImageName.JoinIsName(u, "_", r);
    assert (u + "/" + r)[|u|] == '/' && (u + "_" + r)[|u|] == '_';
    assert !ImageName.IsAlnum('/');
    SharedManifestKey("docker.io", u, r, "latest");
  }

  /** The manifests of `u/r` and `u_r` have the same key when neither part has a '/'. */
  lemma SharedManifestKey(registry: string, u: string, r: string, ref: string)
    requires '/' !in u && '/' !in r
    ensures Key(ObjectIdentifier(registry, u + "/" + r, ref, Manifest))
      == Key(ObjectIdentifier(registry, u + "_" + r, ref, Manifest))
  {
    ReplaceTwoComponents(u, r);
    assert '/' !in u + "_" + r;
    NoSlashUnchanged(u + "_" + r);
  }

  /**
   * Nor are content and sidecar names kept apart: a blob whose reference ends
   * in `.json` has the name of another blob's sidecar.
   */
  lemma SidecarMayShadowContent()
    ensures exists a: ObjectIdentifier, b: ObjectIdentifier :: SidecarName(Key(a)) == Key(b)
  {
    var a := ObjectIdentifier("docker.io", "r", "sha256:1", Blob);
    var b := ObjectIdentifier("docker.io", "r", "sha256:1.json", Blob);
    assert SidecarName(Key(a)) == Key(b);
  }

  /** The sidecar record: the identifier's four fields, and the two headers saved at commit. */
  datatype Metadata = Metadata(
    registry: string,
    repository: string,
    ref: string,
    typeName: string,
    contentType: string,
    dockerContentDigest: string)

  /** A file in the cache directory. */
  datatype Entry =
    | Content(data: Bytes, modified: string)
    | Sidecar(meta: Metadata)

  function MetadataFor(id: ObjectIdentifier, contentType: string, digest: string): Metadata {
    Metadata(id.registry, id.repository, id.ref, TypeName(id.kind), contentType, digest)
  }

  /** The identifier a sidecar records, when its type field is one of the two names. */
  function RecordedObject(m: Metadata): (r: Option<ObjectIdentifier>)
    ensures r.Some? ==> r.value.registry == m.registry && r.value.repository == m.repository && r.value.ref == m.ref
  {
    match ParseTypeName(m.typeName)
    case None => None
    case Some(t) => Some(ObjectIdentifier(m.registry, m.repository, m.ref, t))
  }

  /** A sidecar written for an identifier records exactly that identifier. */
  lemma MetadataRoundTrip(id: ObjectIdentifier, contentType: string, digest: string)
    ensures RecordedObject(MetadataFor(id, contentType, digest)) == Some(id)
  {
    TypeNameRoundTrip(id.kind);
  }

  /** `model.CachedObject`: what a hit hands back. */
  datatype CachedObject = CachedObject(
    sizeBytes: nat,
    cacheDate: string,
    contentType: string,
    dockerContentDigest: string,
    data: Bytes)

  /** The three ways a lookup ends. */
  datatype LookupResult = StoreFault | Hit(cached: CachedObject) | Miss

  /**
   * What `GetCache` finds: an error when the store cannot be read; a hit when
   * both the content file and its sidecar are present; a miss otherwise. The
   * cached object's size is the content file's length.
   */
  function Lookup(files: map<string, Entry>, available: bool, id: ObjectIdentifier): (r: LookupResult)
    ensures r.StoreFault? <==> !available
    ensures r.Hit? <==>
      && available
      && Key(id) in files && files[Key(id)].Content?
      && SidecarName(Key(id)) in files && files[SidecarName(Key(id))].Sidecar?
    ensures r.Hit? ==>
      && r.cached.data == files[Key(id)].data
      && r.cached.sizeBytes == |r.cached.data|
      && r.cached.cacheDate == files[Key(id)].modified
      && r.cached.contentType == files[SidecarName(Key(id))].meta.contentType
      && r.cached.dockerContentDigest == files[SidecarName(Key(id))].meta.dockerContentDigest
  {
    var key, side := Key(id), SidecarName(Key(id));
    if !available then StoreFault
    else if key in files && files[key].Content? && side in files && files[side].Sidecar? then
      var content, meta := files[key], files[side].meta;
      Hit(CachedObject(|content.data|, content.modified, meta.contentType, meta.dockerContentDigest, content.data))
    else Miss
  }

  /** The directory after a writer for `id` is closed: content file and sidecar both written. */
  function Commit(files: map<string, Entry>, id: ObjectIdentifier, data: Bytes,
                  contentType: string, digest: string, now: string): map<string, Entry>
  {
    files[Key(id) := Content(data, now)][SidecarName(Key(id)) := Sidecar(MetadataFor(id, contentType, digest))]
  }

  /** An identifier that was never committed is a miss. */
  lemma NeverCommittedIsMiss(files: map<string, Entry>, id: ObjectIdentifier)
    requires Key(id) !in files
    ensures Lookup(files, true, id) == Miss
  {
  }

  /** After a commit the identifier is a hit that serves exactly the committed bytes. */
  lemma CommitThenHit(files: map<string, Entry>, id: ObjectIdentifier, data: Bytes,
                      contentType: string, digest: string, now: string)
    ensures Lookup(Commit(files, id, data, contentType, digest, now), true, id)
      == Hit(CachedObject(|data|, now, contentType, digest, data))
  {
    var key := Key(id);
    assert SidecarName(key) != key by {
      assert |SidecarName(key)| != |key|;
    }
  }

  /** Committing the same bytes twice leaves the directory as committing once does. */
  lemma CommitIdempotent(files: map<string, Entry>, id: ObjectIdentifier, data: Bytes,
                         contentType: string, digest: string, now: string)
    ensures var once := Commit(files, id, data, contentType, digest, now);
      Commit(once, id, data, contentType, digest, now) == once
  {
  }

  /**
   * Committing the same bytes again at a later time replaces the first commit:
   * the hit keeps its data, size, content type and digest, and only its cache
   * date moves to the new time.
   */
  lemma RecommitMovesOnlyDate(files: map<string, Entry>, id: ObjectIdentifier, data: Bytes,
                              contentType: string, digest: string, first: string, later: string)
    ensures var once := Commit(files, id, data, contentType, digest, first);
      && Commit(once, id, data, contentType, digest, later) == Commit(files, id, data, contentType, digest, later)
      && Lookup(once, true, id).Hit?
      && Lookup(Commit(once, id, data, contentType, digest, later), true, id)
         == Hit(Lookup(once, true, id).cached.(cacheDate := later))
  {
    var once := Commit(files, id, data, contentType, digest, first);
    CommitThenHit(files, id, data, contentType, digest, first);
    CommitThenHit(once, id, data, contentType, digest, later);
  }

  /** A commit does not change the lookup of an identifier whose two files it does not touch. */
  lemma CommitLeavesOthers(files: map<string, Entry>, id: ObjectIdentifier, other: ObjectIdentifier,
                           data: Bytes, contentType: string, digest: string, now: string)
    requires Key(other) != Key(id) && Key(other) != SidecarName(Key(id))
    requires SidecarName(Key(other)) != Key(id) && SidecarName(Key(other)) != SidecarName(Key(id))
    ensures Lookup(Commit(files, id, data, contentType, digest, now), true, other) == Lookup(files, true, other)
  {
  }

  /** The answers a reader over a cached object gives: all of its bytes, then `io.EOF`. */
  function ReaderScript(c: CachedObject): seq<ReadStep> {
    [ReadStep(c.data, None)]
  }

  /** Reading a cached object to the end yields exactly its bytes, without error. */
  lemma ReaderYieldsContent(c: CachedObject)
    ensures Payload(ReaderScript(c)) == c.data
    ensures Ending(ReaderScript(c)) == EOF
  {
    assert ReaderScript(c)[1..] == [];
  }

  /** `CachedObject.GetReader`: a fresh reader positioned at the first byte. */
  method GetReader(c: CachedObject) returns (r: Reader, err: Option<string>)
    ensures fresh(r) && r.pending == ReaderScript(c) && err == None
  {
    r := new Reader(ReaderScript(c));
    err := None;
  }

  /**
   * The cache directory. `available` is false when the store cannot be read;
   * `writesFail` is true when writes into it fail, so that the writers it
   * hands out reject every byte.
   */
  class FileCache {
    var files: map<string, Entry>
    var available: bool
    const writesFail: bool

    constructor (available: bool, writesFail: bool)
      ensures files == map[] && this.available == available && this.writesFail == writesFail
    {
      files := map[];
      this.available := available;
      this.writesFail := writesFail;
    }

    /** Writing a file into the directory, as the cache's test does to prepare it. */
    method WriteFile(name: string, e: Entry)
      modifies this
      ensures files == old(files)[name := e] && available == old(available)
    {
      files := files[name := e];
    }

    /**
     * `GetCache(id)`: an error and nothing else when the store cannot be read;
     * otherwise the cached object on a hit and, in every case, a fresh writer
     * for the identifier (the code returns one on a hit too).
     */
    method GetCache(id: ObjectIdentifier) returns (cached: Option<CachedObject>, writer: CacheWriter?, err: Option<string>)
      ensures var r := Lookup(files, available, id);
        && (err.Some? <==> r.StoreFault?)
        && (cached.Some? <==> r.Hit?)
        && (r.Hit? ==> cached.value == r.cached)
        && (writer != null <==> !r.StoreFault?)
      ensures writer != null ==>
        && fresh(writer) && fresh(writer.staged)
        && writer.store == this && writer.id == id
        && writer.staged.written == [] && writer.staged.failing == writesFail
    {
      var r := Lookup(files, available, id);
      if r.StoreFault? {
        return None, null, Some("cache directory cannot be read");
      }
      writer := new CacheWriter(this, id);
      cached := if r.Hit? then Some(r.cached) else None;
      err := None;
    }
  }

  /**
   * The write sink `GetCache` hands out: the bytes `staged` accepted become
   * the content file when `Close` is called; it rejects every write when the
   * store's writes fail.
   */
  class CacheWriter {
    const store: FileCache
    const id: ObjectIdentifier
    const staged: Sink

    constructor (store: FileCache, id: ObjectIdentifier)
      ensures this.store == store && this.id == id
      ensures fresh(staged) && staged.written == [] && staged.failing == store.writesFail
    {
      this.store := store;
      this.id := id;
      staged := new Sink(store.writesFail);
    }

    /**
     * `Close(contentType, digest)`: write the staged bytes as the content file
     * and the sidecar beside it. `now` is the modification time the file gets.
     */
    method Close(contentType: string, digest: string, now: string)
      modifies store
      ensures store.files == Commit(old(store.files), id, staged.written, contentType, digest, now)
      ensures store.available == old(store.available)
    {
      store.files := Commit(store.files, id, staged.written, contentType, digest, now);
    }
  }

  /**
   * The cache's own test: with an identifier's content file and sidecar in
   * place, `GetCache` reports no error, hands out a writer and a cached object
   * as long as the content, and reading the object's reader to the end, as
   * `io.ReadAll` does, yields exactly the content and no error.
   */
  method ReadFromCache(id: ObjectIdentifier, data: Bytes, now: string)
      returns (cached: Option<CachedObject>, writer: CacheWriter?, err: Option<string>,
               read: Bytes, readErr: Option<ReadError>)
    ensures err == None && writer != null && cached.Some?
    ensures cached.value.sizeBytes == |data| && cached.value.cacheDate == now
    ensures read == data && readErr == None
  {
    var store := new FileCache(true, false);
    store.WriteFile(Key(id), Content(data, now));
    store.WriteFile(SidecarName(Key(id)), Sidecar(MetadataFor(id, "", "")));
    assert SidecarName(Key(id)) != Key(id) by {
      assert |SidecarName(Key(id))| != |Key(id)|;
    }
    cached, writer, err := store.GetCache(id);
    var reader, rerr := GetReader(cached.value);
    ReaderYieldsContent(cached.value);
    var contents := new Sink(false);
    var copyErr, _, _ := ReadIntoWriters([contents], reader);
    readErr := copyErr;
    assert [contents][0] == contents;
    read := contents.written;
  }

  /**
   * The test's manifest case: the files it prepares are named by the key of
   * `docker.io`, `user/repository`, `v1.2.3`, and a read gives back the six bytes.
   */
  method ReadManifestFromCache(now: string)
      returns (cached: Option<CachedObject>, writer: CacheWriter?, err: Option<string>,
               read: Bytes, readErr: Option<ReadError>)
    ensures err == None && writer != null && cached.Some? && cached.value.sizeBytes == 6
    ensures read == SixBytes && readErr == None
  {
    cached, writer, err, read, readErr :=
      ReadFromCache(ObjectIdentifier("docker.io", "user/repository", "v1.2.3", Manifest), SixBytes, now);
  }

  /** The test's blob case, with the digest as reference. */
  method ReadBlobFromCache(now: string)
      returns (cached: Option<CachedObject>, writer: CacheWriter?, err: Option<string>,
               read: Bytes, readErr: Option<ReadError>)
    ensures err == None && writer != null && cached.Some? && cached.value.sizeBytes == 6
    ensures read == SixBytes && readErr == None
  {
    cached, writer, err, read, readErr :=
      ReadFromCache(ObjectIdentifier("docker.io", "user/repository", TestDigest, Blob), SixBytes, now);
  }
}
