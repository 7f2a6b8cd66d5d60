/** The object identifier that names a cached artifact (package `model`). */
module Model {
  import Wrappers

  /** `model.ObjectTypeManifest` and `model.ObjectTypeBlob`. */
  datatype ObjectType = Manifest | Blob

  /** `model.ObjectIdentifier`: where an artifact lives upstream and what kind it is. */
  datatype ObjectIdentifier = ObjectIdentifier(
    registry: string,
    repository: string,
    ref: string,
    kind: ObjectType)

  /** The header names of the `model` package, spelled canonically. */
  const HeaderContentLength := "Content-Length"
  const HeaderContentType := "Content-Type"
  const HeaderDockerContentDigest := "Docker-Content-Digest"

  /** The spelling of an object type in the metadata sidecar. */
  function TypeName(t: ObjectType): (s: string)
    ensures s == "manifest" || s == "blob"
    ensures (s == "manifest") <==> t.Manifest?
  {
    match t
    case Manifest => "manifest"
    case Blob => "blob"
  }

  /** Reading a sidecar's type field back. */
  function ParseTypeName(s: string): (t: Wrappers.Option<ObjectType>)
    ensures t.Some? <==> s == "manifest" || s == "blob"
  {
    if s == "manifest" then Wrappers.Some(Manifest)
    else if s == "blob" then Wrappers.Some(Blob)
    else Wrappers.None
  }

  /** The sidecar's type field reads back as the type it was written from. */
  lemma TypeNameRoundTrip(t: ObjectType)
    ensures ParseTypeName(TypeName(t)) == Wrappers.Some(t)
  {
  }
}
