/**
  The persistent side of the blob store: content records, numbered references to the parts
  of a content, and the parts themselves.
 */
module BlobStore {
  import opened Wrappers
  import Journal

  type Uri = nat
  type Byte = x: int | 0 <= x < 256
  type Bytes = seq<Byte>
  /** The digest of the content; nothing is assumed about it. */
  type Digest = Bytes -> string

  /** A content record.  Its hash is null while its parts are being written. */
  datatype Content = Content(
    parent: Uri,
    ordinal: nat,
    path: Option<string>,
    contentType: Option<string>,
    length: Option<nat>,
    hash: Option<string>)

  /** Part number `part` of the content `dom` is the blob `sub`. */
  datatype Ref = Ref(dom: Uri, sub: Uri, part: nat)

  datatype State = State(contents: map<Uri, Content>, refs: map<Uri, Ref>, blobs: map<Uri, Bytes>)

  datatype Put =
    | PutContent(u: Uri, content: Content)
    | PutRef(r: Uri, ref: Ref)
    | PutBlob(b: Uri, value: Bytes)
    | DropContent(u: Uri)
    | DropRef(r: Uri)
    | DropBlob(b: Uri)

  function Apply(s: State, p: Put): State {
    match p
    case PutContent(u, c) => s.(contents := s.contents[u := c])
    case PutRef(r, ref) => s.(refs := s.refs[r := ref])
    case PutBlob(b, value) => s.(blobs := s.blobs[b := value])
    case DropContent(u) => s.(contents := s.contents - {u})
    case DropRef(r) => s.(refs := s.refs - {r})
    case DropBlob(b) => s.(blobs := s.blobs - {b})
  }

  function Replay(s: State, ps: seq<Put>): State {
    Journal.Replay(Apply, s, ps)
  }

  function Crash(s: State, ps: seq<Put>, k: nat): State {
    Journal.Crash(Apply, s, ps, k)
  }

  // ----- parts -----

  /** `parts` are all references of the content `u`, in order: they are numbered 1, 2, and so on. */
  ghost predicate Lists(s: State, u: Uri, parts: seq<Uri>) {
    && (forall i :: 0 <= i < |parts| ==>
          parts[i] in s.refs && s.refs[parts[i]].dom == u && s.refs[parts[i]].part == i + 1)
    && (forall r :: r in s.refs && s.refs[r].dom == u ==> r in parts)
  }

  /** Every reference resolves to a blob, and no two to the same one. */
  ghost predicate Resolves(s: State) {
    && (forall r :: r in s.refs ==> s.refs[r].sub in s.blobs)
    && (forall r, q :: r in s.refs && q in s.refs && s.refs[r].sub == s.refs[q].sub ==> r == q)
  }

  ghost predicate Readable(s: State, parts: seq<Uri>) {
    forall r :: r in parts ==> r in s.refs && s.refs[r].sub in s.blobs
  }

  ghost function Joined(s: State, parts: seq<Uri>): Bytes
    requires Readable(s, parts)
  {
    if parts == [] then []
    else Joined(s, parts[..|parts| - 1]) + s.blobs[s.refs[parts[|parts| - 1]].sub]
  }

  /** The parts of the content are complete if its hash is set. */
  ghost predicate PartsOk(md5: Digest, s: State, u: Uri, parts: seq<Uri>)
    requires u in s.contents && Resolves(s)
  {
    && Lists(s, u, parts)
    && Readable(s, parts)
    && (s.contents[u].hash.Some? ==>
          && s.contents[u].hash == Some(md5(Joined(s, parts)))
          && s.contents[u].length == Some(|Joined(s, parts)|))
  }

  /** What holds of the stored state between any two writes. */
  ghost predicate Inv(md5: Digest, s: State) {
    && Resolves(s)
    && forall u :: u in s.contents ==> exists parts :: PartsOk(md5, s, u, parts)
  }

  ghost predicate Joins(s: State, parts: seq<Uri>, bytes: Bytes) {
    Readable(s, parts) && Joined(s, parts) == bytes
  }

  /** The content `u` can be read, and its bytes are `bytes`. */
  ghost predicate Reads(s: State, u: Uri, parts: seq<Uri>, bytes: Bytes) {
    Lists(s, u, parts) && Joins(s, parts, bytes)
  }

  /** Identifiers below `next` have been used. */
  ghost predicate Used(s: State, next: nat) {
    && (forall u :: u in s.contents ==> u < next)
    && (forall r :: r in s.refs ==> r < next && s.refs[r].dom < next && s.refs[r].sub < next)
    && (forall b :: b in s.blobs ==> b < next)
  }

  // ----- uploads -----

  /** The bytes cut into parts of at most `limit` bytes. */
  function Chunks(bytes: Bytes, limit: nat): seq<Bytes>
    requires limit > 0
    decreases |bytes|
  {
    if bytes == [] then []
    else if |bytes| <= limit then [bytes]
    else [bytes[..limit]] + Chunks(bytes[limit..], limit)
  }

  function Concat(chunks: seq<Bytes>): Bytes {
    if chunks == [] then [] else chunks[0] + Concat(chunks[1..])
  }

  /** Each part is written as a blob and then a reference to it; identifiers from `next` on are new. */
  function UploadPuts(chunks: seq<Bytes>, dom: Uri, part: nat, next: nat): seq<Put>
    decreases |chunks|
  {
    if chunks == [] then []
    else [PutBlob(next, chunks[0]), PutRef(next + 1, Ref(dom, next, part))]
         + UploadPuts(chunks[1..], dom, part + 1, next + 2)
  }

  /** The last part is dropped first, and of each part the reference before the blob. */
  function DeletePuts(s: State, parts: seq<Uri>): seq<Put>
    requires forall r :: r in parts ==> r in s.refs
  {
    if parts == [] then []
    else
      var r := parts[|parts| - 1];
      [DropRef(r), DropBlob(s.refs[r].sub)] + DeletePuts(s, parts[..|parts| - 1])
  }

  /**
    The writes of one upload into the record `u`: the record with a null hash, the old parts
    dropped, the new parts written, and the record with its hash.
   */
  function ReplaceCommands(
      md5: Digest, s: State, u: Uri, c: Content, parts: seq<Uri>, bytes: Bytes, limit: nat, next: nat): seq<Put>
    requires limit > 0 && forall r :: r in parts ==> r in s.refs
  {
    [PutContent(u, c)] + DeletePuts(s, parts) + UploadPuts(Chunks(bytes, limit), u, 1, next)
    + [PutContent(u, c.(hash := Some(md5(bytes))))]
  }

  /** The reference `r` and its blob are the same in both states. */
  ghost predicate SamePart(s: State, s': State, r: Uri) {
    && (r in s.refs <==> r in s'.refs)
    && (r in s.refs && r in s'.refs ==>
          && s.refs[r] == s'.refs[r]
          && (s.refs[r].sub in s.blobs && s.refs[r].sub in s'.blobs ==>
                s.blobs[s.refs[r].sub] == s'.blobs[s.refs[r].sub]))
  }

  /** The other contents are as they were. */
  ghost predicate OthersSame(s: State, s': State, u: Uri) {
    && s.contents - {u} == s'.contents - {u}
    && (forall r :: (r in s.refs && s.refs[r].dom != u) || (r in s'.refs && s'.refs[r].dom != u) ==> SamePart(s, s', r))
  }
}
