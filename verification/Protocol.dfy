/** The chunked Secret storage driver as a protocol: every driver call is a process that sends one request at a
    time to the API server and continues according to the response.  The class in Driver.dfy is proved to follow
    this protocol; the lemmas about interleavings, crashes and failed requests are about it. */
module Protocol {
  import opened Wrappers
  import opened SecretApi
  import opened Releases
  import opened Labels
  import opened Hashing
  import opened Chunking

  /** The driver's configuration and the library code it calls.  `enc` and `dec` are JSON followed by gzip and
      the way back; `encNames` and `decNames` are the JSON form of a list of names; `dec` of a byte string is
      what the decoder returns when the stream delivers these bytes and then ends or breaks. */
  datatype Env = Env(
    owner: string,
    chunkSize: Positive,
    maxReadChunks: int,
    maxWriteChunks: int,
    hash: Bytes -> string,
    enc: Release -> Option<Bytes>,
    dec: Bytes -> Option<Release>,
    encNames: seq<string> -> Bytes,
    decNames: Bytes -> Option<seq<string>>)

  /** Every hash text has the fixed form. */
  ghost predicate HashOk(env: Env) {
    forall d :: IsHash(env.hash(d))
  }

  /** Assumptions about the library code: what was encoded can be decoded, and the decoder returns as soon as it
      has a whole value, so that more bytes never change a result it has already found. */
  ghost predicate CodecOk(env: Env) {
    && (forall r :: env.enc(r).Some? ==> env.enc(r).value != [] && env.dec(env.enc(r).value) == Some(r))
    && (forall x, y :: env.dec(x).Some? ==> env.dec(x + y) == env.dec(x))
    && (forall names :: env.decNames(env.encNames(names)) == Some(names))
  }

  ghost predicate EnvOk(env: Env) {
    HashOk(env) && CodecOk(env)
  }

  datatype Failure =
    | EncodeFailed
    | TooManyChunks
    | ReleaseExists
    | ReleaseNotFound
    | ReadFailed
    | RequestFailed

  datatype Outcome = Written | Got(rls: Release) | Err(failure: Failure)

  datatype Chunk = Chunk(name: string, data: Bytes)

  /* ---------- Names ---------- */

  function ChunkName(env: Env, key: string, data: Bytes): string {
    key + "-" + env.hash(data)
  }

  /** The names that chunk Secrets can have. */
  predicate ChunkShaped(n: string) {
    |n| > HASH_LENGTH && n[|n| - HASH_LENGTH - 1] == '-' && IsHash(n[|n| - HASH_LENGTH..])
  }

  function KeyOf(n: string): string
    requires ChunkShaped(n)
  {
    n[..|n| - HASH_LENGTH - 1]
  }

  /** A chunk's name determines its key and its hash, because the hash has a fixed length. */
  lemma ChunkNameShape(env: Env, key: string, data: Bytes)
    requires IsHash(env.hash(data))
    ensures ChunkShaped(ChunkName(env, key, data))
    ensures KeyOf(ChunkName(env, key, data)) == key
    ensures ChunkName(env, key, data)[|key| + 1..] == env.hash(data)
    ensures |key| < |ChunkName(env, key, data)|
  {
    var n := ChunkName(env, key, data);
    assert n == key + ("-" + env.hash(data));
    assert n[|n| - HASH_LENGTH..] == env.hash(data);
  }

  /** The keys Helm uses, a prefix followed by ".v" and the revision number, never look like a chunk's name. */
  lemma HelmKeyNotChunkShaped(prefix: string, revision: nat)
    ensures !ChunkShaped(prefix + ".v" + Itoa(revision))
  {
    var ds := Itoa(revision);
    ItoaDigits(revision);
    var n := prefix + ".v" + ds;
    var dash := |n| - HASH_LENGTH - 1;
    if |ds| > HASH_LENGTH {
      assert n[dash] == ds[|ds| - HASH_LENGTH - 1] && n[dash] in DIGITS && '-' !in DIGITS;
    } else if |ds| == HASH_LENGTH {
      assert n[dash] == 'v';
    } else if |ds| == HASH_LENGTH - 1 {
      assert n[dash + 1] == 'v' && n[dash] == '.';
    } else if dash >= 0 {
      var tail := n[|n| - HASH_LENGTH..];
      assert tail[HASH_LENGTH - |ds| - 2] == n[|prefix|] == '.';
      assert !IsHashChar('.');
    }
  }

  lemma {:induction false} ItoaDigits(n: nat)
    ensures forall i :: 0 <= i < |Itoa(n)| ==> Itoa(n)[i] in DIGITS
  {
    if n >= 10 {
      ItoaDigits(n / 10);
    }
  }

  /* ---------- Encoding ---------- */

  function ReleasePieces(env: Env, r: Release): (pieces: seq<Bytes>)
    ensures env.enc(r).Some? && env.enc(r).value != [] ==> pieces != []
  {
    if env.enc(r).None? then [] else Pieces(env.enc(r).value, env.chunkSize)
  }

  function ChunksOf(env: Env, key: string, pieces: seq<Bytes>): (chunks: seq<Chunk>)
    ensures |chunks| == |pieces|
    ensures forall i :: 0 <= i < |pieces| ==> chunks[i] == Chunk(ChunkName(env, key, pieces[i]), pieces[i])
  {
    seq(|pieces|, i requires 0 <= i < |pieces| => Chunk(ChunkName(env, key, pieces[i]), pieces[i]))
  }

  function ReleaseChunks(env: Env, key: string, r: Release): seq<Chunk>
  {
    ChunksOf(env, key, ReleasePieces(env, r))
  }

  function NamesOf(chunks: seq<Chunk>): (names: seq<string>)
    ensures |names| == |chunks|
    ensures forall i :: 0 <= i < |chunks| ==> names[i] == chunks[i].name
  {
    seq(|chunks|, i requires 0 <= i < |chunks| => chunks[i].name)
  }

  predicate TooLargeToWrite(env: Env, r: Release)
  {
    env.maxWriteChunks > 0 && |ReleasePieces(env, r)| > env.maxWriteChunks
  }

  function EncodeChunks(env: Env, key: string, r: Release): Result<seq<Chunk>, Failure>
  {
    if env.enc(r).None? then Error(EncodeFailed)
    else if TooLargeToWrite(env, r) then Error(TooManyChunks)
    else Ok(ReleaseChunks(env, key, r))
  }

  function IndexSecret(env: Env, key: string, r: Release, chunks: seq<Chunk>): Secret
    requires chunks != []
  {
    Secret(key, ChunkedIndex, IndexLabels(env.owner, key, r), None, false,
           map["extraChunks" := env.encNames(NamesOf(chunks[1..])), "chunk" := chunks[0].data], 0)
  }

  function ChunkSecret(env: Env, index: Secret, ch: Chunk): Secret {
    Secret(ch.name, ChunkedChunk, ChunkLabels(env.owner, index.name), Some(OwnerRef(index.name, index.uid)), true,
           map["chunk" := ch.data], 0)
  }

  function WithLabel(s: Secret, key: string, value: Option<string>): Secret {
    if value.None? then s else s.(labels := s.labels[key := value.value])
  }

  /** Reading a label that is not there gives the empty string. */
  function LabelOrEmpty(s: Secret, key: string): string {
    if key in s.labels then s.labels[key] else ""
  }

  /* ---------- Processes ---------- */

  /** A driver call between two requests.  `Finished.source` remembers the index Secret a result was read from;
      it has no influence on anything. */
  datatype Proc =
    | CreatingIndex(key: string, rls: Release, secret: Secret, rest: seq<Chunk>, createdAt: string)
    | CreatingChunk(key: string, rls: Release, index: Secret, todo: seq<Chunk>, chunkCreatedAt: Option<string>)
    | FindingIndex(key: string, rls: Release, modifiedAt: string)
    | DroppingChunks(key: string, rls: Release, modifiedAt: string, existing: Secret)
    | UpdatingIndex(key: string, rls: Release, secret: Secret, rest: seq<Chunk>)
    | ReadingIndex(key: string, deleting: bool)
    | ReadingChunk(key: string, deleting: bool, index: Secret, names: seq<string>, acc: Bytes)
    | DeletingAll(key: string, index: Secret, found: Release)
    | Finished(key: string, outcome: Outcome, source: Option<Secret>)

  function Fail(key: string, f: Failure): Proc {
    Finished(key, Err(f), None)
  }

  function StartCreate(env: Env, key: string, r: Release, now: int): Proc
  {
    match EncodeChunks(env, key, r)
    case Error(f) => Fail(key, f)
    case Ok(chunks) =>
      if chunks == [] then Fail(key, EncodeFailed)
      else CreatingIndex(key, r, WithLabel(IndexSecret(env, key, r, chunks), "createdAt", Some(Itoa(now))),
                         chunks[1..], Itoa(now))
  }

  function StartUpdate(key: string, r: Release, now: int): Proc {
    FindingIndex(key, r, Itoa(now))
  }

  function StartGet(key: string): Proc {
    ReadingIndex(key, false)
  }

  function StartDelete(key: string): Proc {
    ReadingIndex(key, true)
  }

  /** A process that has a request to send. */
  predicate Active(p: Proc) {
    && !p.Finished?
    && (p.CreatingChunk? ==> p.todo != [])
    && (p.ReadingChunk? ==> p.names != [])
  }

  function NextRequest(env: Env, p: Proc): Request
    requires Active(p)
  {
    match p
    case CreatingIndex(_, _, secret, _, _) => CreateSecret(secret)
    case CreatingChunk(_, _, index, todo, at) =>
      CreateSecret(WithLabel(ChunkSecret(env, index, todo[0]), "createdAt", at))
    case FindingIndex(key, _, _) => GetSecret(key)
    case DroppingChunks(_, _, _, existing) => DeleteCollection(ChunksForKeySelector(env.owner, existing.name))
    case UpdatingIndex(_, _, secret, _) => UpdateSecret(secret)
    case ReadingIndex(key, _) => GetSecret(key)
    case ReadingChunk(_, _, _, names, _) => GetSecret(names[0])
    case DeletingAll(key, _, _) => DeleteCollection(AllForKeySelector(env.owner, key))
  }

  function AfterWrite(key: string, r: Release, index: Secret, todo: seq<Chunk>, at: Option<string>): Proc {
    if todo == [] then Finished(key, Written, None) else CreatingChunk(key, r, index, todo, at)
  }

  /** Update encodes the new release only after the old chunks are gone. */
  function AfterDrop(env: Env, key: string, r: Release, modifiedAt: string, existing: Secret): Proc
  {
    match EncodeChunks(env, key, r)
    case Error(f) => Fail(key, f)
    case Ok(chunks) =>
      if chunks == [] then Fail(key, EncodeFailed)
      else
        var s := WithLabel(IndexSecret(env, key, r, chunks), "createdAt", Some(LabelOrEmpty(existing, "createdAt")));
        UpdatingIndex(key, r, WithLabel(s, "modifiedAt", Some(modifiedAt)), chunks[1..])
  }

  /** The decoder has seen `acc` and will see no more. */
  function Decoded(env: Env, key: string, deleting: bool, index: Secret, acc: Bytes): Proc {
    match env.dec(acc)
    case None => Fail(key, ReadFailed)
    case Some(r) =>
      if deleting then DeletingAll(key, index, Stripped(r)) else Finished(key, Got(Stripped(r)), Some(index))
  }

  function AfterRead(env: Env, key: string, deleting: bool, index: Secret, names: seq<string>, acc: Bytes): Proc {
    if names == [] then Decoded(env, key, deleting, index, acc) else ReadingChunk(key, deleting, index, names, acc)
  }

  /** The names of the further chunks and the first chunk, if the Secret can be read as an index at all. */
  function OpenIndex(env: Env, index: Secret): Option<(seq<string>, Bytes)> {
    if "extraChunks" !in index.data then None
    else
      match env.decNames(index.data["extraChunks"])
      case None => None
      case Some(names) =>
        if env.maxReadChunks > 0 && 1 + |names| > env.maxReadChunks then None
        else if "chunk" !in index.data then None
        else Some((names, index.data["chunk"]))
  }

  function AfterIndex(env: Env, key: string, deleting: bool, index: Secret): Proc {
    match OpenIndex(env, index)
    case None => Fail(key, ReadFailed)
    case Some((names, first)) => AfterRead(env, key, deleting, index, names, first)
  }

  function Resume(env: Env, p: Proc, resp: Response): Proc
    requires Active(p)
  {
    match p
    case CreatingIndex(key, r, _, rest, createdAt) =>
      (match resp
       case Found(index) => AfterWrite(key, r, index, rest, Some(createdAt))
       case AlreadyExists => Fail(key, ReleaseExists)
       case _ => Fail(key, RequestFailed))
    case CreatingChunk(key, r, index, todo, at) =>
      if resp.Found? then AfterWrite(key, r, index, todo[1..], at) else Fail(key, RequestFailed)
    case FindingIndex(key, r, modifiedAt) =>
      (match resp
       case Found(existing) => DroppingChunks(key, r, modifiedAt, existing)
       case NotFound => Fail(key, ReleaseNotFound)
       case _ => Fail(key, RequestFailed))
    case DroppingChunks(key, r, modifiedAt, existing) =>
      if resp.Deleted? then AfterDrop(env, key, r, modifiedAt, existing) else Fail(key, RequestFailed)
    case UpdatingIndex(key, r, _, rest) =>
      if resp.Found? then AfterWrite(key, r, resp.secret, rest, None) else Fail(key, RequestFailed)
    case ReadingIndex(key, deleting) =>
      (match resp
       case Found(index) => AfterIndex(env, key, deleting, index)
       case NotFound => Fail(key, ReleaseNotFound)
       case _ => Fail(key, RequestFailed))
    case ReadingChunk(key, deleting, index, names, acc) =>
      if resp.Found? && "chunk" in resp.secret.data
      then AfterRead(env, key, deleting, index, names[1..], acc + resp.secret.data["chunk"])
      else Decoded(env, key, deleting, index, acc)
    case DeletingAll(key, index, found) =>
      if resp.Deleted? then Finished(key, Got(found), Some(index)) else Fail(key, RequestFailed)
  }

  /** The store and one process. */
  datatype Conf = Conf(store: Store, proc: Proc)

  ghost predicate Answered(env: Env, reliable: bool, a: Conf, resp: Response, b: Conf)
  {
    && Active(a.proc)
    && Responds(reliable, a.store, NextRequest(env, a.proc), resp, b.store)
    && b.proc == Resume(env, a.proc, resp)
  }

  /** The decoder found a whole release before the stream ended. */
  ghost predicate StopsReading(env: Env, a: Conf, b: Conf) {
    && a.proc.ReadingChunk?
    && env.dec(a.proc.acc).Some?
    && b == Conf(a.store, Decoded(env, a.proc.key, a.proc.deleting, a.proc.index, a.proc.acc))
  }

  ghost predicate Step(env: Env, reliable: bool, a: Conf, b: Conf)
  {
    StopsReading(env, a, b) || exists resp :: Answered(env, reliable, a, resp, b)
  }

  /** A run of one process that nobody else disturbs. */
  ghost predicate IsRun(env: Env, reliable: bool, run: seq<Conf>)
  {
    run != [] && forall i :: 0 <= i < |run| - 1 ==> Step(env, reliable, run[i], run[i + 1])
  }

  function Last<T>(s: seq<T>): T
    requires s != []
  {
    s[|s| - 1]
  }

  lemma Streaming(env: Env, x: Bytes, y: Bytes)
    requires CodecOk(env) && env.dec(x).Some?
    ensures env.dec(x + y) == env.dec(x)
  {}
}
