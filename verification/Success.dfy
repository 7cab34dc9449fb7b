/** When no request fails, a call succeeds exactly under the conditions stated here. */
module Success {
  import opened SecretApi
  import opened Releases
  import opened Labels
  import opened Chunking
  import opened Protocol
  import opened Safety
  import opened Reads
  import opened Interleaving
  import opened SingleCall
  import opened Results
  import opened Refinement

  /** No two of the release's further pieces have the same hash.  The first piece has no Secret of its own. */
  ghost predicate HashesDiffer(env: Env, r: Release) {
    var pieces := ReleasePieces(env, r);
    forall i, j :: 1 <= i < j < |pieces| ==> env.hash(pieces[i]) != env.hash(pieces[j])
  }

  lemma NamesDiffer(env: Env, key: string, r: Release, i: nat, j: nat)
    requires HashOk(env) && i < j < |ExtraChunks(env, key, r)|
    ensures var pieces, extra := ReleasePieces(env, r), ExtraChunks(env, key, r);
            extra[i].name == extra[j].name <==> env.hash(pieces[i + 1]) == env.hash(pieces[j + 1])
  {
    ChunkNameShape(env, key, ReleasePieces(env, r)[i + 1]);
    ChunkNameShape(env, key, ReleasePieces(env, r)[j + 1]);
  }

  /** The names of the further chunks are free exactly if no Secret has one of them already and their hashes
      differ. */
  lemma FreshIff(env: Env, t: Store, key: string, r: Release)
    requires HashOk(env)
    ensures AllFresh(t, ExtraChunks(env, key, r)) <==> HashesDiffer(env, r) && ExtraNames(env, key, r) !! t.secrets.Keys
  {
    if HashesDiffer(env, r) && ExtraNames(env, key, r) !! t.secrets.Keys {
      FreshIfDiffer(env, t, key, r);
    }
    if AllFresh(t, ExtraChunks(env, key, r)) {
      DifferIfFresh(env, t, key, r);
    }
  }

  lemma FreshIfDiffer(env: Env, t: Store, key: string, r: Release)
    requires HashOk(env) && HashesDiffer(env, r) && ExtraNames(env, key, r) !! t.secrets.Keys
    ensures AllFresh(t, ExtraChunks(env, key, r))
  {
    var extra := ExtraChunks(env, key, r);
    forall i | 0 <= i < |extra|
      ensures extra[i].name !in t.secrets && extra[i].name !in ChunkNames(extra, i)
    {
      assert extra[i].name in ExtraNames(env, key, r);
      forall h | 0 <= h < i
        ensures extra[h].name != extra[i].name
      {
        NamesDiffer(env, key, r, h, i);
      }
    }
  }

  lemma DifferIfFresh(env: Env, t: Store, key: string, r: Release)
    requires HashOk(env) && AllFresh(t, ExtraChunks(env, key, r))
    ensures HashesDiffer(env, r) && ExtraNames(env, key, r) !! t.secrets.Keys
  {
    var pieces, extra := ReleasePieces(env, r), ExtraChunks(env, key, r);
    forall i, j | 1 <= i < j < |pieces|
      ensures env.hash(pieces[i]) != env.hash(pieces[j])
    {
      NamesDiffer(env, key, r, i - 1, j - 1);
      assert extra[i - 1].name in ChunkNames(extra, j - 1);
    }
  }

  lemma NothingBelongs(env: Env, s: Store, m: map<string, Release>, key: string)
    requires Represents(env, s, m) && key !in m && !ChunkShaped(key)
    ensures forall n :: n in s.secrets ==> !BelongsTo(n, key)
  {
    forall n | n in s.secrets
      ensures !BelongsTo(n, key)
    {
      assert Explained(env, m, n);
    }
  }

  /** A fault-free Create of a free key, on any store, succeeds if and only if the release can be encoded, has no
      more chunks than may be written, no two of its further pieces have the same hash, and no Secret has the name of
      one of them, as one that a half-finished Delete has left behind may have. */
  lemma CreateSucceedsIff(env: Env, s: Store, key: string, r: Release, now: int, run: seq<Conf>)
    requires EnvOk(env) && key !in s.secrets
    requires OpRun(env, true, s, Create(key, r, now), run) && Last(run).proc.Finished?
    ensures Last(run).proc.outcome == Written <==>
              && env.enc(r).Some? && !TooLargeToWrite(env, r) && HashesDiffer(env, r)
              && ExtraNames(env, key, r) !! s.secrets.Keys
  {
    CreateResult(env, true, s, key, r, now, run);
    if ReleasePieces(env, r) != [] {
      FreshIff(env, WithIndex(env, s, key, r, now), key, r);
      ExtraNamesBelong(env, key, r);
    }
  }

  /** On a healthy store nothing is left behind, and only the release decides. */
  lemma HealthyCreateSucceedsIff(env: Env, s: Store, m: map<string, Release>, key: string, r: Release, now: int,
                                 run: seq<Conf>)
    requires EnvOk(env) && Represents(env, s, m) && key !in m && !ChunkShaped(key)
    requires OpRun(env, true, s, Create(key, r, now), run) && Last(run).proc.Finished?
    ensures Last(run).proc.outcome == Written <==>
              env.enc(r).Some? && !TooLargeToWrite(env, r) && HashesDiffer(env, r)
  {
    KeysOfMap(env, s, m, key);
    NothingBelongs(env, s, m, key);
    ExtraNamesBelong(env, key, r);
    CreateSucceedsIff(env, s, key, r, now, run);
  }

  /** What Update leaves before it writes: the key's index, which may be replaced, and none of its chunks. */
  lemma AfterDropping(env: Env, U: set<Release>, s: Store, key: string, r: Release, now: int)
    requires HashOk(env) && StoreOk(env, U, s) && key in s.secrets && !ChunkShaped(key)
    ensures key in WithoutChunks(env, s, key).secrets
    ensures ReleasePieces(env, r) != [] ==> UpdateAllowed(s.secrets[key], UpdatedIndex(env, s, key, r, now))
    ensures forall n :: n in WithoutChunks(env, s, key).secrets && BelongsTo(n, key) ==> n == key
  {
    forall n | n in s.secrets && BelongsTo(n, key)
      ensures n in Selected(s, ChunksForKeySelector(env.owner, key)) <==> n != key
      ensures n == key ==> s.secrets[n].typ == ChunkedIndex && !s.secrets[n].immutable
    {
      assert SecretOk(env, U, n, s.secrets[n]);
      SelectorMeaning(env.owner, key, s.secrets[n].labels);
    }
    assert BelongsTo(key, key);
  }

  /** A fault-free Update of a stored key, in whatever half-written state it is, succeeds if and only if the
      release can be encoded, has no more chunks than may be written, and no two of its further pieces have the
      same hash. */
  lemma UpdateSucceedsIff(env: Env, U: set<Release>, s: Store, key: string, r: Release, now: int, run: seq<Conf>)
    requires EnvOk(env) && StoreOk(env, U, s) && key in s.secrets && !ChunkShaped(key)
    requires OpRun(env, true, s, Update(key, r, now), run) && Last(run).proc.Finished?
    ensures Last(run).proc.outcome == Written <==>
              env.enc(r).Some? && !TooLargeToWrite(env, r) && HashesDiffer(env, r)
  {
    UpdateResult(env, true, s, key, r, now, run);
    AfterDropping(env, U, s, key, r, now);
    if ReleasePieces(env, r) != [] {
      FreshIff(env, WithNewIndex(env, s, key, r, now), key, r);
      ExtraNamesBelong(env, key, r);
    }
  }

  /** A fault-free Delete succeeds if and only if the release can be read. */
  lemma DeleteSucceedsIff(env: Env, s: Store, key: string, run: seq<Conf>)
    requires CodecOk(env) && OpRun(env, true, s, Delete(key), run) && Last(run).proc.Finished?
    ensures Last(run).proc.outcome == ReadBack(env, s, key)
    ensures Last(run).proc.outcome.Got? ==> Last(run).store == WithoutKey(env, s, key)
  {
    DeleteRun(env, true, s, key, run);
  }

  /** The condition on the hashes can fail without any collision: two further pieces that are equal have the same
      name.  Creating such a release fails although no request does, and leaves its index behind. */
  lemma EqualPiecesCannotBeStored(env: Env, s: Store, key: string, r: Release, now: int, run: seq<Conf>, i: nat, j: nat)
    requires EnvOk(env) && key !in s.secrets
    requires env.enc(r).Some? && !TooLargeToWrite(env, r)
    requires 1 <= i < j < |ReleasePieces(env, r)| && ReleasePieces(env, r)[i] == ReleasePieces(env, r)[j]
    requires OpRun(env, true, s, Create(key, r, now), run) && Last(run).proc.Finished?
    ensures Last(run).proc.outcome == Err(RequestFailed) && key in Last(run).store.secrets
  {
    CreateSucceedsIff(env, s, key, r, now, run);
    assert Last(run).proc.outcome != Written;
    FailedCreate(env, s, key, r, now, run);
  }

  /** A fault-free Create of a free key that can be encoded ends in one of two ways. */
  lemma FailedCreate(env: Env, s: Store, key: string, r: Release, now: int, run: seq<Conf>)
    requires CodecOk(env) && key !in s.secrets && env.enc(r).Some? && !TooLargeToWrite(env, r)
    requires OpRun(env, true, s, Create(key, r, now), run) && Last(run).proc.Finished?
    requires Last(run).proc.outcome != Written
    ensures Last(run).proc.outcome == Err(RequestFailed) && key in Last(run).store.secrets
  {
    CreateResult(env, true, s, key, r, now, run);
    CreateRun(env, true, s, key, r, now, run);
  }

  lemma {:induction false} OneBytePieces(data: Bytes, k: nat)
    requires k < |data|
    ensures |Pieces(data, 1)| == |data| && Pieces(data, 1)[k] == [data[k]]
    decreases |data|
  {
    if |data| == 1 {
      assert data == [data[0]];
    } else {
      OneBytePieces(data[1..], if k > 0 then k - 1 else 0);
      assert data[..1] == [data[0]];
    }
  }

  /** Every gzip stream that carries no modification time (section 2.3 of RFC 1952) is such a release when chunks
      have one byte: the four bytes of the time are zero. */
  lemma OneByteChunksCannotHoldGzip(env: Env, s: Store, key: string, r: Release, now: int, run: seq<Conf>)
    requires EnvOk(env) && key !in s.secrets
    requires env.chunkSize == 1 && env.enc(r).Some? && !TooLargeToWrite(env, r)
    requires |env.enc(r).value| >= 8 && env.enc(r).value[4..8] == [0, 0, 0, 0]
    requires OpRun(env, true, s, Create(key, r, now), run) && Last(run).proc.Finished?
    ensures Last(run).proc.outcome == Err(RequestFailed) && key in Last(run).store.secrets
  {
    var data := env.enc(r).value;
    OneBytePieces(data, 4);
    OneBytePieces(data, 5);
    assert data[4] == data[4..8][0] && data[5] == data[4..8][1];
    EqualPiecesCannotBeStored(env, s, key, r, now, run, 4, 5);
  }
}
