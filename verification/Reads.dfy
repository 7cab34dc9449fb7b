/** Reading a release back: what a read returns, alone or while other calls are going on. */
module Reads {
  import opened Wrappers
  import opened SecretApi
  import opened Releases
  import opened Labels
  import opened Chunking
  import opened Protocol
  import opened Safety

  /* ---------- What an undisturbed read returns ---------- */

  /** The bytes the named chunk Secrets deliver, up to the first one that cannot be read. */
  function Fetch(s: Store, names: seq<string>): Bytes {
    if names == [] then []
    else if names[0] in s.secrets && "chunk" in s.secrets[names[0]].data
    then s.secrets[names[0]].data["chunk"] + Fetch(s, names[1..])
    else []
  }

  function DecodeIndex(env: Env, s: Store, index: Secret): Option<Release> {
    match OpenIndex(env, index)
    case None => None
    case Some((names, first)) =>
      match env.dec(first + Fetch(s, names))
      case None => None
      case Some(r) => Some(Stripped(r))
  }

  /** The result of a Get that meets no fault. */
  function ReadBack(env: Env, s: Store, key: string): Outcome {
    if key !in s.secrets then Err(ReleaseNotFound)
    else
      match DecodeIndex(env, s, s.secrets[key])
      case None => Err(ReadFailed)
      case Some(r) => Got(r)
  }

  /** What a process that is reading will come to if no fault happens. */
  function Foreseen(env: Env, s: Store, p: Proc): Outcome {
    match p
    case ReadingIndex(key, _) => ReadBack(env, s, key)
    case ReadingChunk(_, _, _, names, acc) =>
      (match env.dec(acc + Fetch(s, names))
       case None => Err(ReadFailed)
       case Some(r) => Got(Stripped(r)))
    case DeletingAll(_, _, found) => Got(found)
    case Finished(_, outcome, _) => outcome
    case _ => Err(RequestFailed)
  }

  /** What a read comes to when a request fails. */
  predicate FaultyRead(o: Outcome) {
    o == Err(ReadFailed) || o == Err(RequestFailed)
  }

  ghost predicate IsReading(p: Proc) {
    p.ReadingIndex? || (p.ReadingChunk? && p.names != [])
  }

  lemma DecodedForeseen(env: Env, s: Store, key: string, deleting: bool, index: Secret, acc: Bytes)
    ensures Foreseen(env, s, Decoded(env, key, deleting, index, acc)) ==
            match env.dec(acc) case None => Err(ReadFailed) case Some(r) => Got(Stripped(r))
  {
  }

  lemma AfterReadForeseen(env: Env, s: Store, key: string, deleting: bool, index: Secret, names: seq<string>,
                          acc: Bytes)
    ensures Foreseen(env, s, AfterRead(env, key, deleting, index, names, acc)) ==
            match env.dec(acc + Fetch(s, names)) case None => Err(ReadFailed) case Some(r) => Got(Stripped(r))
  {
    if names == [] {
      assert acc + Fetch(s, names) == acc;
      DecodedForeseen(env, s, key, deleting, index, acc);
    }
  }

  /** What a reading process that was to come to `x` has become: it goes on reading for the same purpose, or it has
      come to an end, or goes on to delete what it was to find; and without faults it still comes to `x`. */
  ghost predicate ReadsOn(env: Env, reliable: bool, s: Store, deleting: bool, x: Outcome, q: Proc) {
    && (IsReading(q) || q.Finished? || (q.DeletingAll? && deleting))
    && (IsReading(q) ==> q.deleting == deleting)
    && (deleting && q.Finished? ==> q.outcome.Err?)
    && (Foreseen(env, s, q) == x || (FaultyRead(Foreseen(env, s, q)) && !reliable))
  }

  lemma IndexAnswerReadsOn(env: Env, reliable: bool, a: Conf, resp: Response, b: Conf)
    requires a.proc.ReadingIndex? && Answered(env, reliable, a, resp, b)
    ensures b.store == a.store
    ensures ReadsOn(env, reliable, a.store, a.proc.deleting, Foreseen(env, a.store, a.proc), b.proc)
  {
    var ReadingIndex(key, deleting) := a.proc;
    if resp.Found? && OpenIndex(env, resp.secret).Some? {
      var (names, first) := OpenIndex(env, resp.secret).value;
      AfterReadForeseen(env, a.store, key, deleting, resp.secret, names, first);
    }
  }

  lemma ChunkAnswerReadsOn(env: Env, reliable: bool, a: Conf, resp: Response, b: Conf)
    requires CodecOk(env) && a.proc.ReadingChunk? && Answered(env, reliable, a, resp, b)
    ensures b.store == a.store
    ensures ReadsOn(env, reliable, a.store, a.proc.deleting, Foreseen(env, a.store, a.proc), b.proc)
  {
    var ReadingChunk(key, deleting, index, names, acc) := a.proc;
    if resp.Found? && "chunk" in resp.secret.data {
      var more := resp.secret.data["chunk"];
      AfterReadForeseen(env, a.store, key, deleting, index, names[1..], acc + more);
      assert acc + more + Fetch(a.store, names[1..]) == acc + (more + Fetch(a.store, names[1..]));
    } else {
      DecodedForeseen(env, a.store, key, deleting, index, acc);
      if env.dec(acc).Some? {
        Streaming(env, acc, Fetch(a.store, names));
      } else if reliable {
        assert acc + Fetch(a.store, names) == acc;
      }
    }
  }

  /** A reading step does not change what the process will come to, unless a request fails; and even then it
      comes to nothing else than an error. */
  lemma ReadStepForeseen(env: Env, reliable: bool, a: Conf, b: Conf)
    requires CodecOk(env) && IsReading(a.proc) && Step(env, reliable, a, b)
    ensures b.store == a.store
    ensures ReadsOn(env, reliable, a.store, a.proc.deleting, Foreseen(env, a.store, a.proc), b.proc)
  {
    var p := a.proc;
    if StopsReading(env, a, b) {
      Streaming(env, p.acc, Fetch(a.store, p.names));
      DecodedForeseen(env, a.store, p.key, p.deleting, p.index, p.acc);
    } else {
      var resp :| Answered(env, reliable, a, resp, b);
      if p.ReadingIndex? {
        IndexAnswerReadsOn(env, reliable, a, resp, b);
      } else {
        ChunkAnswerReadsOn(env, reliable, a, resp, b);
      }
    }
  }

  /** Any Get that succeeds returns the release an undisturbed read of the same store finds; without faults the
      outcomes are equal, errors included. */
  lemma {:induction false} GetReadsBack(env: Env, reliable: bool, run: seq<Conf>, key: string)
    requires CodecOk(env) && IsRun(env, reliable, run) && run[0].proc == StartGet(key)
    ensures Last(run).store == run[0].store
    ensures Last(run).proc.Finished? || (IsReading(Last(run).proc) && !Last(run).proc.deleting)
    ensures var o := Foreseen(env, run[0].store, Last(run).proc);
            o == ReadBack(env, run[0].store, key) || (FaultyRead(o) && !reliable)
    decreases |run|
  {
    if |run| > 1 {
      var before := run[..|run| - 1];
      GetReadsBack(env, reliable, before, key);
      assert Step(env, reliable, run[|run| - 2], run[|run| - 1]);
      ReadStepForeseen(env, reliable, Last(before), Last(run));
    }
  }

  /* ---------- Reads while other calls are going on ---------- */

  /** A read that has delivered the first pieces of `r` and has the names of the others. */
  ghost predicate HalfRead(env: Env, key: string, index: Secret, names: seq<string>, acc: Bytes, r: Release) {
    && IndexFor(env, key, r, index)
    && var pieces := ReleasePieces(env, r);
       |names| < |pieces|
       && names == NamesOf(ReleaseChunks(env, key, r))[|pieces| - |names|..]
       && acc == Join(pieces[..|pieces| - |names|])
  }

  ghost predicate ReadFrom(env: Env, key: string, index: Secret, r: Release, found: Release) {
    IndexFor(env, key, r, index) && found == Stripped(r)
  }

  ghost predicate ReaderOk(env: Env, U: set<Release>, p: Proc) {
    match p
    case ReadingChunk(key, _, index, names, acc) => exists r :: r in U && HalfRead(env, key, index, names, acc, r)
    case DeletingAll(key, index, found) => exists r :: r in U && ReadFrom(env, key, index, r, found)
    case Finished(key, Got(found), Some(index)) => exists r :: r in U && ReadFrom(env, key, index, r, found)
    case Finished(key, Got(found), None) => false
    case _ => true
  }

  /** The decoder never finds anything but the release the bytes belong to. */
  lemma DecodedOk(env: Env, U: set<Release>, key: string, deleting: bool, index: Secret, acc: Bytes, i: nat, r: Release)
    requires CodecOk(env) && r in U && IndexFor(env, key, r, index)
    requires i <= |ReleasePieces(env, r)| && acc == Join(ReleasePieces(env, r)[..i])
    ensures ReaderOk(env, U, Decoded(env, key, deleting, index, acc))
  {
    if env.dec(acc).Some? {
      var pieces := ReleasePieces(env, r);
      JoinSplit(pieces, i);
      PiecesJoin(env.enc(r).value, env.chunkSize);
      Streaming(env, acc, Join(pieces[i..]));
      assert env.dec(acc) == Some(r);
      assert ReadFrom(env, key, index, r, Stripped(r));
    }
  }

  lemma AfterReadOk(env: Env, U: set<Release>, key: string, deleting: bool, index: Secret,
                    names: seq<string>, acc: Bytes, r: Release)
    requires CodecOk(env) && r in U && HalfRead(env, key, index, names, acc, r)
    ensures ReaderOk(env, U, AfterRead(env, key, deleting, index, names, acc))
  {
    if names == [] {
      DecodedOk(env, U, key, deleting, index, acc, |ReleasePieces(env, r)|, r);
    }
  }

  lemma IndexNames(env: Env, key: string, r: Release, index: Secret)
    requires CodecOk(env) && IndexFor(env, key, r, index)
    ensures "extraChunks" in index.data && "chunk" in index.data
    ensures index.data["chunk"] == ReleasePieces(env, r)[0]
    ensures env.decNames(index.data["extraChunks"]) == Some(NamesOf(ReleaseChunks(env, key, r))[1..])
  {
    var chunks := ReleaseChunks(env, key, r);
    assert NamesOf(chunks[1..]) == NamesOf(chunks)[1..];
  }

  lemma AfterIndexReads(env: Env, U: set<Release>, s: Store, key: string, deleting: bool)
    requires CodecOk(env) && StoreOk(env, U, s) && key in s.secrets
    ensures ReaderOk(env, U, AfterIndex(env, key, deleting, s.secrets[key]))
  {
    var index := s.secrets[key];
    assert SecretOk(env, U, key, index);
    if ChunkShaped(key) {
      assert "extraChunks" !in index.data;
    } else {
      var r :| r in U && IndexFor(env, key, r, index);
      var pieces := ReleasePieces(env, r);
      IndexNames(env, key, r, index);
      JoinOne(pieces[0]);
      assert pieces[..1] == [pieces[0]];
      if OpenIndex(env, index).Some? {
        var (names, first) := OpenIndex(env, index).value;
        AfterReadOk(env, U, key, deleting, index, names, first, r);
      }
    }
  }

  /** A chunk Secret that is found by name holds the piece the name was made for. */
  lemma FoundChunk(env: Env, U: set<Release>, s: Store, key: string, piece: Bytes, n: string)
    requires HashOk(env) && CollisionFree(env, U) && StoreOk(env, U, s) && piece in AllPieces(env, U)
    requires n == ChunkName(env, key, piece) && n in s.secrets
    ensures s.secrets[n].data == map["chunk" := piece]
  {
    var x := s.secrets[n];
    ChunkNameShape(env, key, piece);
    assert SecretOk(env, U, n, x);
    var d := x.data["chunk"];
    ChunkNameShape(env, key, d);
    assert env.hash(d) == env.hash(piece);
    assert x.data == map["chunk" := d];
  }

  lemma HalfReadNext(env: Env, key: string, index: Secret, names: seq<string>, acc: Bytes, r: Release)
    requires HalfRead(env, key, index, names, acc, r) && names != []
    ensures var i := |ReleasePieces(env, r)| - |names|;
            && names[0] == ChunkName(env, key, ReleasePieces(env, r)[i])
            && HalfRead(env, key, index, names[1..], acc + ReleasePieces(env, r)[i], r)
  {
    var pieces, all := ReleasePieces(env, r), NamesOf(ReleaseChunks(env, key, r));
    var i := |pieces| - |names|;
    JoinNext(pieces, i);
    assert all[i..][1..] == all[i + 1..];
  }

  lemma ResumeWithPiece(env: Env, p: Proc, chunk: Secret, piece: Bytes)
    requires p.ReadingChunk? && p.names != [] && chunk.data == map["chunk" := piece]
    ensures Resume(env, p, Found(chunk)) == AfterRead(env, p.key, p.deleting, p.index, p.names[1..], p.acc + piece)
  {
  }

  /** The next chunk, if it is there, holds the next piece. */
  lemma NextPieceFound(env: Env, U: set<Release>, s: Store, p: Proc, r: Release, i: nat)
    requires HashOk(env) && CollisionFree(env, U) && StoreOk(env, U, s)
    requires p.ReadingChunk? && p.names != [] && r in U && HalfRead(env, p.key, p.index, p.names, p.acc, r)
    requires p.names[0] in s.secrets && i == |ReleasePieces(env, r)| - |p.names|
    ensures s.secrets[p.names[0]].data == map["chunk" := ReleasePieces(env, r)[i]]
    ensures HalfRead(env, p.key, p.index, p.names[1..], p.acc + ReleasePieces(env, r)[i], r)
  {
    HalfReadNext(env, p.key, p.index, p.names, p.acc, r);
    assert ReleasePieces(env, r)[i] in AllPieces(env, U);
    FoundChunk(env, U, s, p.key, ReleasePieces(env, r)[i], p.names[0]);
  }

  lemma ChunkRead(env: Env, U: set<Release>, s: Store, p: Proc, r: Release, chunk: Secret)
    requires EnvOk(env) && CollisionFree(env, U) && StoreOk(env, U, s)
    requires p.ReadingChunk? && p.names != [] && r in U && HalfRead(env, p.key, p.index, p.names, p.acc, r)
    requires p.names[0] in s.secrets && chunk == s.secrets[p.names[0]]
    ensures ReaderOk(env, U, Resume(env, p, Found(chunk)))
  {
    var i := |ReleasePieces(env, r)| - |p.names|;
    var piece, rest := ReleasePieces(env, r)[i], p.names[1..];
    NextPieceFound(env, U, s, p, r, i);
    ResumeWithPiece(env, p, chunk, piece);
    AfterReadOk(env, U, p.key, p.deleting, p.index, rest, p.acc + piece, r);
  }

  /** A read that ends half-way. */
  lemma HalfReadDecoded(env: Env, U: set<Release>, key: string, deleting: bool, index: Secret, names: seq<string>,
                        acc: Bytes, r: Release)
    requires CodecOk(env) && r in U && HalfRead(env, key, index, names, acc, r)
    ensures ReaderOk(env, U, Decoded(env, key, deleting, index, acc))
  {
    var i := |ReleasePieces(env, r)| - |names|;
    DecodedOk(env, U, key, deleting, index, acc, i, r);
  }

  lemma ChunkMissing(env: Env, U: set<Release>, p: Proc, r: Release, resp: Response)
    requires CodecOk(env) && !resp.Found?
    requires p.ReadingChunk? && p.names != [] && r in U && HalfRead(env, p.key, p.index, p.names, p.acc, r)
    ensures ReaderOk(env, U, Resume(env, p, resp))
  {
    HalfReadDecoded(env, U, p.key, p.deleting, p.index, p.names, p.acc, r);
  }

  lemma ChunkStepReads(env: Env, U: set<Release>, reliable: bool, a: Conf, resp: Response, b: Conf)
    requires EnvOk(env) && CollisionFree(env, U) && StoreOk(env, U, a.store)
    requires a.proc.ReadingChunk? && ReaderOk(env, U, a.proc) && Answered(env, reliable, a, resp, b)
    ensures ReaderOk(env, U, b.proc)
  {
    var p := a.proc;
    var r :| r in U && HalfRead(env, p.key, p.index, p.names, p.acc, r);
    if resp.Found? {
      FoundByName(env, reliable, a, resp, b);
      ChunkRead(env, U, a.store, p, r, resp.secret);
    } else {
      ChunkMissing(env, U, p, r, resp);
    }
  }

  lemma StopReads(env: Env, U: set<Release>, a: Conf, b: Conf)
    requires CodecOk(env) && ReaderOk(env, U, a.proc) && StopsReading(env, a, b)
    ensures ReaderOk(env, U, b.proc)
  {
    var ReadingChunk(key, deleting, index, names, acc) := a.proc;
    var r :| r in U && HalfRead(env, key, index, names, acc, r);
    HalfReadDecoded(env, U, key, deleting, index, names, acc, r);
  }

  /** One step of a reader, whatever the store has become since its last step. */
  lemma StepKeepsReader(env: Env, U: set<Release>, reliable: bool, a: Conf, b: Conf)
    requires EnvOk(env) && CollisionFree(env, U) && StoreOk(env, U, a.store) && ReaderOk(env, U, a.proc)
    requires Step(env, reliable, a, b)
    ensures ReaderOk(env, U, b.proc)
  {
    if StopsReading(env, a, b) {
      StopReads(env, U, a, b);
    } else {
      var resp :| Answered(env, reliable, a, resp, b);
      if a.proc.ReadingChunk? {
        ChunkStepReads(env, U, reliable, a, resp, b);
      } else if a.proc.ReadingIndex? && resp.Found? {
        FoundByName(env, reliable, a, resp, b);
        AfterIndexReads(env, U, a.store, a.proc.key, a.proc.deleting);
      } else if a.proc.DeletingAll? {
        assert b.proc.Finished?;
        assert ReaderOk(env, U, b.proc);
      } else {
        assert b.proc.Finished? ==> !b.proc.outcome.Got?;
        assert !b.proc.ReadingChunk? && !b.proc.DeletingAll?;
      }
    }
  }

  /** An index Secret determines the release it belongs to. */
  lemma IndexDeterminesRelease(env: Env, U: set<Release>, key: string, q: Release, r: Release, index: Secret)
    requires EnvOk(env) && CollisionFree(env, U) && q in U && r in U
    requires IndexFor(env, key, q, index) && IndexFor(env, key, r, index)
    ensures q == r
  {
    IndexNames(env, key, q, index);
    IndexNames(env, key, r, index);
    var x, y := ReleasePieces(env, q), ReleasePieces(env, r);
    var m, n := NamesOf(ReleaseChunks(env, key, q)), NamesOf(ReleaseChunks(env, key, r));
    assert |m| == |x| && |n| == |y| && m[1..] == n[1..];
    assert |m| == |m[1..]| + 1 == |n|;
    forall i | 0 <= i < |x|
      ensures x[i] == y[i]
    {
      if i > 0 {
        assert m[i] == m[1..][i - 1] == n[i];
        ChunkNameShape(env, key, x[i]);
        ChunkNameShape(env, key, y[i]);
        assert x[i] in AllPieces(env, U) && y[i] in AllPieces(env, U);
      }
    }
    assert x == y;
    PiecesJoin(env.enc(q).value, env.chunkSize);
    PiecesJoin(env.enc(r).value, env.chunkSize);
  }
}
