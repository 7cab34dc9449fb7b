/** What a driver call that runs alone has done when it reports its result, and when it reports success. */
module Results {
  import opened Wrappers
  import opened SecretApi
  import opened Releases
  import opened Labels
  import opened Protocol
  import opened Reads
  import opened Interleaving
  import opened SingleCall

  /* ---------- Writing chunks one after the other ---------- */

  /** The store after the first `n` of the chunks were created. */
  function AddChunks(env: Env, s: Store, index: Secret, chunks: seq<Chunk>, n: nat, at: Option<string>): Store
    requires n <= |chunks|
  {
    if n == 0 then s
    else Insert(AddChunks(env, s, index, chunks, n - 1, at),
                WithLabel(ChunkSecret(env, index, chunks[n - 1]), "createdAt", at))
  }

  function AddAll(env: Env, s: Store, index: Secret, chunks: seq<Chunk>, at: Option<string>): Store {
    AddChunks(env, s, index, chunks, |chunks|, at)
  }

  predicate AllFresh(s: Store, chunks: seq<Chunk>) {
    Fresh(s, chunks, |chunks|)
  }

  /** The first `n` chunks' names are different from each other and not in use. */
  predicate Fresh(s: Store, chunks: seq<Chunk>, n: nat)
    requires n <= |chunks|
  {
    forall i :: 0 <= i < n ==> chunks[i].name !in s.secrets && chunks[i].name !in ChunkNames(chunks, i)
  }

  /** The Secret `x` holds the chunk `ch` of the release that `index` belongs to. */
  predicate ChunkFor(env: Env, x: Secret, index: Secret, ch: Chunk) {
    && x.name == ch.name && x.typ == ChunkedChunk && x.immutable && x.data == map["chunk" := ch.data]
    && Has(x.labels, "owner", env.owner) && Has(x.labels, "key", index.name) && Has(x.labels, "type", "chunk")
    && x.owner == Some(OwnerRef(index.name, index.uid))
  }

  function ChunkNames(chunks: seq<Chunk>, n: nat): set<string>
    requires n <= |chunks|
  {
    set i | 0 <= i < n :: chunks[i].name
  }

  lemma AddedKeys(env: Env, s: Store, index: Secret, chunks: seq<Chunk>, n: nat, at: Option<string>)
    requires n <= |chunks|
    ensures var s' := AddChunks(env, s, index, chunks, n, at);
            && s'.secrets.Keys == s.secrets.Keys + ChunkNames(chunks, n)
            && (WellNamed(s) ==> WellNamed(s'))
  {
    if n > 0 {
      AddedKeys(env, s, index, chunks, n - 1, at);
      assert ChunkNames(chunks, n) == ChunkNames(chunks, n - 1) + {chunks[n - 1].name};
    }
  }

  lemma NewChunkFor(env: Env, index: Secret, ch: Chunk, at: Option<string>, uid: nat)
    ensures ChunkFor(env, WithLabel(ChunkSecret(env, index, ch), "createdAt", at).(uid := uid), index, ch)
  {
  }

  /** Adding fresh chunks keeps every other Secret. */
  lemma {:induction false} AddedKeepsOthers(env: Env, s: Store, index: Secret, chunks: seq<Chunk>, n: nat,
                                            at: Option<string>)
    requires n <= |chunks| && Fresh(s, chunks, n)
    ensures forall m :: m in s.secrets ==>
              && m in AddChunks(env, s, index, chunks, n, at).secrets
              && AddChunks(env, s, index, chunks, n, at).secrets[m] == s.secrets[m]
  {
    if n > 0 {
      AddedKeepsOthers(env, s, index, chunks, n - 1, at);
    }
  }

  /** Adding fresh chunks stores each of them under its name. */
  lemma {:induction false} AddedChunk(env: Env, s: Store, index: Secret, chunks: seq<Chunk>, n: nat,
                                      at: Option<string>, i: nat)
    requires i < n <= |chunks| && Fresh(s, chunks, n)
    ensures chunks[i].name in AddChunks(env, s, index, chunks, n, at).secrets
    ensures var x := AddChunks(env, s, index, chunks, n, at).secrets[chunks[i].name];
            && ChunkFor(env, x, index, chunks[i])
            && x.labels == WithLabel(ChunkSecret(env, index, chunks[i]), "createdAt", at).labels
  {
    var t := AddChunks(env, s, index, chunks, n - 1, at);
    if i == n - 1 {
      NewChunkFor(env, index, chunks[i], at, t.nextUid);
    } else {
      AddedChunk(env, s, index, chunks, n - 1, at, i);
      assert chunks[i].name in ChunkNames(chunks, n - 1);
    }
  }

  /** The writer has created all of `all` but `todo`, starting from the store `s`. */
  ghost predicate Progress(env: Env, s: Store, index: Secret, all: seq<Chunk>, at: Option<string>, todo: seq<Chunk>,
                           now: Store) {
    && |todo| <= |all| && todo == all[|all| - |todo|..]
    && Fresh(s, all, |all| - |todo|)
    && now == AddChunks(env, s, index, all, |all| - |todo|, at)
  }

  /** How far a writer has come that writes the chunks `all` of `index` into the store `s`. */
  ghost predicate WritingChunks(env: Env, reliable: bool, s: Store, index: Secret, all: seq<Chunk>,
                                at: Option<string>, c: Conf) {
    match c.proc
    case CreatingChunk(_, _, i, todo, a) => i == index && a == at && todo != []
        && Progress(env, s, index, all, at, todo, c.store)
    case Finished(_, Written, _) => Progress(env, s, index, all, at, [], c.store)
    case Finished(_, Err(f), _) =>
      f == RequestFailed && (reliable ==> !AllFresh(s, all)) && s.secrets.Keys <= c.store.secrets.Keys
    case _ => false
  }

  lemma WritingStarts(env: Env, reliable: bool, s: Store, index: Secret, all: seq<Chunk>, at: Option<string>,
                      key: string, r: Release)
    ensures WritingChunks(env, reliable, s, index, all, at, Conf(s, AfterWrite(key, r, index, all, at)))
  {
    assert all[0..] == all;
    assert Progress(env, s, index, all, at, all, s);
  }

  lemma WritingEnds(env: Env, reliable: bool, s: Store, index: Secret, all: seq<Chunk>, at: Option<string>, c: Conf)
    requires WritingChunks(env, reliable, s, index, all, at, c) && c.proc.Finished?
    ensures c.proc.outcome == Written ==> AllFresh(s, all) && c.store == AddAll(env, s, index, all, at)
    ensures c.proc.outcome == Written
            || (c.proc.outcome == Err(RequestFailed) && (reliable ==> !AllFresh(s, all))
                && s.secrets.Keys <= c.store.secrets.Keys)
  {
    assert all[|all|..] == [];
  }

  /** The server has a Secret of the next name already exactly if the names are not fresh. */
  lemma NextIsFresh(env: Env, s: Store, index: Secret, all: seq<Chunk>, i: nat, at: Option<string>)
    requires i < |all| && Fresh(s, all, i)
    ensures all[i].name !in AddChunks(env, s, index, all, i, at).secrets ==> Fresh(s, all, i + 1)
    ensures all[i].name in AddChunks(env, s, index, all, i, at).secrets ==> !AllFresh(s, all)
  {
    AddedKeys(env, s, index, all, i, at);
  }

  /** The next chunk has been created. */
  lemma ChunkCreated(env: Env, s: Store, index: Secret, all: seq<Chunk>, at: Option<string>, todo: seq<Chunk>,
                     now: Store, next: Store)
    requires todo != [] && Progress(env, s, index, all, at, todo, now)
    requires todo[0].name !in now.secrets
    requires next == AddChunks(env, s, index, all, |all| - |todo| + 1, at)
    ensures Progress(env, s, index, all, at, todo[1..], next)
  {
    var i := |all| - |todo|;
    NextIsFresh(env, s, index, all, i, at);
    assert todo[1..] == all[i + 1..];
  }

  /** What the server does with the next chunk. */
  lemma ChunkAnswer(env: Env, reliable: bool, s: Store, index: Secret, all: seq<Chunk>, at: Option<string>, a: Conf,
                    b: Conf)
    requires a.proc.CreatingChunk? && a.proc.todo != [] && a.proc.index == index && a.proc.chunkCreatedAt == at
    requires Progress(env, s, index, all, at, a.proc.todo, a.store) && Step(env, reliable, a, b)
    ensures || (&& b.proc == AfterWrite(a.proc.key, a.proc.rls, index, a.proc.todo[1..], at)
                && a.proc.todo[0].name !in a.store.secrets
                && b.store == AddChunks(env, s, index, all, |all| - |a.proc.todo| + 1, at))
            || (&& b.proc == Fail(a.proc.key, RequestFailed) && a.store.secrets.Keys <= b.store.secrets.Keys
                && (reliable ==> a.proc.todo[0].name in a.store.secrets))
  {
    var resp :| Answered(env, reliable, a, resp, b);
    var i := |all| - |a.proc.todo|;
    assert a.proc.todo[0] == all[i];
  }

  /** A name that is already there ends the writing, and was there from the start or is there twice. */
  lemma ChunkRefused(env: Env, reliable: bool, s: Store, index: Secret, all: seq<Chunk>, at: Option<string>, a: Conf,
                     b: Conf)
    requires a.proc.CreatingChunk? && a.proc.todo != []
    requires Progress(env, s, index, all, at, a.proc.todo, a.store)
    requires b.proc == Fail(a.proc.key, RequestFailed) && a.store.secrets.Keys <= b.store.secrets.Keys
    requires reliable ==> a.proc.todo[0].name in a.store.secrets
    ensures WritingChunks(env, reliable, s, index, all, at, b)
  {
    var i := |all| - |a.proc.todo|;
    NextIsFresh(env, s, index, all, i, at);
    AddedKeys(env, s, index, all, i, at);
  }

  lemma ChunkStep(env: Env, reliable: bool, s: Store, index: Secret, all: seq<Chunk>, at: Option<string>, a: Conf,
                  b: Conf)
    requires a.proc.CreatingChunk? && WritingChunks(env, reliable, s, index, all, at, a)
    requires Step(env, reliable, a, b)
    ensures WritingChunks(env, reliable, s, index, all, at, b)
  {
    var todo := a.proc.todo;
    ChunkAnswer(env, reliable, s, index, all, at, a, b);
    if b.proc == AfterWrite(a.proc.key, a.proc.rls, index, todo[1..], at) {
      ChunkCreated(env, s, index, all, at, todo, a.store, b.store);
    } else {
      ChunkRefused(env, reliable, s, index, all, at, a, b);
    }
  }

  /* ---------- Create ---------- */

  function CreatedIndex(env: Env, s: Store, key: string, r: Release, now: int): Secret
    requires ReleasePieces(env, r) != []
  {
    WithLabel(IndexSecret(env, key, r, ReleaseChunks(env, key, r)), "createdAt", Some(Itoa(now))).(uid := s.nextUid)
  }

  function WithIndex(env: Env, s: Store, key: string, r: Release, now: int): Store
    requires ReleasePieces(env, r) != []
  {
    Put(s, CreatedIndex(env, s, key, r, now)).(nextUid := s.nextUid + 1)
  }

  /** The store after a Create that succeeds. */
  function CreatedStore(env: Env, s: Store, key: string, r: Release, now: int): Store
    requires ReleasePieces(env, r) != []
  {
    AddAll(env, WithIndex(env, s, key, r, now), CreatedIndex(env, s, key, r, now), ReleaseChunks(env, key, r)[1..],
           Some(Itoa(now)))
  }

  /** The release can be encoded, the key is not in use, and the chunks' names are free and different. */
  ghost predicate CanCreate(env: Env, s: Store, key: string, r: Release, now: int) {
    && EncodeChunks(env, key, r).Ok? && ReleasePieces(env, r) != [] && key !in s.secrets
    && AllFresh(WithIndex(env, s, key, r, now), ReleaseChunks(env, key, r)[1..])
  }

  ghost predicate CreateProgress(env: Env, reliable: bool, s: Store, key: string, r: Release, now: int, c: Conf) {
    if c.store == s && c.proc == StartCreate(env, key, r, now) then true
    else if c.proc == Fail(key, ReleaseExists) then c.store == s && key in s.secrets
    else if c.proc == Fail(key, RequestFailed) && !reliable then true
    else CreateWriting(env, reliable, s, key, r, now, c)
  }

  /** The progress after the index was created. */
  ghost predicate CreateWriting(env: Env, reliable: bool, s: Store, key: string, r: Release, now: int, c: Conf) {
    && ReleasePieces(env, r) != [] && EncodeChunks(env, key, r).Ok? && key !in s.secrets
    && WritingChunks(env, reliable, WithIndex(env, s, key, r, now), CreatedIndex(env, s, key, r, now),
                     ReleaseChunks(env, key, r)[1..], Some(Itoa(now)), c)
  }

  lemma CreateFirstStep(env: Env, reliable: bool, s: Store, key: string, r: Release, now: int, resp: Response, b: Conf)
    requires Answered(env, reliable, Conf(s, StartCreate(env, key, r, now)), resp, b)
    ensures CreateProgress(env, reliable, s, key, r, now, b)
  {
    if resp.Found? {
      var index, rest := CreatedIndex(env, s, key, r, now), ReleaseChunks(env, key, r)[1..];
      WritingStarts(env, reliable, WithIndex(env, s, key, r, now), index, rest, Some(Itoa(now)), key, r);
      assert b == Conf(WithIndex(env, s, key, r, now), AfterWrite(key, r, index, rest, Some(Itoa(now))));
      assert CreateWriting(env, reliable, s, key, r, now, b);
    } else if resp.AlreadyExists? {
      assert b.proc == Fail(key, ReleaseExists);
    } else {
      assert b.proc == Fail(key, RequestFailed);
    }
  }

  lemma CreateNextStep(env: Env, reliable: bool, s: Store, key: string, r: Release, now: int, a: Conf, b: Conf)
    requires CreateWriting(env, reliable, s, key, r, now, a) && Step(env, reliable, a, b)
    ensures CreateWriting(env, reliable, s, key, r, now, b)
  {
    ChunkStep(env, reliable, WithIndex(env, s, key, r, now), CreatedIndex(env, s, key, r, now),
              ReleaseChunks(env, key, r)[1..], Some(Itoa(now)), a, b);
  }

  lemma CreateStep(env: Env, reliable: bool, s: Store, key: string, r: Release, now: int, a: Conf, b: Conf)
    requires CreateProgress(env, reliable, s, key, r, now, a) && Step(env, reliable, a, b)
    ensures CreateProgress(env, reliable, s, key, r, now, b)
  {
    if a == Conf(s, StartCreate(env, key, r, now)) {
      var resp :| Answered(env, reliable, a, resp, b);
      CreateFirstStep(env, reliable, s, key, r, now, resp, b);
    } else {
      CreateNextStep(env, reliable, s, key, r, now, a, b);
    }
  }

  lemma {:induction false} CreateRun(env: Env, reliable: bool, s: Store, key: string, r: Release, now: int,
                                     run: seq<Conf>)
    requires OpRun(env, reliable, s, Create(key, r, now), run)
    ensures CreateProgress(env, reliable, s, key, r, now, Last(run))
    decreases |run|
  {
    if |run| > 1 {
      OpRunPrefix(env, reliable, s, Create(key, r, now), run);
      var before := run[..|run| - 1];
      CreateRun(env, reliable, s, key, r, now, before);
      CreateStep(env, reliable, s, key, r, now, Last(before), Last(run));
    }
  }

  /** A finished Create: what it has stored when it reports success, and, without faults, exactly when it does. */
  lemma CreateResult(env: Env, reliable: bool, s: Store, key: string, r: Release, now: int, run: seq<Conf>)
    requires CodecOk(env) && OpRun(env, reliable, s, Create(key, r, now), run) && Last(run).proc.Finished?
    ensures var o := Last(run).proc.outcome;
            && (o == Written ==> CanCreate(env, s, key, r, now) && Last(run).store == CreatedStore(env, s, key, r, now))
            && (o == Err(ReleaseExists) ==> key in s.secrets && Last(run).store == s)
            && !o.Got? && o != Err(ReleaseNotFound)
            && (reliable && CanCreate(env, s, key, r, now) ==> o == Written)
            && (reliable && o == Err(RequestFailed) ==> key in Last(run).store.secrets)
  {
    CreateRun(env, reliable, s, key, r, now, run);
    var c := Last(run);
    if c.proc != StartCreate(env, key, r, now) && c.proc != Fail(key, ReleaseExists)
       && (c.proc != Fail(key, RequestFailed) || reliable) {
      WritingEnds(env, reliable, WithIndex(env, s, key, r, now), CreatedIndex(env, s, key, r, now),
                  ReleaseChunks(env, key, r)[1..], Some(Itoa(now)), c);
    }
  }

  /* ---------- Update ---------- */

  /** The store after Update's first delete. */
  function WithoutChunks(env: Env, s: Store, key: string): Store {
    Without(s, Selected(s, ChunksForKeySelector(env.owner, key)))
  }

  function UpdatedIndex(env: Env, s: Store, key: string, r: Release, now: int): Secret
    requires ReleasePieces(env, r) != [] && key in s.secrets
  {
    var x := WithLabel(IndexSecret(env, key, r, ReleaseChunks(env, key, r)), "createdAt",
                       Some(LabelOrEmpty(s.secrets[key], "createdAt")));
    WithLabel(x, "modifiedAt", Some(Itoa(now))).(uid := s.secrets[key].uid)
  }

  function WithNewIndex(env: Env, s: Store, key: string, r: Release, now: int): Store
    requires ReleasePieces(env, r) != [] && key in s.secrets
  {
    Put(WithoutChunks(env, s, key), UpdatedIndex(env, s, key, r, now))
  }

  /** The store after an Update that succeeds. */
  function UpdatedStore(env: Env, s: Store, key: string, r: Release, now: int): Store
    requires ReleasePieces(env, r) != [] && key in s.secrets
  {
    AddAll(env, WithNewIndex(env, s, key, r, now), UpdatedIndex(env, s, key, r, now),
           ReleaseChunks(env, key, r)[1..], None)
  }

  /** The server accepts the new index, and the new chunks' names are free once the old chunks are gone. */
  ghost predicate CanUpdate(env: Env, s: Store, key: string, r: Release, now: int) {
    && EncodeChunks(env, key, r).Ok? && ReleasePieces(env, r) != []
    && key in WithoutChunks(env, s, key).secrets && UpdateAllowed(s.secrets[key], UpdatedIndex(env, s, key, r, now))
    && AllFresh(WithNewIndex(env, s, key, r, now), ReleaseChunks(env, key, r)[1..])
  }

  ghost predicate UpdateProgress(env: Env, reliable: bool, s: Store, key: string, r: Release, now: int, c: Conf) {
    match c.proc
    case FindingIndex(_, _, _) => c == Conf(s, StartUpdate(key, r, now))
    case DroppingChunks(k, q, m, existing) =>
      c.store == s && key in s.secrets && k == key && q == r && m == Itoa(now) && existing == s.secrets[key]
    case UpdatingIndex(_, _, _, _) =>
      && key in s.secrets && ReleasePieces(env, r) != [] && EncodeChunks(env, key, r).Ok?
      && c.store == WithoutChunks(env, s, key)
      && c.proc == AfterDrop(env, key, r, Itoa(now), s.secrets[key])
    case CreatingChunk(_, _, _, _, _) => UpdateWriting(env, reliable, s, key, r, now, c)
    case Finished(_, Written, _) => UpdateWriting(env, reliable, s, key, r, now, c)
    case Finished(_, Err(ReleaseNotFound), _) => c.store == s && key !in s.secrets
    case Finished(_, Err(f), _) => f != ReleaseExists && (reliable ==> !CanUpdate(env, s, key, r, now))
    case _ => false
  }

  ghost predicate UpdateWriting(env: Env, reliable: bool, s: Store, key: string, r: Release, now: int, c: Conf) {
    && key in s.secrets && ReleasePieces(env, r) != [] && EncodeChunks(env, key, r).Ok?
    && key in WithoutChunks(env, s, key).secrets && UpdateAllowed(s.secrets[key], UpdatedIndex(env, s, key, r, now))
    && WritingChunks(env, reliable, WithNewIndex(env, s, key, r, now), UpdatedIndex(env, s, key, r, now),
                     ReleaseChunks(env, key, r)[1..], None, c)
  }

  /** What the server does with the new index. */
  lemma IndexAnswer(env: Env, reliable: bool, s: Store, key: string, r: Release, now: int, a: Conf, b: Conf)
    requires a.proc.UpdatingIndex? && UpdateProgress(env, reliable, s, key, r, now, a) && Step(env, reliable, a, b)
    ensures var index := UpdatedIndex(env, s, key, r, now);
            || (&& b.store == WithNewIndex(env, s, key, r, now)
                && b.proc == AfterWrite(key, r, index, ReleaseChunks(env, key, r)[1..], None)
                && key in WithoutChunks(env, s, key).secrets && UpdateAllowed(s.secrets[key], index))
            || (b.proc == Fail(key, RequestFailed) && (reliable ==> !CanUpdate(env, s, key, r, now)))
  {
    var resp :| Answered(env, reliable, a, resp, b);
    if resp.Found? {
      assert resp.secret == UpdatedIndex(env, s, key, r, now) && b.store == WithNewIndex(env, s, key, r, now);
    } else if reliable {
      assert key !in a.store.secrets || !UpdateAllowed(s.secrets[key], UpdatedIndex(env, s, key, r, now));
    }
  }

  lemma UpdateIndexStep(env: Env, reliable: bool, s: Store, key: string, r: Release, now: int, a: Conf, b: Conf)
    requires a.proc.UpdatingIndex? && UpdateProgress(env, reliable, s, key, r, now, a) && Step(env, reliable, a, b)
    ensures UpdateProgress(env, reliable, s, key, r, now, b)
  {
    IndexAnswer(env, reliable, s, key, r, now, a, b);
    if b.proc != Fail(key, RequestFailed) {
      var index, all := UpdatedIndex(env, s, key, r, now), ReleaseChunks(env, key, r)[1..];
      WritingStarts(env, reliable, b.store, index, all, None, key, r);
      assert b == Conf(b.store, AfterWrite(key, r, index, all, None));
      assert UpdateWriting(env, reliable, s, key, r, now, b);
    }
  }

  lemma UpdateChunkStep(env: Env, reliable: bool, s: Store, key: string, r: Release, now: int, a: Conf, b: Conf)
    requires a.proc.CreatingChunk? && UpdateProgress(env, reliable, s, key, r, now, a) && Step(env, reliable, a, b)
    ensures UpdateProgress(env, reliable, s, key, r, now, b)
  {
    ChunkStep(env, reliable, WithNewIndex(env, s, key, r, now), UpdatedIndex(env, s, key, r, now),
              ReleaseChunks(env, key, r)[1..], None, a, b);
    assert UpdateWriting(env, reliable, s, key, r, now, b);
  }

  lemma UpdateEarlyStep(env: Env, reliable: bool, s: Store, key: string, r: Release, now: int, a: Conf, b: Conf)
    requires CodecOk(env) && WellNamed(s)
    requires a.proc.FindingIndex? || a.proc.DroppingChunks?
    requires UpdateProgress(env, reliable, s, key, r, now, a) && Step(env, reliable, a, b)
    ensures UpdateProgress(env, reliable, s, key, r, now, b)
  {
    var resp :| Answered(env, reliable, a, resp, b);
  }

  lemma {:induction false} UpdateRun(env: Env, reliable: bool, s: Store, key: string, r: Release, now: int,
                                     run: seq<Conf>)
    requires CodecOk(env) && WellNamed(s) && OpRun(env, reliable, s, Update(key, r, now), run)
    ensures UpdateProgress(env, reliable, s, key, r, now, Last(run))
    decreases |run|
  {
    if |run| > 1 {
      OpRunPrefix(env, reliable, s, Update(key, r, now), run);
      var a, b := Last(run[..|run| - 1]), Last(run);
      UpdateRun(env, reliable, s, key, r, now, run[..|run| - 1]);
      if a.proc.UpdatingIndex? {
        UpdateIndexStep(env, reliable, s, key, r, now, a, b);
      } else if a.proc.CreatingChunk? {
        UpdateChunkStep(env, reliable, s, key, r, now, a, b);
      } else {
        UpdateEarlyStep(env, reliable, s, key, r, now, a, b);
      }
    }
  }

  /** A finished Update: what it has stored when it reports success, and, without faults, exactly when it does. */
  lemma UpdateResult(env: Env, reliable: bool, s: Store, key: string, r: Release, now: int, run: seq<Conf>)
    requires CodecOk(env) && WellNamed(s) && OpRun(env, reliable, s, Update(key, r, now), run)
    requires Last(run).proc.Finished?
    ensures var o := Last(run).proc.outcome;
            && (o == Written ==> key in s.secrets && CanUpdate(env, s, key, r, now)
                                 && Last(run).store == UpdatedStore(env, s, key, r, now))
            && (o == Err(ReleaseNotFound) ==> key !in s.secrets && Last(run).store == s)
            && !o.Got? && o != Err(ReleaseExists)
            && (reliable && key in s.secrets && CanUpdate(env, s, key, r, now) ==> o == Written)
  {
    UpdateRun(env, reliable, s, key, r, now, run);
    if Last(run).proc.outcome == Written {
      WritingEnds(env, reliable, WithNewIndex(env, s, key, r, now), UpdatedIndex(env, s, key, r, now),
                  ReleaseChunks(env, key, r)[1..], None, Last(run));
    }
  }

  /* ---------- Delete ---------- */

  function WithoutKey(env: Env, s: Store, key: string): Store {
    Without(s, Selected(s, AllForKeySelector(env.owner, key)))
  }

  ghost predicate DeleteProgress(env: Env, reliable: bool, s: Store, key: string, c: Conf) {
    match c.proc
    case Finished(_, Got(found), _) => ReadBack(env, s, key) == Got(found) && c.store == WithoutKey(env, s, key)
    case Finished(_, Err(ReleaseNotFound), _) => c.store == s && key !in s.secrets
    case Finished(_, Err(f), _) => f != ReleaseExists && (reliable ==> ReadBack(env, s, key) == Err(f))
    case ReadingIndex(_, deleting) => deleting && c.proc == StartDelete(key) && c.store == s
    case ReadingChunk(_, deleting, _, names, _) => deleting && names != [] && DeleteReading(env, reliable, s, key, c)
    case DeletingAll(_, _, _) => DeleteReading(env, reliable, s, key, c)
    case _ => false
  }

  ghost predicate DeleteReading(env: Env, reliable: bool, s: Store, key: string, c: Conf) {
    && c.store == s && c.proc.key == key
    && var o := Foreseen(env, s, c.proc);
       o == ReadBack(env, s, key) || (FaultyRead(o) && !reliable)
  }

  lemma ReadBackErrors(env: Env, s: Store, p: Proc)
    requires IsReading(p)
    ensures Foreseen(env, s, p) != Err(ReleaseExists) && Foreseen(env, s, p) != Written
    ensures Foreseen(env, s, p) == Err(ReleaseNotFound) ==> p.ReadingIndex? && p.key !in s.secrets
  {
  }

  lemma DeleteStep(env: Env, reliable: bool, s: Store, key: string, a: Conf, b: Conf)
    requires CodecOk(env) && DeleteProgress(env, reliable, s, key, a) && Step(env, reliable, a, b)
    ensures DeleteProgress(env, reliable, s, key, b)
  {
    KeyOfStep(env, reliable, a, b);
    if a.proc.DeletingAll? {
      var resp :| Answered(env, reliable, a, resp, b);
    } else {
      ReadBackErrors(env, s, StartDelete(key));
      ReadBackErrors(env, s, a.proc);
      ReadStepForeseen(env, reliable, a, b);
    }
  }

  /** A finished Delete returns what a read would have found, and has removed everything labelled with the key. */
  lemma {:induction false} DeleteRun(env: Env, reliable: bool, s: Store, key: string, run: seq<Conf>)
    requires CodecOk(env) && OpRun(env, reliable, s, Delete(key), run)
    ensures DeleteProgress(env, reliable, s, key, Last(run))
    decreases |run|
  {
    if |run| > 1 {
      OpRunPrefix(env, reliable, s, Delete(key), run);
      DeleteRun(env, reliable, s, key, run[..|run| - 1]);
      DeleteStep(env, reliable, s, key, Last(run[..|run| - 1]), Last(run));
    }
  }
}
