/** What holds in every state the driver can produce, under any interleaving of calls, any failed request, any
    crash and any loss of Secrets: the store only ever holds well-formed index and chunk Secrets, no call touches
    the Secrets of another key, and no read returns a mix of releases. */
module Safety {
  import opened Wrappers
  import opened SecretApi
  import opened Releases
  import opened Labels
  import opened Protocol

  /* ---------- The shape of stored Secrets ---------- */

  /** All the pieces of data that storing the releases in `U` can write. */
  ghost function AllPieces(env: Env, U: set<Release>): set<Bytes>
  {
    set r, i | r in U && 0 <= i < |ReleasePieces(env, r)| :: ReleasePieces(env, r)[i]
  }

  /** The hash tells the data written apart. */
  ghost predicate CollisionFree(env: Env, U: set<Release>)
  {
    forall x, y :: x in AllPieces(env, U) && y in AllPieces(env, U) && env.hash(x) == env.hash(y) ==> x == y
  }

  /** Name, labels, first chunk and chunk names all come from the release `r`. */
  ghost predicate IndexFor(env: Env, n: string, r: Release, s: Secret)
  {
    && ReleasePieces(env, r) != []
    && var model := IndexSecret(env, n, r, ReleaseChunks(env, n, r));
       && s.name == n && s.typ == ChunkedIndex && s.owner.None? && !s.immutable && s.data == model.data
       && (forall k :: k in model.labels ==> k in s.labels && s.labels[k] == model.labels[k])
       && s.labels.Keys <= SYSTEM_LABELS
       && "createdAt" in s.labels
  }

  ghost predicate ChunkOk(env: Env, U: set<Release>, n: string, s: Secret)
    requires ChunkShaped(n)
  {
    && s.name == n && s.typ == ChunkedChunk && s.immutable
    && !ChunkShaped(KeyOf(n))
    && Has(s.labels, "owner", env.owner) && Has(s.labels, "key", KeyOf(n)) && Has(s.labels, "type", "chunk")
    && s.data.Keys == {"chunk"}
    && s.data["chunk"] in AllPieces(env, U)
    && n == ChunkName(env, KeyOf(n), s.data["chunk"])
  }

  ghost predicate IndexOk(env: Env, U: set<Release>, n: string, s: Secret)
  {
    exists r :: r in U && IndexFor(env, n, r, s)
  }

  ghost predicate SecretOk(env: Env, U: set<Release>, n: string, s: Secret)
  {
    if ChunkShaped(n) then ChunkOk(env, U, n, s) else IndexOk(env, U, n, s)
  }

  ghost predicate SecretsOk(env: Env, U: set<Release>, secrets: map<string, Secret>) {
    forall n :: n in secrets ==> SecretOk(env, U, n, secrets[n])
  }

  ghost predicate StoreOk(env: Env, U: set<Release>, s: Store) {
    WellNamed(s) && SecretsOk(env, U, s.secrets)
  }

  /* ---------- What a process is about to write ---------- */

  ghost predicate Tail<T>(part: seq<T>, all: seq<T>) {
    |part| < |all| && part == all[|all| - |part|..]
  }

  /** Every write a process has still to make comes from a release in `U`. */
  ghost predicate WriterOk(env: Env, U: set<Release>, p: Proc)
  {
    match p
    case CreatingIndex(key, r, secret, rest, createdAt) =>
      && !ChunkShaped(key) && r in U && IndexFor(env, key, r, secret) && Tail(rest, ReleaseChunks(env, key, r))
    case CreatingChunk(key, r, index, todo, _) =>
      && !ChunkShaped(key) && r in U && index.name == key && todo != [] && Tail(todo, ReleaseChunks(env, key, r))
    case FindingIndex(key, r, _) => r in U
    case DroppingChunks(key, r, _, existing) => r in U && existing.name == key
    case UpdatingIndex(key, r, secret, rest) =>
      && r in U && IndexFor(env, key, r, secret) && Tail(rest, ReleaseChunks(env, key, r))
    case _ => true
  }

  lemma IndexSecretFor(env: Env, key: string, r: Release, createdAt: string, modifiedAt: Option<string>)
    requires ReleasePieces(env, r) != []
    ensures var s := WithLabel(IndexSecret(env, key, r, ReleaseChunks(env, key, r)), "createdAt", Some(createdAt));
            IndexFor(env, key, r, WithLabel(s, "modifiedAt", modifiedAt))
  {
  }

  /** What the labels of an index say of its release. */
  lemma IndexSaysRelease(env: Env, n: string, r: Release, s: Secret)
    requires IndexFor(env, n, r, s)
    ensures Has(s.labels, "name", r.name) && Has(s.labels, "status", r.status) && Has(s.labels, "key", n)
    ensures Has(s.labels, "owner", env.owner) && Has(s.labels, "type", "index")
    ensures Has(s.labels, "version", Itoa(r.version)) && ParseInt(s.labels["version"]) == r.version
    ensures s.labels.Keys <= {"name", "owner", "status", "version", "key", "type", "createdAt", "modifiedAt"}
  {
    var model := IndexSecret(env, n, r, ReleaseChunks(env, n, r)).labels;
    ItoaRoundTrip(r.version);
    assert "name" in model && "status" in model && "key" in model && "owner" in model && "type" in model
           && "version" in model;
  }

  lemma IndexForIgnoresUid(env: Env, n: string, r: Release, s: Secret, uid: nat)
    requires IndexFor(env, n, r, s)
    ensures IndexFor(env, n, r, s.(uid := uid))
  {
  }

  lemma StartCreateOk(env: Env, U: set<Release>, key: string, r: Release, now: int)
    requires r in U && !ChunkShaped(key)
    ensures WriterOk(env, U, StartCreate(env, key, r, now))
    ensures StartCreate(env, key, r, now).key == key
  {
    if EncodeChunks(env, key, r).Ok? && EncodeChunks(env, key, r).value != [] {
      IndexSecretFor(env, key, r, Itoa(now), None);
    }
  }

  /** A chunk Secret made from one of the release's chunks is well formed. */
  lemma NewChunkOk(env: Env, U: set<Release>, key: string, r: Release, index: Secret, ch: Chunk, at: Option<string>,
                   uid: nat)
    requires HashOk(env) && r in U && !ChunkShaped(key) && index.name == key
    requires ch in ReleaseChunks(env, key, r)
    ensures ChunkShaped(ch.name) && KeyOf(ch.name) == key
    ensures ChunkOk(env, U, ch.name, WithLabel(ChunkSecret(env, index, ch), "createdAt", at).(uid := uid))
  {
    var i :| 0 <= i < |ReleaseChunks(env, key, r)| && ReleaseChunks(env, key, r)[i] == ch;
    assert ReleasePieces(env, r)[i] in AllPieces(env, U);
    ChunkNameShape(env, key, ch.data);
  }

  lemma PutKeepsSecrets(env: Env, U: set<Release>, secrets: map<string, Secret>, x: Secret)
    requires SecretsOk(env, U, secrets) && SecretOk(env, U, x.name, x)
    ensures SecretsOk(env, U, secrets[x.name := x])
  {
    var after := secrets[x.name := x];
    forall n | n in after
      ensures SecretOk(env, U, n, after[n])
    {
      if n == x.name {
        assert after[n] == x;
      } else {
        assert SecretOk(env, U, n, secrets[n]);
      }
    }
  }

  lemma PutKeepsStore(env: Env, U: set<Release>, s: Store, x: Secret, s': Store)
    requires StoreOk(env, U, s) && SecretOk(env, U, x.name, x)
    requires s'.secrets == s.secrets[x.name := x] && x.uid < s'.nextUid && s.nextUid <= s'.nextUid
    ensures StoreOk(env, U, s')
  {
    PutKeepsSecrets(env, U, s.secrets, x);
  }

  lemma CreateKeepsStore(env: Env, U: set<Release>, s: Store, x: Secret, s': Store)
    requires StoreOk(env, U, s)
    requires SecretOk(env, U, x.name, x.(uid := s.nextUid))
    requires s' == s || s' == Insert(s, x)
    ensures StoreOk(env, U, s')
  {
    if s' != s {
      PutKeepsStore(env, U, s, x.(uid := s.nextUid), s');
    }
  }

  /** What an update leaves: the store as it was, or the new index in the place of the old one. */
  lemma UpdateEffect(env: Env, reliable: bool, a: Conf, resp: Response, b: Conf)
    requires WellNamed(a.store) && a.proc.UpdatingIndex? && Answered(env, reliable, a, resp, b)
    ensures var n := a.proc.secret.name;
            || (b.store == a.store && (resp.Found? ==> n in a.store.secrets))
            || (n in a.store.secrets && UpdateAllowed(a.store.secrets[n], a.proc.secret)
                && b.store == Put(a.store, a.proc.secret.(uid := a.store.secrets[n].uid)))
    ensures resp.Found? ==>
              a.proc.secret.name in a.store.secrets && UpdateAllowed(a.store.secrets[a.proc.secret.name], a.proc.secret)
  {
  }

  /** An update can only replace an index: the server refuses to turn a chunk Secret into one. */
  lemma UpdateKeepsStore(env: Env, U: set<Release>, reliable: bool, a: Conf, resp: Response, b: Conf)
    requires HashOk(env) && StoreOk(env, U, a.store) && WriterOk(env, U, a.proc)
    requires a.proc.UpdatingIndex? && Answered(env, reliable, a, resp, b)
    ensures StoreOk(env, U, b.store)
    ensures ChunkShaped(a.proc.key) ==> b.store == a.store && !resp.Found?
  {
    var UpdatingIndex(key, r, secret, _) := a.proc;
    UpdateEffect(env, reliable, a, resp, b);
    if key in a.store.secrets {
      var was := a.store.secrets[key];
      assert SecretOk(env, U, key, was);
      if !ChunkShaped(key) && b.store != a.store {
        IndexForIgnoresUid(env, key, r, secret, was.uid);
        assert SecretOk(env, U, key, secret.(uid := was.uid));
        PutKeepsStore(env, U, a.store, secret.(uid := was.uid), b.store);
      }
    }
  }

  lemma CreateStepKeepsStore(env: Env, U: set<Release>, reliable: bool, a: Conf, resp: Response, b: Conf)
    requires HashOk(env) && StoreOk(env, U, a.store) && WriterOk(env, U, a.proc)
    requires a.proc.CreatingIndex? || a.proc.CreatingChunk?
    requires Answered(env, reliable, a, resp, b)
    ensures StoreOk(env, U, b.store)
  {
    match a.proc
    case CreatingIndex(key, r, secret, rest, createdAt) =>
      IndexForIgnoresUid(env, key, r, secret, a.store.nextUid);
      CreateKeepsStore(env, U, a.store, secret, b.store);
    case CreatingChunk(key, r, index, todo, at) =>
      NewChunkOk(env, U, key, r, index, todo[0], at, a.store.nextUid);
      CreateKeepsStore(env, U, a.store, WithLabel(ChunkSecret(env, index, todo[0]), "createdAt", at), b.store);
  }

  /** One step of one process keeps the store well formed. */
  lemma StepKeepsStore(env: Env, U: set<Release>, reliable: bool, a: Conf, b: Conf)
    requires HashOk(env) && StoreOk(env, U, a.store) && WriterOk(env, U, a.proc)
    requires Step(env, reliable, a, b)
    ensures StoreOk(env, U, b.store)
  {
    if !StopsReading(env, a, b) {
      var resp :| Answered(env, reliable, a, resp, b);
      if a.proc.CreatingIndex? || a.proc.CreatingChunk? {
        CreateStepKeepsStore(env, U, reliable, a, resp, b);
      } else if a.proc.UpdatingIndex? {
        UpdateKeepsStore(env, U, reliable, a, resp, b);
      } else {
        assert b.store.secrets.Keys <= a.store.secrets.Keys;
      }
    }
  }

  lemma AfterDropOk(env: Env, U: set<Release>, key: string, r: Release, modifiedAt: string, existing: Secret)
    requires r in U
    ensures WriterOk(env, U, AfterDrop(env, key, r, modifiedAt, existing))
  {
    if ReleasePieces(env, r) != [] {
      IndexSecretFor(env, key, r, LabelOrEmpty(existing, "createdAt"), Some(modifiedAt));
    }
  }

  lemma AfterWriteOk(env: Env, U: set<Release>, key: string, r: Release, index: Secret, todo: seq<Chunk>,
                     at: Option<string>)
    requires !ChunkShaped(key) && r in U && index.name == key && Tail(todo, ReleaseChunks(env, key, r))
    ensures WriterOk(env, U, AfterWrite(key, r, index, todo, at))
  {
  }

  lemma AfterIndexOk(env: Env, U: set<Release>, key: string, deleting: bool, index: Secret)
    ensures WriterOk(env, U, AfterIndex(env, key, deleting, index)) && AfterIndex(env, key, deleting, index).key == key
  {
  }

  /** What one step can do to the store. */
  ghost predicate Effect(env: Env, s: Store, p: Proc, s': Store) {
    match p
    case CreatingIndex(_, _, secret, _, _) =>
      s' == s || (secret.name !in s.secrets && s' == Insert(s, secret))
    case CreatingChunk(_, _, index, todo, at) =>
      && todo != []
      && var x := WithLabel(ChunkSecret(env, index, todo[0]), "createdAt", at);
         s' == s || (x.name !in s.secrets && s' == Insert(s, x))
    case UpdatingIndex(_, _, secret, _) =>
      || s' == s
      || (&& secret.name in s.secrets && UpdateAllowed(s.secrets[secret.name], secret)
          && s' == Put(s, secret.(uid := s.secrets[secret.name].uid)))
    case DroppingChunks(_, _, _, existing) => PartlyDeleted(s, ChunksForKeySelector(env.owner, existing.name), s')
    case DeletingAll(key, _, _) => PartlyDeleted(s, AllForKeySelector(env.owner, key), s')
    case _ => s' == s
  }

  lemma StepEffect(env: Env, reliable: bool, a: Conf, b: Conf)
    requires Step(env, reliable, a, b)
    ensures Effect(env, a.store, a.proc, b.store)
  {
    if !StopsReading(env, a, b) {
      var resp :| Answered(env, reliable, a, resp, b);
    }
  }

  lemma FoundByName(env: Env, reliable: bool, a: Conf, resp: Response, b: Conf)
    requires WellNamed(a.store) && Answered(env, reliable, a, resp, b) && resp.Found?
    ensures match NextRequest(env, a.proc)
            case CreateSecret(x) => resp.secret == x.(uid := a.store.nextUid)
            case UpdateSecret(x) => resp.secret.name == x.name
            case GetSecret(n) => resp.secret.name == n && n in a.store.secrets && resp.secret == a.store.secrets[n]
            case DeleteCollection(_) => false
  {
  }

  /** What a response makes of a process that is fit to write. */
  lemma ResumeOk(env: Env, U: set<Release>, p: Proc, resp: Response)
    requires WriterOk(env, U, p) && Active(p)
    requires p.FindingIndex? || p.CreatingIndex? || p.UpdatingIndex? ==>
               resp.Found? ==> resp.secret.name == p.key
    requires p.UpdatingIndex? && resp.Found? ==> !ChunkShaped(p.key)
    ensures WriterOk(env, U, Resume(env, p, resp))
  {
    var q := Resume(env, p, resp);
    if q.Finished? {
      assert WriterOk(env, U, q);
    } else if p.DroppingChunks? {
      AfterDropOk(env, U, p.key, p.rls, p.modifiedAt, p.existing);
    } else if p.CreatingChunk? {
      AfterWriteOk(env, U, p.key, p.rls, p.index, p.todo[1..], p.chunkCreatedAt);
    } else if p.CreatingIndex? {
      AfterWriteOk(env, U, p.key, p.rls, resp.secret, p.rest, Some(p.createdAt));
    } else if p.UpdatingIndex? {
      AfterWriteOk(env, U, p.key, p.rls, resp.secret, p.rest, None);
    } else {
      assert q.DroppingChunks? || q.ReadingChunk? || q.DeletingAll?;
      assert WriterOk(env, U, q);
    }
  }

  /** One step of one process leaves it fit to go on writing. */
  lemma StepKeepsWriter(env: Env, U: set<Release>, reliable: bool, a: Conf, b: Conf)
    requires HashOk(env) && StoreOk(env, U, a.store) && WriterOk(env, U, a.proc)
    requires Step(env, reliable, a, b)
    ensures WriterOk(env, U, b.proc)
  {
    if StopsReading(env, a, b) {
      assert b.proc.Finished? || b.proc.DeletingAll?;
    } else {
      var resp :| Answered(env, reliable, a, resp, b);
      if a.proc.UpdatingIndex? {
        UpdateKeepsStore(env, U, reliable, a, resp, b);
      }
      if resp.Found? {
        FoundByName(env, reliable, a, resp, b);
      }
      ResumeOk(env, U, a.proc, resp);
    }
  }
}
