/** One driver call that runs alone, to its end or to the point where its process dies: what it leaves behind
    for its own key, and that it leaves every other key alone. */
module SingleCall {
  import opened Wrappers
  import opened SecretApi
  import opened Releases
  import opened Labels
  import opened Protocol
  import opened Safety
  import opened Reads
  import opened Interleaving

  /** `run` is a beginning of the call `op` on the store `s`. */
  ghost predicate OpRun(env: Env, reliable: bool, s: Store, op: Op, run: seq<Conf>) {
    IsRun(env, reliable, run) && run[0] == Conf(s, Start(env, op))
  }

  lemma OpRunPrefix(env: Env, reliable: bool, s: Store, op: Op, run: seq<Conf>)
    requires OpRun(env, reliable, s, op, run) && |run| > 1
    ensures OpRun(env, reliable, s, op, run[..|run| - 1])
    ensures Step(env, reliable, Last(run[..|run| - 1]), Last(run))
  {
    var n := |run| - 2;
    assert Step(env, reliable, run[n], run[n + 1]);
  }

  lemma KeyOfResume(env: Env, p: Proc, resp: Response)
    requires Active(p)
    ensures Resume(env, p, resp).key == p.key
  {
  }

  lemma KeyOfStep(env: Env, reliable: bool, a: Conf, b: Conf)
    requires Step(env, reliable, a, b)
    ensures b.proc.key == a.proc.key
  {
    if !StopsReading(env, a, b) {
      var resp :| Answered(env, reliable, a, resp, b);
      KeyOfResume(env, a.proc, resp);
    }
  }

  lemma {:induction false} RunKeepsStore(env: Env, U: set<Release>, reliable: bool, s: Store, op: Op, run: seq<Conf>)
    requires HashOk(env) && StoreOk(env, U, s) && Allowed(U, op) && OpRun(env, reliable, s, op, run)
    ensures StoreOk(env, U, Last(run).store) && WriterOk(env, U, Last(run).proc) && Last(run).proc.key == op.key
    decreases |run|
  {
    if |run| == 1 {
      StartOk(env, U, op);
    } else {
      OpRunPrefix(env, reliable, s, op, run);
      var before := run[..|run| - 1];
      RunKeepsStore(env, U, reliable, s, op, before);
      StepKeepsStore(env, U, reliable, Last(before), Last(run));
      StepKeepsWriter(env, U, reliable, Last(before), Last(run));
      KeyOfStep(env, reliable, Last(before), Last(run));
    }
  }

  /* ---------- Other keys ---------- */

  /** The name of the key's index, or a name one of the key's chunks can have. */
  predicate BelongsTo(n: string, key: string) {
    n == key || (ChunkShaped(n) && KeyOf(n) == key)
  }

  ghost predicate SameFor(s: Store, s': Store, key: string) {
    forall n :: BelongsTo(n, key) ==>
      (n in s.secrets <==> n in s'.secrets) && (n in s.secrets ==> s'.secrets[n] == s.secrets[n])
  }

  /** A Secret that belongs to `key` is not selected by another key's selectors. */
  lemma SelectorsKeepApart(env: Env, U: set<Release>, s: Store, n: string, key: string, other: string)
    requires StoreOk(env, U, s) && n in s.secrets && BelongsTo(n, key) && !ChunkShaped(key) && other != key
    ensures n !in Selected(s, AllForKeySelector(env.owner, other))
    ensures n !in Selected(s, ChunksForKeySelector(env.owner, other))
  {
    var x := s.secrets[n];
    assert SecretOk(env, U, n, x);
    SelectorMeaning(env.owner, other, x.labels);
    assert Has(x.labels, "key", key);
  }

  /** What one request of another key's process leaves of a Secret. */
  lemma EffectFrames(env: Env, U: set<Release>, s: Store, p: Proc, s': Store, n: string, key: string)
    requires StoreOk(env, U, s) && WriterOk(env, U, p) && Effect(env, s, p, s')
    requires BelongsTo(n, key) && !ChunkShaped(key) && p.key != key
    requires p.CreatingChunk? ==> p.todo != [] && p.todo[0].name != n
    requires p.CreatingIndex? ==> p.secret.name != n
    ensures n in s.secrets <==> n in s'.secrets
    ensures n in s.secrets ==> s'.secrets[n] == s.secrets[n]
  {
    if n in s.secrets {
      assert SecretOk(env, U, n, s.secrets[n]);
      SelectorsKeepApart(env, U, s, n, key, p.key);
    }
  }

  /** A chunk's name is not shared with another key, and an index cannot replace a chunk. */
  lemma StepFrames(env: Env, U: set<Release>, reliable: bool, a: Conf, b: Conf, key: string)
    requires HashOk(env) && StoreOk(env, U, a.store) && WriterOk(env, U, a.proc) && Step(env, reliable, a, b)
    requires !ChunkShaped(key) && a.proc.key != key
    ensures SameFor(a.store, b.store, key)
  {
    StepEffect(env, reliable, a, b);
    if a.proc.CreatingChunk? {
      ChunkNameShape(env, a.proc.key, a.proc.todo[0].data);
    }
    forall n | BelongsTo(n, key)
      ensures (n in a.store.secrets <==> n in b.store.secrets)
      ensures n in a.store.secrets ==> b.store.secrets[n] == a.store.secrets[n]
    {
      EffectFrames(env, U, a.store, a.proc, b.store, n, key);
    }
  }

  lemma {:induction false} RunFrames(env: Env, U: set<Release>, reliable: bool, s: Store, op: Op, run: seq<Conf>,
                                     key: string)
    requires HashOk(env) && StoreOk(env, U, s) && Allowed(U, op) && OpRun(env, reliable, s, op, run)
    requires !ChunkShaped(key) && op.key != key
    ensures SameFor(s, Last(run).store, key)
    decreases |run|
  {
    if |run| > 1 {
      OpRunPrefix(env, reliable, s, op, run);
      var before := run[..|run| - 1];
      RunFrames(env, U, reliable, s, op, before, key);
      RunKeepsStore(env, U, reliable, s, op, before);
      StepFrames(env, U, reliable, Last(before), Last(run), key);
    }
  }

  lemma {:induction false} FetchLocal(env: Env, s: Store, s': Store, key: string, names: seq<string>)
    requires SameFor(s, s', key) && forall i :: 0 <= i < |names| ==> BelongsTo(names[i], key)
    ensures Fetch(s, names) == Fetch(s', names)
  {
    if names != [] {
      assert BelongsTo(names[0], key);
      FetchLocal(env, s, s', key, names[1..]);
    }
  }

  lemma ChunkNamesBelong(env: Env, key: string, r: Release)
    requires HashOk(env) && ReleasePieces(env, r) != []
    ensures forall i :: 0 <= i < |ReleasePieces(env, r)| - 1 ==>
              BelongsTo(NamesOf(ReleaseChunks(env, key, r))[1..][i], key)
  {
    var names := NamesOf(ReleaseChunks(env, key, r));
    forall i | 0 <= i < |ReleasePieces(env, r)| - 1
      ensures BelongsTo(names[1..][i], key)
    {
      ChunkNameShape(env, key, ReleasePieces(env, r)[i + 1]);
      assert names[1..][i] == names[i + 1];
    }
  }

  lemma DecodeLocal(env: Env, s: Store, s': Store, key: string, r: Release, index: Secret)
    requires EnvOk(env) && IndexFor(env, key, r, index) && SameFor(s, s', key)
    ensures DecodeIndex(env, s, index) == DecodeIndex(env, s', index)
  {
    IndexNames(env, key, r, index);
    ChunkNamesBelong(env, key, r);
    FetchLocal(env, s, s', key, NamesOf(ReleaseChunks(env, key, r))[1..]);
  }

  /** What an undisturbed read returns depends only on the Secrets that belong to the key. */
  lemma ReadBackLocal(env: Env, U: set<Release>, s: Store, s': Store, key: string)
    requires EnvOk(env) && StoreOk(env, U, s) && SameFor(s, s', key) && !ChunkShaped(key)
    ensures ReadBack(env, s, key) == ReadBack(env, s', key)
  {
    assert BelongsTo(key, key);
    if key in s.secrets {
      assert SecretOk(env, U, key, s.secrets[key]);
      var r :| r in U && IndexFor(env, key, r, s.secrets[key]);
      DecodeLocal(env, s, s', key, r, s.secrets[key]);
    }
  }

  /** No call on one key, finished or not, changes what a read of another key returns.  This needs nothing of the
      hash, and holds even when the call's argument is the name of a chunk Secret. */
  lemma CallsDoNotDisturbOtherKeys(env: Env, U: set<Release>, reliable: bool, s: Store, op: Op, run: seq<Conf>,
                                   key: string)
    requires EnvOk(env) && StoreOk(env, U, s) && Allowed(U, op) && OpRun(env, reliable, s, op, run)
    requires !ChunkShaped(key) && op.key != key
    ensures ReadBack(env, Last(run).store, key) == ReadBack(env, s, key)
  {
    RunFrames(env, U, reliable, s, op, run, key);
    ReadBackLocal(env, U, s, Last(run).store, key);
  }

  /* ---------- The call's own key ---------- */

  /** The release a writing process is busy with. */
  function Writing(p: Proc): Option<Release> {
    match p
    case CreatingIndex(_, r, _, _, _) => Some(r)
    case CreatingChunk(_, r, _, _, _) => Some(r)
    case FindingIndex(_, r, _) => Some(r)
    case DroppingChunks(_, r, _, _) => Some(r)
    case UpdatingIndex(_, r, _, _) => Some(r)
    case _ => None
  }

  lemma WritingOfResume(env: Env, p: Proc, resp: Response)
    requires Active(p)
    ensures Writing(Resume(env, p, resp)).Some? ==> Writing(Resume(env, p, resp)) == Writing(p)
  {
  }

  lemma WritingOfStep(env: Env, reliable: bool, a: Conf, b: Conf)
    requires Step(env, reliable, a, b)
    ensures Writing(b.proc).Some? ==> Writing(b.proc) == Writing(a.proc)
  {
    if !StopsReading(env, a, b) {
      var resp :| Answered(env, reliable, a, resp, b);
      WritingOfResume(env, a.proc, resp);
    }
  }

  ghost predicate WritesOnly(op: Op, p: Proc) {
    Writing(p).Some? ==> Writes(op) && Writing(p).value == op.rls
  }

  /** The index Secret stored under the key is the old one or one of the release being written. */
  ghost predicate OldOrNew(env: Env, s: Store, op: Op, s': Store) {
    op.key in s'.secrets ==>
      || (op.key in s.secrets && s'.secrets[op.key] == s.secrets[op.key])
      || (Writes(op) && IndexFor(env, op.key, op.rls, s'.secrets[op.key]))
  }

  lemma StepKeepsOldOrNew(env: Env, U: set<Release>, reliable: bool, s: Store, op: Op, a: Conf, b: Conf)
    requires HashOk(env) && WriterOk(env, U, a.proc) && Step(env, reliable, a, b)
    requires a.proc.key == op.key && !ChunkShaped(op.key) && WritesOnly(op, a.proc) && OldOrNew(env, s, op, a.store)
    ensures OldOrNew(env, s, op, b.store)
  {
    StepEffect(env, reliable, a, b);
    match a.proc
    case CreatingIndex(key, r, secret, _, _) =>
      IndexForIgnoresUid(env, key, r, secret, a.store.nextUid);
    case UpdatingIndex(key, r, secret, _) =>
      if key in a.store.secrets {
        IndexForIgnoresUid(env, key, r, secret, a.store.secrets[key].uid);
      }
    case CreatingChunk(key, _, _, todo, _) =>
      ChunkNameShape(env, key, todo[0].data);
    case _ =>
  }

  lemma {:induction false} RunKeepsOldOrNew(env: Env, U: set<Release>, reliable: bool, s: Store, op: Op, run: seq<Conf>)
    requires HashOk(env) && StoreOk(env, U, s) && Allowed(U, op) && OpRun(env, reliable, s, op, run)
    requires !ChunkShaped(op.key)
    ensures OldOrNew(env, s, op, Last(run).store) && WritesOnly(op, Last(run).proc)
    decreases |run|
  {
    if |run| > 1 {
      OpRunPrefix(env, reliable, s, op, run);
      var before := run[..|run| - 1];
      RunKeepsOldOrNew(env, U, reliable, s, op, before);
      RunKeepsStore(env, U, reliable, s, op, before);
      WritingOfStep(env, reliable, Last(before), Last(run));
      StepKeepsOldOrNew(env, U, reliable, s, op, Last(before), Last(run));
    }
  }

  /** A Get that runs alone works from the index stored under its key and returns nothing but its release. */
  lemma {:induction false} GetRunFaithful(env: Env, U: set<Release>, get: seq<Conf>, key: string)
    requires EnvOk(env) && CollisionFree(env, U) && IsRun(env, false, get) && get[0].proc == StartGet(key)
    requires StoreOk(env, U, get[0].store)
    ensures Last(get).store == get[0].store && Last(get).proc.key == key && ReaderOk(env, U, Last(get).proc)
    ensures Source(Last(get).proc).Some? ==>
              key in get[0].store.secrets && Source(Last(get).proc).value == get[0].store.secrets[key]
    decreases |get|
  {
    if |get| > 1 {
      var before := get[..|get| - 1];
      assert Step(env, false, get[|get| - 2], get[|get| - 1]);
      GetReadsBack(env, false, get, key);
      GetRunFaithful(env, U, before, key);
      StepKeepsReader(env, U, false, Last(before), Last(get));
      SourceOfStep(env, Last(before), Last(get));
    }
  }

  /** Failure and crash atomicity.  Wherever a call stops, a later Get of its key, itself disturbed by failing
      requests or not, returns the release stored before, the release of the call, or an error. */
  lemma InterruptedCallLeavesOldOrNew(env: Env, U: set<Release>, s: Store, op: Op, run: seq<Conf>, get: seq<Conf>)
    requires EnvOk(env) && CollisionFree(env, U) && StoreOk(env, U, s) && Allowed(U, op) && !ChunkShaped(op.key)
    requires OpRun(env, false, s, op, run)
    requires IsRun(env, false, get) && get[0] == Conf(Last(run).store, StartGet(op.key))
    requires Last(get).proc.Finished? && Last(get).proc.outcome.Got?
    ensures var found := Last(get).proc.outcome.rls;
            || (Writes(op) && ReadAs(op.rls, found))
            || (op.key in s.secrets && exists previous ::
                 previous in U && IndexFor(env, op.key, previous, s.secrets[op.key])
                                                    && ReadAs(previous, found))
  {
    RunKeepsStore(env, U, false, s, op, run);
    RunKeepsOldOrNew(env, U, false, s, op, run);
    GetRunFaithful(env, U, get, op.key);
    var Finished(key, outcome, source) := Last(get).proc;
    var r :| r in U && ReadFrom(env, key, source.value, r, outcome.rls);
    ReadAsIff(r, outcome.rls);
    if key !in s.secrets || source.value != s.secrets[key] {
      IndexDeterminesRelease(env, U, key, r, op.rls, source.value);
    }
  }
}
