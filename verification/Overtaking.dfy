/** A history in which the createdAt label of an index changes: an Update finds the index, a Delete and a new Create of
    the key complete, and then the Update writes the label that it has read. */
module Overtaking {
  import opened Wrappers
  import opened SecretApi
  import opened Releases
  import opened Labels
  import opened Chunking
  import opened Protocol
  import opened Safety
  import opened Reads
  import opened Interleaving

  /** A release of one chunk, under a key that is not the name of a chunk. */
  ghost predicate OneChunk(env: Env, key: string, r: Release) {
    EnvOk(env) && env.enc(r).Some? && |ReleasePieces(env, r)| == 1 && !ChunkShaped(key)
  }

  /** The index that Create makes of such a release. */
  function MadeAt(env: Env, key: string, r: Release, at: string, uid: nat): Secret
    requires ReleasePieces(env, r) != []
  {
    WithLabel(IndexSecret(env, key, r, ReleaseChunks(env, key, r)), "createdAt", Some(at)).(uid := uid)
  }

  function StoreWith(env: Env, key: string, r: Release, at: string, uid: nat): Store
    requires ReleasePieces(env, r) != []
  {
    Store(map[key := MadeAt(env, key, r, at, uid)], uid + 1)
  }

  lemma MadeIsIndex(env: Env, key: string, r: Release, at: string, uid: nat)
    requires OneChunk(env, key, r)
    ensures IndexFor(env, key, r, MadeAt(env, key, r, at, uid))
    ensures StoreOk(env, {r}, StoreWith(env, key, r, at, uid))
  {
    IndexSecretFor(env, key, r, at, None);
    IndexForIgnoresUid(env, key, r, MadeAt(env, key, r, at, 0), uid);
    assert SecretOk(env, {r}, key, MadeAt(env, key, r, at, uid));
  }

  lemma Selections(env: Env, key: string, r: Release, at: string, uid: nat)
    requires ReleasePieces(env, r) != []
    ensures var s := StoreWith(env, key, r, at, uid);
            && Selected(s, ChunksForKeySelector(env.owner, key)) == {}
            && Selected(s, AllForKeySelector(env.owner, key)) == {key}
  {
    SelectorMeaning(env.owner, key, MadeAt(env, key, r, at, uid).labels);
  }

  /* ---------- The steps of the three calls ---------- */

  function Finds(env: Env, key: string, r: Release, now: int, t1: string): Proc
    requires ReleasePieces(env, r) != []
  {
    DroppingChunks(key, r, Itoa(now), MadeAt(env, key, r, t1, 0))
  }

  lemma UpdateFinds(env: Env, key: string, r: Release, now: int, t1: string)
    requires OneChunk(env, key, r)
    ensures var s := StoreWith(env, key, r, t1, 0);
            Step(env, false, Conf(s, StartUpdate(key, r, now)), Conf(s, Finds(env, key, r, now, t1)))
  {
    var s := StoreWith(env, key, r, t1, 0);
    assert Answered(env, false, Conf(s, StartUpdate(key, r, now)), Found(s.secrets[key]),
                    Conf(s, Finds(env, key, r, now, t1)));
  }

  function Drops(env: Env, key: string, r: Release, now: int, t1: string): Proc
    requires ReleasePieces(env, r) != []
  {
    AfterDrop(env, key, r, Itoa(now), MadeAt(env, key, r, t1, 0))
  }

  lemma DropsShape(env: Env, key: string, r: Release, now: int, t1: string)
    requires OneChunk(env, key, r)
    ensures var p := Drops(env, key, r, now, t1);
            && p.UpdatingIndex? && p.rest == [] && p.key == key && p.secret.name == key && p.secret.typ == ChunkedIndex
            && LabelOrEmpty(p.secret, "createdAt") == t1
  {
  }

  lemma UpdateDrops(env: Env, key: string, r: Release, now: int, t1: string, t2: string)
    requires OneChunk(env, key, r)
    ensures var s := StoreWith(env, key, r, t2, 1);
            Step(env, false, Conf(s, Finds(env, key, r, now, t1)), Conf(s, Drops(env, key, r, now, t1)))
  {
    var s := StoreWith(env, key, r, t2, 1);
    Selections(env, key, r, t2, 1);
    assert Without(s, {}) == s;
    assert Answered(env, false, Conf(s, Finds(env, key, r, now, t1)), Deleted, Conf(s, Drops(env, key, r, now, t1)));
  }

  function Overwritten(env: Env, key: string, r: Release, now: int, t1: string, t2: string): Store
    requires OneChunk(env, key, r)
  {
    DropsShape(env, key, r, now, t1);
    Serve(StoreWith(env, key, r, t2, 1), UpdateSecret(Drops(env, key, r, now, t1).secret)).0
  }

  lemma UpdateWrites(env: Env, key: string, r: Release, now: int, t1: string, t2: string)
    requires OneChunk(env, key, r)
    ensures var s, s' := StoreWith(env, key, r, t2, 1), Overwritten(env, key, r, now, t1, t2);
            && Step(env, false, Conf(s, Drops(env, key, r, now, t1)), Conf(s', Finished(key, Written, None)))
            && key in s'.secrets && s'.secrets[key].uid == 1 && LabelOrEmpty(s'.secrets[key], "createdAt") == t1
  {
    var s, p := StoreWith(env, key, r, t2, 1), Drops(env, key, r, now, t1);
    DropsShape(env, key, r, now, t1);
    var (s', resp) := Serve(s, UpdateSecret(p.secret));
    assert Answered(env, false, Conf(s, p), resp, Conf(s', Finished(key, Written, None)));
  }

  function HasRead(env: Env, key: string, r: Release, t1: string): Proc
    requires ReleasePieces(env, r) != []
  {
    DeletingAll(key, MadeAt(env, key, r, t1, 0), Stripped(r))
  }

  lemma OpensWhole(env: Env, key: string, r: Release, index: Secret)
    requires OneChunk(env, key, r) && IndexFor(env, key, r, index)
    ensures OpenIndex(env, index) == Some(([], env.enc(r).value))
  {
    var pieces := ReleasePieces(env, r);
    IndexNames(env, key, r, index);
    PiecesJoin(env.enc(r).value, env.chunkSize);
    JoinOne(pieces[0]);
    assert pieces == [pieces[0]];
  }

  lemma DeleteReads(env: Env, key: string, r: Release, t1: string)
    requires OneChunk(env, key, r)
    ensures var s := StoreWith(env, key, r, t1, 0);
            Step(env, false, Conf(s, StartDelete(key)), Conf(s, HasRead(env, key, r, t1)))
  {
    var s, index := StoreWith(env, key, r, t1, 0), MadeAt(env, key, r, t1, 0);
    MadeIsIndex(env, key, r, t1, 0);
    OpensWhole(env, key, r, index);
    assert Answered(env, false, Conf(s, StartDelete(key)), Found(index), Conf(s, HasRead(env, key, r, t1)));
  }

  lemma DeleteEnds(env: Env, key: string, r: Release, t1: string)
    requires OneChunk(env, key, r)
    ensures Step(env, false, Conf(StoreWith(env, key, r, t1, 0), HasRead(env, key, r, t1)),
                 Conf(Store(map[], 1), Finished(key, Got(Stripped(r)), Some(MadeAt(env, key, r, t1, 0)))))
  {
    var s := StoreWith(env, key, r, t1, 0);
    Selections(env, key, r, t1, 0);
    assert Without(s, {key}) == Store(map[], 1);
    assert Answered(env, false, Conf(s, HasRead(env, key, r, t1)), Deleted,
                    Conf(Store(map[], 1), Finished(key, Got(Stripped(r)), Some(MadeAt(env, key, r, t1, 0)))));
  }

  lemma CreateEnds(env: Env, key: string, r: Release, n2: int)
    requires OneChunk(env, key, r)
    ensures Step(env, false, Conf(Store(map[], 1), StartCreate(env, key, r, n2)),
                 Conf(StoreWith(env, key, r, Itoa(n2), 1), Finished(key, Written, None)))
  {
    var p := StartCreate(env, key, r, n2);
    assert p.CreatingIndex? && p.rest == [] && p.secret == MadeAt(env, key, r, Itoa(n2), 0);
    assert Answered(env, false, Conf(Store(map[], 1), p), Found(MadeAt(env, key, r, Itoa(n2), 1)),
                    Conf(StoreWith(env, key, r, Itoa(n2), 1), Finished(key, Written, None)));
  }

  /* ---------- The history ---------- */

  /** Three calls and what becomes of them: 0 finds and later drops and writes, 1 reads and deletes, 2 creates. */
  datatype Plot = Plot(
    update: Op, delete: Op, create: Op,
    first: Store, gone: Store, created: Store, last: Store,
    finds: Proc, drops: Proc, read: Proc, deleted: Proc, written: Proc)

  /** The processes once the Update has found the index, once the Delete is done, and once the Create is done. */
  function Found0(p: Plot): map<nat, Proc> {
    map[0 := p.finds]
  }

  function Deleted0(p: Plot): map<nat, Proc> {
    Found0(p)[1 := p.deleted]
  }

  function Created0(p: Plot): map<nat, Proc> {
    Deleted0(p)[2 := p.written]
  }

  function FindStates(env: Env, p: Plot): seq<System> {
    [System(p.first, map[]), System(p.first, map[0 := Start(env, p.update)]), System(p.first, Found0(p))]
  }

  function DeleteStates(env: Env, p: Plot): seq<System> {
    [System(p.first, Found0(p)), System(p.first, Found0(p)[1 := Start(env, p.delete)]),
     System(p.first, Found0(p)[1 := p.read]), System(p.gone, Deleted0(p))]
  }

  function CreateStates(env: Env, p: Plot): seq<System> {
    [System(p.gone, Deleted0(p)), System(p.gone, Deleted0(p)[2 := Start(env, p.create)]),
     System(p.created, Created0(p))]
  }

  function WriteStates(p: Plot): seq<System> {
    [System(p.created, Created0(p)), System(p.created, Created0(p)[0 := p.drops]),
     System(p.last, Created0(p)[0 := p.written])]
  }

  function ActsOf(p: Plot): seq<Action> {
    [Begin(0, p.update), Move(0)] + [Begin(1, p.delete), Move(1), Move(1)] + [Begin(2, p.create), Move(2)]
    + [Move(0), Move(0)]
  }

  function StatesOf(env: Env, p: Plot): seq<System> {
    FindStates(env, p) + DeleteStates(env, p)[1..] + CreateStates(env, p)[1..] + WriteStates(p)[1..]
  }

  ghost predicate Plays(env: Env, U: set<Release>, p: Plot) {
    && Allowed(U, p.update) && Allowed(U, p.delete) && Allowed(U, p.create)
    && Step(env, false, Conf(p.first, Start(env, p.update)), Conf(p.first, p.finds))
    && Step(env, false, Conf(p.first, Start(env, p.delete)), Conf(p.first, p.read))
    && Step(env, false, Conf(p.first, p.read), Conf(p.gone, p.deleted))
    && Step(env, false, Conf(p.gone, Start(env, p.create)), Conf(p.created, p.written))
    && Step(env, false, Conf(p.created, p.finds), Conf(p.created, p.drops))
    && Step(env, false, Conf(p.created, p.drops), Conf(p.last, p.written))
  }

  lemma MoveActs(env: Env, U: set<Release>, s: Store, procs: map<nat, Proc>, pid: nat, s': Store, q: Proc)
    requires pid in procs && Step(env, false, Conf(s, procs[pid]), Conf(s', q))
    ensures Acts(env, U, System(s, procs), Move(pid), System(s', procs[pid := q]))
  {
  }

  /** A second move of the same process replaces what the first one left. */
  lemma MovesTwice(env: Env, U: set<Release>, s: Store, procs: map<nat, Proc>, pid: nat, q: Proc, s': Store, t: Proc)
    requires Step(env, false, Conf(s, q), Conf(s', t))
    ensures Acts(env, U, System(s, procs[pid := q]), Move(pid), System(s', procs[pid := t]))
  {
    MoveActs(env, U, s, procs[pid := q], pid, s', t);
    assert procs[pid := q][pid := t] == procs[pid := t];
  }

  lemma BeginActs(env: Env, U: set<Release>, s: Store, procs: map<nat, Proc>, pid: nat, op: Op)
    requires pid !in procs && Allowed(U, op)
    ensures Acts(env, U, System(s, procs), Begin(pid, op), System(s, procs[pid := Start(env, op)]))
  {
  }

  lemma TwoActs(env: Env, U: set<Release>, a: System, x: Action, b: System, y: Action, c: System)
    requires Acts(env, U, a, x, b) && Acts(env, U, b, y, c)
    ensures IsHistory(env, U, [a, b, c], [x, y])
  {
  }

  lemma ThreeActs(env: Env, U: set<Release>, a: System, x: Action, b: System, y: Action, c: System, z: Action,
                  d: System)
    requires Acts(env, U, a, x, b) && Acts(env, U, b, y, c) && Acts(env, U, c, z, d)
    ensures IsHistory(env, U, [a, b, c, d], [x, y, z])
  {
  }

  lemma FindIsHistory(env: Env, U: set<Release>, p: Plot)
    requires Plays(env, U, p)
    ensures IsHistory(env, U, FindStates(env, p), [Begin(0, p.update), Move(0)])
  {
    var states := FindStates(env, p);
    BeginActs(env, U, p.first, map[], 0, p.update);
    MovesTwice(env, U, p.first, map[], 0, Start(env, p.update), p.first, p.finds);
    TwoActs(env, U, states[0], Begin(0, p.update), states[1], Move(0), states[2]);
  }

  lemma DeleteIsHistory(env: Env, U: set<Release>, p: Plot)
    requires Plays(env, U, p)
    ensures IsHistory(env, U, DeleteStates(env, p), [Begin(1, p.delete), Move(1), Move(1)])
  {
    var states := DeleteStates(env, p);
    BeginActs(env, U, p.first, Found0(p), 1, p.delete);
    MovesTwice(env, U, p.first, Found0(p), 1, Start(env, p.delete), p.first, p.read);
    MovesTwice(env, U, p.first, Found0(p), 1, p.read, p.gone, p.deleted);
    ThreeActs(env, U, states[0], Begin(1, p.delete), states[1], Move(1), states[2], Move(1), states[3]);
  }

  lemma CreateIsHistory(env: Env, U: set<Release>, p: Plot)
    requires Plays(env, U, p)
    ensures IsHistory(env, U, CreateStates(env, p), [Begin(2, p.create), Move(2)])
  {
    var states := CreateStates(env, p);
    BeginActs(env, U, p.gone, Deleted0(p), 2, p.create);
    MovesTwice(env, U, p.gone, Deleted0(p), 2, Start(env, p.create), p.created, p.written);
    TwoActs(env, U, states[0], Begin(2, p.create), states[1], Move(2), states[2]);
  }

  lemma WriteIsHistory(env: Env, U: set<Release>, p: Plot)
    requires Plays(env, U, p)
    ensures IsHistory(env, U, WriteStates(p), [Move(0), Move(0)])
  {
    var states := WriteStates(p);
    MoveActs(env, U, p.created, Created0(p), 0, p.created, p.drops);
    MovesTwice(env, U, p.created, Created0(p), 0, p.drops, p.last, p.written);
    TwoActs(env, U, states[0], Move(0), states[1], Move(0), states[2]);
  }

  /** A history goes on where another one ends. */
  lemma Continues(env: Env, U: set<Release>, s: seq<System>, a: seq<Action>, t: seq<System>, b: seq<Action>)
    requires IsHistory(env, U, s, a) && IsHistory(env, U, t, b) && Last(s) == t[0]
    ensures IsHistory(env, U, s + t[1..], a + b)
  {
    var states, acts := s + t[1..], a + b;
    forall i | 0 <= i < |acts|
      ensures Acts(env, U, states[i], acts[i], states[i + 1])
    {
      if i >= |a| {
        assert states[i] == t[i - |a|] && states[i + 1] == t[i - |a| + 1] && acts[i] == b[i - |a|];
      }
    }
  }

  lemma PlotIsHistory(env: Env, U: set<Release>, p: Plot)
    requires Plays(env, U, p)
    ensures IsHistory(env, U, StatesOf(env, p), ActsOf(p))
  {
    var finds, deletes := FindStates(env, p), DeleteStates(env, p);
    var creates, writes := CreateStates(env, p), WriteStates(p);
    var a, b, c := [Begin(0, p.update), Move(0)], [Begin(1, p.delete), Move(1), Move(1)], [Begin(2, p.create), Move(2)];
    FindIsHistory(env, U, p);
    DeleteIsHistory(env, U, p);
    Continues(env, U, finds, a, deletes, b);
    CreateIsHistory(env, U, p);
    Continues(env, U, finds + deletes[1..], a + b, creates, c);
    WriteIsHistory(env, U, p);
    Continues(env, U, finds + deletes[1..] + creates[1..], a + b + c, writes, [Move(0), Move(0)]);
  }

  /** A store made at `n1` is updated at `now`; the Update is overtaken by a Delete and a Create at `n2`. */
  function Overtaken(env: Env, key: string, r: Release, n1: int, now: int, n2: int): Plot
    requires OneChunk(env, key, r)
  {
    var t1, t2 := Itoa(n1), Itoa(n2);
    Plot(Op.Update(key, r, now), Op.Delete(key), Op.Create(key, r, n2),
         StoreWith(env, key, r, t1, 0), Store(map[], 1), StoreWith(env, key, r, t2, 1),
         Overwritten(env, key, r, now, t1, t2),
         Finds(env, key, r, now, t1), Drops(env, key, r, now, t1), HasRead(env, key, r, t1),
         Finished(key, Got(Stripped(r)), Some(MadeAt(env, key, r, t1, 0))), Finished(key, Written, None))
  }

  lemma OvertakenPlays(env: Env, key: string, r: Release, n1: int, now: int, n2: int)
    requires OneChunk(env, key, r)
    ensures Plays(env, {r}, Overtaken(env, key, r, n1, now, n2))
  {
    UpdateFinds(env, key, r, now, Itoa(n1));
    DeleteReads(env, key, r, Itoa(n1));
    DeleteEnds(env, key, r, Itoa(n1));
    CreateEnds(env, key, r, n2);
    UpdateDrops(env, key, r, now, Itoa(n1), Itoa(n2));
    UpdateWrites(env, key, r, now, Itoa(n1), Itoa(n2));
  }

  /** For every release of one chunk and any two creation times: the plot is a history of the driver, in which no
      request fails and all three calls succeed, and the index made at `n2` ends with the label of the one made at
      `n1`. */
  lemma OvertakenUpdateWritesOldLabel(env: Env, key: string, r: Release, n1: int, now: int, n2: int)
    requires OneChunk(env, key, r)
    ensures var p := Overtaken(env, key, r, n1, now, n2);
            && IsHistory(env, {r}, StatesOf(env, p), ActsOf(p)) && StoreOk(env, {r}, p.first)
            && !p.deleted.outcome.Err? && !p.written.outcome.Err?
            && key in p.created.secrets && key in p.last.secrets
            && p.last.secrets[key].uid == p.created.secrets[key].uid
            && LabelOrEmpty(p.created.secrets[key], "createdAt") == Itoa(n2)
            && LabelOrEmpty(p.last.secrets[key], "createdAt") == Itoa(n1)
  {
    OvertakenPlays(env, key, r, n1, now, n2);
    PlotIsHistory(env, {r}, Overtaken(env, key, r, n1, now, n2));
    MadeIsIndex(env, key, r, Itoa(n1), 0);
    UpdateWrites(env, key, r, now, Itoa(n1), Itoa(n2));
  }
}
