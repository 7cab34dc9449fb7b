/** Calls that overlap: what a key can hold, and what stays the same, in every state of every interleaving. */
module Overlap {
  import opened Wrappers
  import opened SecretApi
  import opened Releases
  import opened Labels
  import opened Protocol
  import opened Safety
  import opened Reads
  import opened Interleaving
  import opened SingleCall

  /* ---------- Other keys ---------- */

  /** A process that never changes the store. */
  predicate OnlyReads(p: Proc) {
    p.Finished? || ((p.ReadingIndex? || p.ReadingChunk?) && !p.deleting)
  }

  ghost predicate OnlyRead(procs: map<nat, Proc>, key: string) {
    forall pid :: pid in procs && procs[pid].key == key ==> OnlyReads(procs[pid])
  }

  /** No call writes or deletes the key, and nothing of it gets lost. */
  ghost predicate LeftAlone(states: seq<System>, acts: seq<Action>, key: string) {
    && (forall i :: 0 <= i < |states| ==> OnlyRead(states[i].procs, key))
    && forall i, n :: 0 <= i < |acts| && acts[i].Lose? && n in acts[i].names ==> !BelongsTo(n, key)
  }

  lemma ReaderKeepsStore(env: Env, a: Conf, b: Conf)
    requires OnlyReads(a.proc) && Step(env, false, a, b)
    ensures b.store == a.store
  {
    if !StopsReading(env, a, b) {
      var resp :| Answered(env, false, a, resp, b);
    }
  }

  lemma ActFrames(env: Env, U: set<Release>, a: System, act: Action, b: System, key: string)
    requires HashOk(env) && Acts(env, U, a, act, b) && StoreOk(env, U, a.store) && WritersOk(env, U, a.procs)
    requires !ChunkShaped(key) && OnlyRead(a.procs, key)
    requires act.Lose? ==> forall n :: n in act.names ==> !BelongsTo(n, key)
    ensures SameFor(a.store, b.store, key)
  {
    if act.Move? {
      var x, y := Conf(a.store, a.procs[act.pid]), Conf(b.store, b.procs[act.pid]);
      if x.proc.key == key {
        ReaderKeepsStore(env, x, y);
      } else {
        StepFrames(env, U, false, x, y, key);
      }
    }
  }

  lemma {:induction false} HistoryFrames(env: Env, U: set<Release>, states: seq<System>, acts: seq<Action>, key: string)
    requires HashOk(env) && IsHistory(env, U, states, acts) && LeftAlone(states, acts, key)
    requires StoreOk(env, U, states[0].store) && states[0].procs == map[] && !ChunkShaped(key)
    ensures SameFor(states[0].store, Last(states).store, key)
    decreases |acts|
  {
    if acts != [] {
      var n := |acts| - 1;
      var before, did := states[..n + 1], acts[..n];
      assert forall i :: 0 <= i < |before| ==> before[i] == states[i];
      assert forall i :: 0 <= i < |did| ==> did[i] == acts[i];
      HistoryFrames(env, U, before, did, key);
      HistoryKeepsStore(env, U, before, did);
      ActFrames(env, U, states[n], acts[n], states[n + 1], key);
    }
  }

  /** Framing.  However many calls on other keys overlap, fail or die, a read of a key that none of them writes or
      deletes returns what it returned before.  This needs nothing of the hash. */
  lemma OtherKeysReadTheSame(env: Env, U: set<Release>, states: seq<System>, acts: seq<Action>, key: string)
    requires EnvOk(env) && IsHistory(env, U, states, acts) && LeftAlone(states, acts, key)
    requires StoreOk(env, U, states[0].store) && states[0].procs == map[] && !ChunkShaped(key)
    ensures ReadBack(env, Last(states).store, key) == ReadBack(env, states[0].store, key)
  {
    HistoryFrames(env, U, states, acts, key);
    ReadBackLocal(env, U, states[0].store, Last(states).store, key);
  }

  /** The further chunks that a read still asks for belong to its key. */
  predicate NamesBelong(p: Proc) {
    p.ReadingChunk? ==> forall i :: 0 <= i < |p.names| ==> BelongsTo(p.names[i], p.key)
  }

  lemma AfterIndexBelongs(env: Env, U: set<Release>, s: Store, key: string)
    requires EnvOk(env) && StoreOk(env, U, s) && key in s.secrets && !ChunkShaped(key)
    ensures NamesBelong(AfterIndex(env, key, false, s.secrets[key]))
  {
    var index := s.secrets[key];
    assert SecretOk(env, U, key, index);
    var r :| r in U && IndexFor(env, key, r, index);
    IndexNames(env, key, r, index);
    ChunkNamesBelong(env, key, r);
  }

  lemma ReaderKeepsNames(env: Env, U: set<Release>, a: Conf, b: Conf)
    requires EnvOk(env) && StoreOk(env, U, a.store) && !ChunkShaped(a.proc.key)
    requires IsReading(a.proc) && !a.proc.deleting && NamesBelong(a.proc) && Step(env, false, a, b)
    ensures NamesBelong(b.proc) && b.proc.key == a.proc.key
  {
    KeyOfStep(env, false, a, b);
    if !StopsReading(env, a, b) {
      var resp :| Answered(env, false, a, resp, b);
      if a.proc.ReadingIndex? && resp.Found? {
        AfterIndexBelongs(env, U, a.store, a.proc.key);
      }
    }
  }

  /** What a read will come to depends only on the Secrets that belong to its key. */
  lemma ForeseenLocal(env: Env, U: set<Release>, s: Store, s': Store, p: Proc)
    requires EnvOk(env) && StoreOk(env, U, s) && SameFor(s, s', p.key) && !ChunkShaped(p.key)
    requires (IsReading(p) || p.Finished?) && NamesBelong(p)
    ensures Foreseen(env, s, p) == Foreseen(env, s', p)
  {
    if p.ReadingIndex? {
      ReadBackLocal(env, U, s, s', p.key);
    } else if p.ReadingChunk? {
      FetchLocal(env, s, s', p.key, p.names);
    }
  }

  /** A Get of the key on its way: without faults it will come to what the first store holds. */
  ghost predicate OnItsWay(env: Env, s: Store, p: Proc, key: string) {
    && p.key == key && NamesBelong(p) && (p.Finished? || (IsReading(p) && !p.deleting))
    && (Foreseen(env, s, p) == ReadBack(env, s, key) || FaultyRead(Foreseen(env, s, p)))
  }

  lemma GetStepOnItsWay(env: Env, U: set<Release>, s: Store, a: Conf, b: Conf, key: string)
    requires EnvOk(env) && StoreOk(env, U, s) && StoreOk(env, U, a.store) && SameFor(s, a.store, key)
    requires !ChunkShaped(key) && OnItsWay(env, s, a.proc, key) && Step(env, false, a, b)
    ensures OnItsWay(env, s, b.proc, key)
  {
    assert IsReading(a.proc);
    ReadStepForeseen(env, false, a, b);
    ReaderKeepsNames(env, U, a, b);
    ForeseenLocal(env, U, s, a.store, a.proc);
    ForeseenLocal(env, U, s, a.store, b.proc);
  }

  lemma ActOnItsWay(env: Env, U: set<Release>, s: Store, a: System, act: Action, b: System, pid: nat, key: string)
    requires EnvOk(env) && Acts(env, U, a, act, b) && act != Crash(pid) && pid in a.procs && !ChunkShaped(key)
    requires StoreOk(env, U, s) && StoreOk(env, U, a.store) && SameFor(s, a.store, key)
    requires OnItsWay(env, s, a.procs[pid], key)
    ensures pid in b.procs && OnItsWay(env, s, b.procs[pid], key)
  {
    if act == Move(pid) {
      GetStepOnItsWay(env, U, s, Conf(a.store, a.procs[pid]), Conf(b.store, b.procs[pid]), key);
    }
  }

  lemma FramedUpTo(env: Env, U: set<Release>, states: seq<System>, acts: seq<Action>, n: nat, key: string)
    requires HashOk(env) && IsHistory(env, U, states, acts) && LeftAlone(states, acts, key)
    requires StoreOk(env, U, states[0].store) && states[0].procs == map[] && !ChunkShaped(key) && n < |states|
    ensures StoreOk(env, U, states[n].store) && SameFor(states[0].store, states[n].store, key)
  {
    var before, did := states[..n + 1], acts[..n];
    PrefixIsHistory(env, U, states, acts, n);
    assert forall i :: 0 <= i < |before| ==> before[i] == states[i];
    assert forall i :: 0 <= i < |did| ==> did[i] == acts[i];
    HistoryFrames(env, U, before, did, key);
    StateIsOk(env, U, states, acts, n);
  }

  lemma {:induction false} GetOnItsWay(env: Env, U: set<Release>, states: seq<System>, acts: seq<Action>, i: nat,
                                       m: nat, pid: nat, key: string)
    requires EnvOk(env) && IsHistory(env, U, states, acts) && LeftAlone(states, acts, key)
    requires StoreOk(env, U, states[0].store) && states[0].procs == map[] && !ChunkShaped(key)
    requires RunsSince(acts, i, m, pid, Get(key))
    ensures pid in states[m].procs && OnItsWay(env, states[0].store, states[m].procs[pid], key)
  {
    assert Acts(env, U, states[m - 1], acts[m - 1], states[m]);
    if m > i + 1 {
      GetOnItsWay(env, U, states, acts, i, m - 1, pid, key);
      FramedUpTo(env, U, states, acts, m - 1, key);
      ActOnItsWay(env, U, states[0].store, states[m - 1], acts[m - 1], states[m], pid, key);
    }
  }

  /** A Get that runs amid calls on other keys returns what the store held of its key at the start, or reports a
      failed read. */
  lemma GetAmidOtherKeys(env: Env, U: set<Release>, states: seq<System>, acts: seq<Action>, i: nat, pid: nat,
                         key: string)
    requires EnvOk(env) && IsHistory(env, U, states, acts) && LeftAlone(states, acts, key)
    requires StoreOk(env, U, states[0].store) && states[0].procs == map[] && !ChunkShaped(key)
    requires RunsSince(acts, i, |acts|, pid, Get(key)) && pid in Last(states).procs
    requires Last(states).procs[pid].Finished?
    ensures var o := Last(states).procs[pid].outcome;
            o == ReadBack(env, states[0].store, key) || FaultyRead(o)
  {
    GetOnItsWay(env, U, states, acts, i, |acts|, pid, key);
    assert Last(states).procs[pid] == states[|acts|].procs[pid];
    WayEnds(env, states[0].store, Last(states).procs[pid], key);
  }

  lemma WayEnds(env: Env, s: Store, p: Proc, key: string)
    requires OnItsWay(env, s, p, key) && p.Finished?
    ensures p.outcome == ReadBack(env, s, key) || FaultyRead(p.outcome)
  {
  }

  /* ---------- The key itself ---------- */

  /** A call of the history was asked to write the release under the key. */
  ghost predicate Asked(acts: seq<Action>, key: string, r: Release) {
    exists i :: 0 <= i < |acts| && AsksFor(acts[i], key, r)
  }

  predicate AsksFor(act: Action, key: string, r: Release) {
    act.Begin? && Writes(act.op) && act.op.key == key && act.op.rls == r
  }

  /** The index comes from the first store, or from a release that a call was asked to write. */
  ghost predicate Accounted(env: Env, s: Store, acts: seq<Action>, key: string, index: Secret) {
    || (key in s.secrets && index == s.secrets[key])
    || exists r :: Asked(acts, key, r) && IndexFor(env, key, r, index)
  }

  ghost predicate WritersAsked(acts: seq<Action>, procs: map<nat, Proc>) {
    forall pid :: pid in procs && Writing(procs[pid]).Some? ==>
      Asked(acts, procs[pid].key, Writing(procs[pid]).value)
  }

  lemma AskedStays(acts: seq<Action>, act: Action, key: string, r: Release)
    requires Asked(acts, key, r)
    ensures Asked(acts + [act], key, r)
  {
    var i :| 0 <= i < |acts| && AsksFor(acts[i], key, r);
    assert AsksFor((acts + [act])[i], key, r);
  }

  lemma StartWriting(env: Env, op: Op)
    ensures Start(env, op).key == op.key
    ensures Writing(Start(env, op)).Some? ==> Writes(op) && Writing(Start(env, op)).value == op.rls
  {
  }

  lemma OpenWritesNothing(env: Env, key: string, index: Secret)
    ensures Writing(AfterIndex(env, key, false, index)).None?
  {
  }

  lemma ActWritersAsked(env: Env, U: set<Release>, acts: seq<Action>, a: System, act: Action, b: System)
    requires Acts(env, U, a, act, b) && WritersAsked(acts, a.procs)
    ensures WritersAsked(acts + [act], b.procs)
  {
    forall pid | pid in b.procs && Writing(b.procs[pid]).Some?
      ensures Asked(acts + [act], b.procs[pid].key, Writing(b.procs[pid]).value)
    {
      if act.Begin? && act.pid == pid {
        StartWriting(env, act.op);
        assert AsksFor((acts + [act])[|acts|], b.procs[pid].key, Writing(b.procs[pid]).value);
      } else if act.Open? && act.pid == pid {
        OpenWritesNothing(env, act.name, a.store.secrets[act.name]);
      } else {
        if act == Move(pid) {
          WritingOfStep(env, false, Conf(a.store, a.procs[pid]), Conf(b.store, b.procs[pid]));
          KeyOfStep(env, false, Conf(a.store, a.procs[pid]), Conf(b.store, b.procs[pid]));
        }
        AskedStays(acts, act, b.procs[pid].key, Writing(b.procs[pid]).value);
      }
    }
  }

  lemma AccountedStays(env: Env, s: Store, acts: seq<Action>, act: Action, key: string, index: Secret)
    requires Accounted(env, s, acts, key, index)
    ensures Accounted(env, s, acts + [act], key, index)
  {
    if !(key in s.secrets && index == s.secrets[key]) {
      var r :| Asked(acts, key, r) && IndexFor(env, key, r, index);
      AskedStays(acts, act, key, r);
    }
  }

  /** One step leaves the index under the key, removes it, or replaces it by one of the release its process writes. */
  lemma StepIndex(env: Env, U: set<Release>, a: Conf, b: Conf, key: string)
    requires HashOk(env) && StoreOk(env, U, a.store) && WriterOk(env, U, a.proc) && Step(env, false, a, b)
    requires !ChunkShaped(key) && key in b.store.secrets
    ensures || (key in a.store.secrets && b.store.secrets[key] == a.store.secrets[key])
            || (a.proc.key == key && Writing(a.proc).Some?
                && IndexFor(env, key, Writing(a.proc).value, b.store.secrets[key]))
  {
    if a.proc.key != key {
      StepFrames(env, U, false, a, b, key);
      assert BelongsTo(key, key);
    } else {
      StepEffect(env, false, a, b);
      match a.proc
      case CreatingIndex(_, r, secret, _, _) =>
        IndexForIgnoresUid(env, key, r, secret, a.store.nextUid);
      case UpdatingIndex(_, r, secret, _) =>
        if key in a.store.secrets {
          IndexForIgnoresUid(env, key, r, secret, a.store.secrets[key].uid);
        }
      case CreatingChunk(_, _, _, todo, _) =>
        ChunkNameShape(env, key, todo[0].data);
      case _ =>
    }
  }

  lemma ActIndex(env: Env, U: set<Release>, s: Store, acts: seq<Action>, a: System, act: Action, b: System, key: string)
    requires HashOk(env) && Acts(env, U, a, act, b) && StoreOk(env, U, a.store) && WritersOk(env, U, a.procs)
    requires WritersAsked(acts, a.procs) && !ChunkShaped(key)
    requires key in a.store.secrets ==> Accounted(env, s, acts, key, a.store.secrets[key])
    ensures key in b.store.secrets ==> Accounted(env, s, acts + [act], key, b.store.secrets[key])
  {
    if key in b.store.secrets {
      if act.Move? {
        StepIndex(env, U, Conf(a.store, a.procs[act.pid]), Conf(b.store, b.procs[act.pid]), key);
      }
      if key in a.store.secrets && b.store.secrets[key] == a.store.secrets[key] {
        AccountedStays(env, s, acts, act, key, b.store.secrets[key]);
      } else {
        AskedStays(acts, act, key, Writing(a.procs[act.pid]).value);
      }
    }
  }

  /** In every state of every history, the index under a key is the one from the start, or one of a release that a
      call on that key was asked to write. */
  lemma {:induction false} IndexIsAccounted(env: Env, U: set<Release>, states: seq<System>, acts: seq<Action>,
                                            key: string)
    requires HashOk(env) && IsHistory(env, U, states, acts)
    requires StoreOk(env, U, states[0].store) && states[0].procs == map[] && !ChunkShaped(key)
    ensures WritersAsked(acts, Last(states).procs)
    ensures key in Last(states).store.secrets ==>
              Accounted(env, states[0].store, acts, key, Last(states).store.secrets[key])
    decreases |acts|
  {
    if acts != [] {
      var n := |acts| - 1;
      var before, did := states[..n + 1], acts[..n];
      IndexIsAccounted(env, U, before, did, key);
      HistoryKeepsStore(env, U, before, did);
      assert acts == did + [acts[n]];
      ActWritersAsked(env, U, did, states[n], acts[n], states[n + 1]);
      ActIndex(env, U, states[0].store, did, states[n], acts[n], states[n + 1], key);
    }
  }

  /** Whichever release an index of the history belongs to, it is the old one or one that a call was asked to write. */
  lemma ReleaseIsAccounted(env: Env, U: set<Release>, states: seq<System>, acts: seq<Action>, key: string, i: nat,
                           r: Release)
    requires EnvOk(env) && CollisionFree(env, U) && IsHistory(env, U, states, acts)
    requires StoreOk(env, U, states[0].store) && states[0].procs == map[] && !ChunkShaped(key)
    requires i < |states| && key in states[i].store.secrets
    requires r in U && IndexFor(env, key, r, states[i].store.secrets[key])
    ensures || Asked(acts, key, r)
            || (key in states[0].store.secrets && IndexFor(env, key, r, states[0].store.secrets[key]))
  {
    var index := states[i].store.secrets[key];
    PrefixIsHistory(env, U, states, acts, i);
    IndexIsAccounted(env, U, states[..i + 1], acts[..i], key);
    if !(key in states[0].store.secrets && index == states[0].store.secrets[key]) {
      var q :| Asked(acts[..i], key, q) && IndexFor(env, key, q, index);
      AskedLater(acts, i, key, q);
      AskedInU(env, U, states, acts, key, q);
      IndexDeterminesRelease(env, U, key, q, r, index);
    }
  }

  /** What a read of the key may return: what it had at the start, or what a call was asked to write. */
  ghost predicate OldOrAsked(env: Env, s: Store, acts: seq<Action>, key: string, outcome: Outcome) {
    && outcome.Got?
    && exists r ::
         ReadAs(r, outcome.rls)
         && (Asked(acts, key, r) || (key in s.secrets && IndexFor(env, key, r, s.secrets[key])))
  }

  /** Atomicity with any number of overlapping calls, failures and crashes: a read that returns a release returns
      the one the key had at the start or one that a call was asked to write under it, whole. */
  lemma OnlyOldOrWritten(env: Env, U: set<Release>, states: seq<System>, acts: seq<Action>, pid: nat)
    requires EnvOk(env) && CollisionFree(env, U) && IsHistory(env, U, states, acts)
    requires StoreOk(env, U, states[0].store) && states[0].procs == map[]
    requires pid in Last(states).procs && !ChunkShaped(Last(states).procs[pid].key)
    requires Last(states).procs[pid].Finished? && Last(states).procs[pid].outcome.Got?
    ensures OldOrAsked(env, states[0].store, acts, Last(states).procs[pid].key, Last(states).procs[pid].outcome)
  {
    ReadsAreWhole(env, U, states, acts, pid);
    SourcesAreSeen(env, U, states, acts);
    var Finished(key, outcome, source) := Last(states).procs[pid];
    var i :| 0 <= i < |states| && key in states[i].store.secrets && states[i].store.secrets[key] == source.value;
    var r :| r in U && IndexFor(env, key, r, source.value) && ReadAs(r, outcome.rls);
    ReleaseIsAccounted(env, U, states, acts, key, i, r);
  }

  /* ---------- Reads and the calls they overlap ---------- */

  /** At step `j` a call that writes `r` under the key moves. */
  ghost predicate WritesAt(states: seq<System>, acts: seq<Action>, j: nat, key: string, r: Release)
    requires j < |acts| && |states| == |acts| + 1
  {
    && acts[j].Move? && acts[j].pid in states[j].procs && states[j].procs[acts[j].pid].key == key
    && Writing(states[j].procs[acts[j].pid]) == Some(r)
  }

  /** Between the two states a call was at work that writes `r` under the key. */
  ghost predicate WrittenBetween(states: seq<System>, acts: seq<Action>, i: nat, k: nat, key: string, r: Release)
    requires |states| == |acts| + 1 && k <= |acts|
  {
    exists j :: i <= j < k && WritesAt(states, acts, j, key, r)
  }

  /** The index in state `k` is the one from state `i`, or of a release that a call wrote in between. */
  ghost predicate Since(env: Env, U: set<Release>, states: seq<System>, acts: seq<Action>, i: nat, k: nat, key: string,
                        index: Secret)
    requires |states| == |acts| + 1 && i <= k <= |acts|
  {
    || (key in states[i].store.secrets && index == states[i].store.secrets[key])
    || exists r :: r in U && WrittenBetween(states, acts, i, k, key, r) && IndexFor(env, key, r, index)
  }

  lemma SinceLater(env: Env, U: set<Release>, states: seq<System>, acts: seq<Action>, i: nat, k: nat, m: nat,
                   key: string, index: Secret)
    requires |states| == |acts| + 1 && i <= k <= m <= |acts| && Since(env, U, states, acts, i, k, key, index)
    ensures Since(env, U, states, acts, i, m, key, index)
  {
    if !(key in states[i].store.secrets && index == states[i].store.secrets[key]) {
      var r :| r in U && WrittenBetween(states, acts, i, k, key, r) && IndexFor(env, key, r, index);
      var j :| i <= j < k && WritesAt(states, acts, j, key, r);
      assert WrittenBetween(states, acts, i, m, key, r);
    }
  }

  lemma ActSince(env: Env, U: set<Release>, states: seq<System>, acts: seq<Action>, i: nat, k: nat, key: string)
    requires HashOk(env) && IsHistory(env, U, states, acts) && i < k <= |acts| && !ChunkShaped(key)
    requires StoreOk(env, U, states[k - 1].store) && WritersOk(env, U, states[k - 1].procs)
    requires key in states[k].store.secrets
    ensures var index := states[k].store.secrets[key];
            || (key in states[k - 1].store.secrets && index == states[k - 1].store.secrets[key])
            || Since(env, U, states, acts, i, k, key, index)
  {
    var a, act, b := states[k - 1], acts[k - 1], states[k];
    var index := b.store.secrets[key];
    assert Acts(env, U, a, act, b);
    if act.Move? {
      var p := a.procs[act.pid];
      assert WriterOk(env, U, p);
      StepIndex(env, U, Conf(a.store, p), Conf(b.store, b.procs[act.pid]), key);
      if !(key in a.store.secrets && index == a.store.secrets[key]) {
        WrittenJustNow(env, U, states, acts, i, k, key, index, Writing(p).value);
      }
    }
  }

  lemma WrittenJustNow(env: Env, U: set<Release>, states: seq<System>, acts: seq<Action>, i: nat, k: nat, key: string,
                       index: Secret, r: Release)
    requires |states| == |acts| + 1 && i < k <= |acts| && WritesAt(states, acts, k - 1, key, r)
    requires r in U && IndexFor(env, key, r, index)
    ensures Since(env, U, states, acts, i, k, key, index)
  {
    assert WrittenBetween(states, acts, i, k, key, r);
  }

  ghost predicate SinceNow(env: Env, U: set<Release>, states: seq<System>, acts: seq<Action>, i: nat, k: nat,
                           key: string)
    requires |states| == |acts| + 1 && i <= k <= |acts|
  {
    key in states[k].store.secrets ==> Since(env, U, states, acts, i, k, key, states[k].store.secrets[key])
  }

  lemma SinceNext(env: Env, U: set<Release>, states: seq<System>, acts: seq<Action>, i: nat, k: nat, key: string)
    requires HashOk(env) && IsHistory(env, U, states, acts) && i < k <= |acts| && !ChunkShaped(key)
    requires StoreOk(env, U, states[k - 1].store) && WritersOk(env, U, states[k - 1].procs)
    requires SinceNow(env, U, states, acts, i, k - 1, key)
    ensures SinceNow(env, U, states, acts, i, k, key)
  {
    if key in states[k].store.secrets {
      var index := states[k].store.secrets[key];
      ActSince(env, U, states, acts, i, k, key);
      if !Since(env, U, states, acts, i, k, key, index) {
        assert Since(env, U, states, acts, i, k - 1, key, index);
        SinceLater(env, U, states, acts, i, k - 1, k, key, index);
      }
    }
  }

  lemma {:induction false} IndexSince(env: Env, U: set<Release>, states: seq<System>, acts: seq<Action>, i: nat, k: nat,
                                      key: string)
    requires HashOk(env) && IsHistory(env, U, states, acts) && i <= k <= |acts| && !ChunkShaped(key)
    requires StoreOk(env, U, states[0].store) && states[0].procs == map[]
    ensures SinceNow(env, U, states, acts, i, k, key)
    decreases k
  {
    if i < k {
      IndexSince(env, U, states, acts, i, k - 1, key);
      StateIsOk(env, U, states, acts, k - 1);
      SinceNext(env, U, states, acts, i, k, key);
    }
  }

  /** What a call that begins at step `i` may return: the release that the key held then, or one that another call
      wrote under the key before it came to its end. */
  ghost predicate CurrentOrOverlapping(env: Env, states: seq<System>, acts: seq<Action>, i: nat, key: string,
                                       outcome: Outcome)
    requires |states| == |acts| + 1 && i <= |acts|
  {
    && outcome.Got?
    && exists r ::
         ReadAs(r, outcome.rls)
         && (|| (key in states[i].store.secrets && IndexFor(env, key, r, states[i].store.secrets[key]))
             || WrittenBetween(states, acts, i, |acts|, key, r))
  }

  /** Reads are regular.  With any number of overlapping calls, failures and crashes, a Get or Delete that returns a
      release returns, whole, the one that its key held when the call began, or one that a call wrote there while it
      ran; never one that was replaced or deleted before. */
  lemma ReadsAreRegular(env: Env, U: set<Release>, states: seq<System>, acts: seq<Action>, i: nat, pid: nat, op: Op)
    requires EnvOk(env) && CollisionFree(env, U) && IsHistory(env, U, states, acts)
    requires StoreOk(env, U, states[0].store) && states[0].procs == map[] && !ChunkShaped(op.key)
    requires RunsSince(acts, i, |acts|, pid, op) && pid in Last(states).procs
    requires Last(states).procs[pid].Finished? && Last(states).procs[pid].outcome.Got?
    ensures CurrentOrOverlapping(env, states, acts, i, op.key, Last(states).procs[pid].outcome)
  {
    var key, outcome := op.key, Last(states).procs[pid].outcome;
    NoTornReads(env, U, states, acts, i, pid, op);
    var k :| i < k < |states| && key in states[k].store.secrets
             && IsReleaseOf(env, U, key, states[k].store.secrets[key], outcome);
    var index := states[k].store.secrets[key];
    var r :| r in U && IndexFor(env, key, r, index) && ReadAs(r, outcome.rls);
    IndexSince(env, U, states, acts, i, k, key);
    SinceLater(env, U, states, acts, i, k, |acts|, key, index);
    if !(key in states[i].store.secrets && index == states[i].store.secrets[key]) {
      var q :| q in U && WrittenBetween(states, acts, i, |acts|, key, q) && IndexFor(env, key, q, index);
      IndexDeterminesRelease(env, U, key, q, r, index);
    }
  }

  lemma AskedInU(env: Env, U: set<Release>, states: seq<System>, acts: seq<Action>, key: string, r: Release)
    requires IsHistory(env, U, states, acts) && Asked(acts, key, r)
    ensures r in U
  {
    var i :| 0 <= i < |acts| && AsksFor(acts[i], key, r);
    assert Acts(env, U, states[i], acts[i], states[i + 1]);
  }

  lemma AskedLater(acts: seq<Action>, n: nat, key: string, r: Release)
    requires n <= |acts| && Asked(acts[..n], key, r)
    ensures Asked(acts, key, r)
  {
    var i :| 0 <= i < n && AsksFor(acts[..n][i], key, r);
    assert AsksFor(acts[i], key, r);
  }
}
