/** Any number of driver calls on any keys, interleaved request by request, with failing requests, processes that
    die between two requests, and Secrets that disappear (the garbage collector, or someone deleting them). */
module Interleaving {
  import opened Wrappers
  import opened SecretApi
  import opened Releases
  import opened Labels
  import opened Protocol
  import opened Safety
  import opened Reads

  datatype Op =
    | Create(key: string, rls: Release, now: int)
    | Update(key: string, rls: Release, now: int)
    | Get(key: string)
    | Delete(key: string)

  function Start(env: Env, op: Op): Proc {
    match op
    case Create(key, r, now) => StartCreate(env, key, r, now)
    case Update(key, r, now) => StartUpdate(key, r, now)
    case Get(key) => StartGet(key)
    case Delete(key) => StartDelete(key)
  }

  predicate Writes(op: Op) {
    op.Create? || op.Update?
  }

  /** Releases come from `U`, and no new release gets a key that looks like the name of a chunk. */
  ghost predicate Allowed(U: set<Release>, op: Op) {
    (Writes(op) ==> op.rls in U) && (op.Create? ==> !ChunkShaped(op.key))
  }

  lemma StartOk(env: Env, U: set<Release>, op: Op)
    requires Allowed(U, op)
    ensures WriterOk(env, U, Start(env, op)) && ReaderOk(env, U, Start(env, op)) && Start(env, op).key == op.key
  {
    if op.Create? {
      StartCreateOk(env, U, op.key, op.rls, op.now);
    }
  }

  datatype System = System(store: Store, procs: map<nat, Proc>)

  /** `Open` starts the read of an index Secret that a listing has returned, as List and Query do with every index
      of their listing. */
  datatype Action =
    | Begin(pid: nat, op: Op)
    | Open(pid: nat, name: string)
    | Move(pid: nat)
    | Crash(pid: nat)
    | Lose(names: set<string>)

  ghost predicate Acts(env: Env, U: set<Release>, a: System, act: Action, b: System) {
    match act
    case Begin(pid, op) =>
      pid !in a.procs && Allowed(U, op) && b == a.(procs := a.procs[pid := Start(env, op)])
    case Open(pid, n) =>
      && pid !in a.procs && n in a.store.secrets
      && b == a.(procs := a.procs[pid := AfterIndex(env, n, false, a.store.secrets[n])])
    case Move(pid) =>
      && pid in a.procs && pid in b.procs
      && b.procs == a.procs[pid := b.procs[pid]]
      && Step(env, false, Conf(a.store, a.procs[pid]), Conf(b.store, b.procs[pid]))
    case Crash(pid) =>
      pid in a.procs && b == a.(procs := a.procs - {pid})
    case Lose(names) =>
      b == a.(store := Without(a.store, names))
  }

  /** The states a system goes through while it performs the actions. */
  ghost predicate IsHistory(env: Env, U: set<Release>, states: seq<System>, acts: seq<Action>) {
    && |states| == |acts| + 1
    && forall i :: 0 <= i < |acts| ==> Acts(env, U, states[i], acts[i], states[i + 1])
  }

  lemma PrefixIsHistory(env: Env, U: set<Release>, states: seq<System>, acts: seq<Action>, i: nat)
    requires IsHistory(env, U, states, acts) && i < |states|
    ensures IsHistory(env, U, states[..i + 1], acts[..i]) && Last(states[..i + 1]) == states[i]
  {
  }

  ghost predicate WritersOk(env: Env, U: set<Release>, procs: map<nat, Proc>) {
    forall pid :: pid in procs ==> WriterOk(env, U, procs[pid])
  }

  ghost predicate ReadersOk(env: Env, U: set<Release>, procs: map<nat, Proc>) {
    forall pid :: pid in procs ==> ReaderOk(env, U, procs[pid])
  }

  lemma LossKeepsStore(env: Env, U: set<Release>, s: Store, names: set<string>)
    requires StoreOk(env, U, s)
    ensures StoreOk(env, U, Without(s, names))
  {
    var s' := Without(s, names);
    forall n | n in s'.secrets
      ensures SecretOk(env, U, n, s'.secrets[n])
    {
      assert SecretOk(env, U, n, s.secrets[n]);
    }
  }

  lemma ActKeepsStore(env: Env, U: set<Release>, a: System, act: Action, b: System)
    requires HashOk(env) && Acts(env, U, a, act, b)
    requires StoreOk(env, U, a.store) && WritersOk(env, U, a.procs)
    ensures StoreOk(env, U, b.store) && WritersOk(env, U, b.procs)
  {
    match act
    case Begin(pid, op) =>
      StartOk(env, U, op);
    case Open(pid, n) =>
      AfterIndexOk(env, U, n, false, a.store.secrets[n]);
    case Move(pid) =>
      var x, y := Conf(a.store, a.procs[pid]), Conf(b.store, b.procs[pid]);
      StepKeepsStore(env, U, false, x, y);
      StepKeepsWriter(env, U, false, x, y);
      assert WriterOk(env, U, b.procs[pid]);
    case Crash(pid) =>
    case Lose(names) =>
      LossKeepsStore(env, U, a.store, names);
  }

  lemma ActKeepsReaders(env: Env, U: set<Release>, a: System, act: Action, b: System)
    requires EnvOk(env) && CollisionFree(env, U) && Acts(env, U, a, act, b)
    requires StoreOk(env, U, a.store) && ReadersOk(env, U, a.procs)
    ensures ReadersOk(env, U, b.procs)
  {
    if act.Begin? {
      StartOk(env, U, act.op);
    } else if act.Open? {
      AfterIndexReads(env, U, a.store, act.name, false);
    } else if act.Move? {
      StepKeepsReader(env, U, false, Conf(a.store, a.procs[act.pid]), Conf(b.store, b.procs[act.pid]));
      assert ReaderOk(env, U, b.procs[act.pid]);
    }
  }

  /** In every state of every history, half-finished writes included, every index Secret comes from one single
      release and every chunk Secret is named after its key and data.  This needs nothing of the hash. */
  lemma {:induction false} HistoryKeepsStore(env: Env, U: set<Release>, states: seq<System>, acts: seq<Action>)
    requires HashOk(env) && IsHistory(env, U, states, acts)
    requires StoreOk(env, U, states[0].store) && states[0].procs == map[]
    ensures StoreOk(env, U, Last(states).store) && WritersOk(env, U, Last(states).procs)
    decreases |acts|
  {
    if acts != [] {
      var n := |acts| - 1;
      HistoryKeepsStore(env, U, states[..n + 1], acts[..n]);
      ActKeepsStore(env, U, states[n], acts[n], states[n + 1]);
    }
  }

  lemma StateIsOk(env: Env, U: set<Release>, states: seq<System>, acts: seq<Action>, i: nat)
    requires HashOk(env) && IsHistory(env, U, states, acts) && i < |states|
    requires StoreOk(env, U, states[0].store) && states[0].procs == map[]
    ensures StoreOk(env, U, states[i].store) && WritersOk(env, U, states[i].procs)
  {
    PrefixIsHistory(env, U, states, acts, i);
    HistoryKeepsStore(env, U, states[..i + 1], acts[..i]);
  }

  lemma {:induction false} HistoryKeepsReaders(env: Env, U: set<Release>, states: seq<System>, acts: seq<Action>)
    requires EnvOk(env) && CollisionFree(env, U) && IsHistory(env, U, states, acts)
    requires StoreOk(env, U, states[0].store) && states[0].procs == map[]
    ensures ReadersOk(env, U, Last(states).procs)
    decreases |acts|
  {
    if acts != [] {
      var n := |acts| - 1;
      HistoryKeepsReaders(env, U, states[..n + 1], acts[..n]);
      HistoryKeepsStore(env, U, states[..n + 1], acts[..n]);
      ActKeepsReaders(env, U, states[n], acts[n], states[n + 1]);
    }
  }

  /** The index Secret a read works from, if it has one already. */
  function Source(p: Proc): Option<Secret> {
    match p
    case ReadingChunk(_, _, index, _, _) => Some(index)
    case DeletingAll(_, index, _) => Some(index)
    case Finished(_, _, source) => source
    case _ => None
  }

  ghost predicate SeenIn(states: seq<System>, key: string, index: Secret) {
    exists i :: 0 <= i < |states| && key in states[i].store.secrets && states[i].store.secrets[key] == index
  }

  ghost predicate SourcesSeen(states: seq<System>, procs: map<nat, Proc>) {
    forall pid :: pid in procs && Source(procs[pid]).Some? ==>
      SeenIn(states, procs[pid].key, Source(procs[pid]).value)
  }

  lemma SourceAfterIndex(env: Env, key: string, deleting: bool, index: Secret)
    ensures var p := AfterIndex(env, key, deleting, index);
            p.key == key && (Source(p).Some? ==> Source(p).value == index)
  {
  }

  lemma SourceOfAnswer(env: Env, a: Conf, resp: Response, b: Conf)
    requires Answered(env, false, a, resp, b)
    ensures b.proc.key == a.proc.key
    ensures Source(b.proc).Some? ==>
              || Source(b.proc) == Source(a.proc)
              || (&& a.proc.ReadingIndex? && a.proc.key in a.store.secrets
                  && Source(b.proc) == Some(a.store.secrets[a.proc.key]))
  {
    if a.proc.ReadingIndex? && resp.Found? {
      SourceAfterIndex(env, a.proc.key, a.proc.deleting, resp.secret);
    }
  }

  lemma SourceOfStep(env: Env, a: Conf, b: Conf)
    requires Step(env, false, a, b)
    ensures b.proc.key == a.proc.key
    ensures Source(b.proc).Some? ==>
              || Source(b.proc) == Source(a.proc)
              || (&& a.proc.ReadingIndex? && a.proc.key in a.store.secrets
                  && Source(b.proc) == Some(a.store.secrets[a.proc.key]))
  {
    if !StopsReading(env, a, b) {
      var resp :| Answered(env, false, a, resp, b);
      SourceOfAnswer(env, a, resp, b);
    }
  }

  lemma {:induction false} SourcesAreSeen(env: Env, U: set<Release>, states: seq<System>, acts: seq<Action>)
    requires IsHistory(env, U, states, acts) && states[0].procs == map[]
    ensures SourcesSeen(states, Last(states).procs)
    decreases |acts|
  {
    if acts != [] {
      var n := |acts| - 1;
      SourcesAreSeen(env, U, states[..n + 1], acts[..n]);
      var a, b := states[n], states[n + 1];
      forall pid | pid in b.procs && Source(b.procs[pid]).Some?
        ensures SeenIn(states, b.procs[pid].key, Source(b.procs[pid]).value)
      {
        var index := Source(b.procs[pid]).value;
        if acts[n].Move? && acts[n].pid == pid {
          SourceOfStep(env, Conf(a.store, a.procs[pid]), Conf(b.store, b.procs[pid]));
        }
        if pid in a.procs && Source(a.procs[pid]) == Some(index) && a.procs[pid].key == b.procs[pid].key {
          var i :| 0 <= i < |states[..n + 1]| && a.procs[pid].key in states[..n + 1][i].store.secrets
                   && states[..n + 1][i].store.secrets[a.procs[pid].key] == index;
          assert states[i] == states[..n + 1][i];
        } else if acts[n].Move? {
          assert states[n].store.secrets[b.procs[pid].key] == index;
        } else if acts[n].Open? {
          OpenedSource(env, acts[n].name, a.store.secrets[acts[n].name]);
          assert states[n].store.secrets[b.procs[pid].key] == index;
        } else {
          StartHasNoSource(env, acts[n].op);
        }
      }
    }
  }

  /** A read of a listed index works from that index and asks for nothing but chunks. */
  ghost predicate ReadsListed(p: Proc, key: string, index: Secret) {
    && p.key == key && (p.Finished? || (p.ReadingChunk? && !p.deleting))
    && (Source(p).Some? ==> Source(p).value == index)
  }

  lemma OpenedSource(env: Env, key: string, index: Secret)
    ensures ReadsListed(AfterIndex(env, key, false, index), key, index)
  {
  }

  lemma ReadsListedStep(env: Env, a: Conf, b: Conf, key: string, index: Secret)
    requires ReadsListed(a.proc, key, index) && Step(env, false, a, b)
    ensures ReadsListed(b.proc, key, index)
  {
    SourceOfStep(env, a, b);
    if !StopsReading(env, a, b) {
      var resp :| Answered(env, false, a, resp, b);
    }
  }

  lemma ActKeepsListed(env: Env, U: set<Release>, a: System, act: Action, b: System, pid: nat, key: string,
                       index: Secret)
    requires Acts(env, U, a, act, b) && act != Crash(pid)
    requires pid in a.procs && ReadsListed(a.procs[pid], key, index)
    ensures pid in b.procs && ReadsListed(b.procs[pid], key, index)
  {
    if act == Move(pid) {
      ReadsListedStep(env, Conf(a.store, a.procs[pid]), Conf(b.store, b.procs[pid]), key, index);
    }
  }

  lemma StartHasNoSource(env: Env, op: Op)
    ensures Source(Start(env, op)).None?
  {
  }

  /** The outcome is exactly the release that the index Secret belongs to. */
  ghost predicate IsReleaseOf(env: Env, U: set<Release>, key: string, index: Secret, outcome: Outcome) {
    outcome.Got? && exists r :: r in U && IndexFor(env, key, r, index) && ReadAs(r, outcome.rls)
  }

  /** What a read that has returned a release has found. */
  ghost predicate FoundRelease(env: Env, U: set<Release>, p: Proc) {
    p.Finished? && p.source.Some? && IsReleaseOf(env, U, p.key, p.source.value, p.outcome)
  }

  lemma ReaderFound(env: Env, U: set<Release>, p: Proc)
    requires ReaderOk(env, U, p) && p.Finished? && p.outcome.Got?
    ensures FoundRelease(env, U, p)
  {
    var r :| r in U && ReadFrom(env, p.key, p.source.value, r, p.outcome.rls);
    assert IndexFor(env, p.key, r, p.source.value);
    ReadAsIff(r, p.outcome.rls);
  }

  /** Whatever other calls did in the meantime, a read that returns a release returns exactly the release of the
      index Secret it has worked from. */
  lemma ReadsAreWhole(env: Env, U: set<Release>, states: seq<System>, acts: seq<Action>, pid: nat)
    requires EnvOk(env) && CollisionFree(env, U) && IsHistory(env, U, states, acts)
    requires StoreOk(env, U, states[0].store) && states[0].procs == map[]
    requires pid in Last(states).procs
    requires Last(states).procs[pid].Finished? && Last(states).procs[pid].outcome.Got?
    ensures FoundRelease(env, U, Last(states).procs[pid])
  {
    HistoryKeepsReaders(env, U, states, acts);
    ReaderFound(env, U, Last(states).procs[pid]);
  }

  /** The call that began at step `i` is still there, or has come to its end, in every state up to `m`. */
  ghost predicate RunsSince(acts: seq<Action>, i: nat, m: nat, pid: nat, op: Op) {
    i < m <= |acts| && acts[i] == Begin(pid, op) && forall j :: i < j < m ==> acts[j] != Crash(pid)
  }

  /** The index was stored under the key in a state after step `i` and before state `m`. */
  ghost predicate SeenBetween(states: seq<System>, i: nat, m: nat, key: string, index: Secret)
    requires m <= |states|
  {
    exists k :: i < k < m && key in states[k].store.secrets && states[k].store.secrets[key] == index
  }

  lemma SourceKept(env: Env, U: set<Release>, a: System, act: Action, b: System, pid: nat)
    requires Acts(env, U, a, act, b) && pid in a.procs && act != Crash(pid)
    ensures pid in b.procs && b.procs[pid].key == a.procs[pid].key
    ensures Source(b.procs[pid]).Some? ==>
              var key := a.procs[pid].key;
              || Source(b.procs[pid]) == Source(a.procs[pid])
              || (key in a.store.secrets && Source(b.procs[pid]) == Some(a.store.secrets[key]))
  {
    if act == Move(pid) {
      SourceOfStep(env, Conf(a.store, a.procs[pid]), Conf(b.store, b.procs[pid]));
    }
  }

  /** A call gets the index Secret it works from while it runs, never before it began. */
  lemma {:induction false} SourceSeenSince(env: Env, U: set<Release>, states: seq<System>, acts: seq<Action>, i: nat,
                                           m: nat, pid: nat, op: Op)
    requires IsHistory(env, U, states, acts) && RunsSince(acts, i, m, pid, op)
    ensures pid in states[m].procs && states[m].procs[pid].key == op.key
    ensures Source(states[m].procs[pid]).Some? ==>
              SeenBetween(states, i, m, op.key, Source(states[m].procs[pid]).value)
  {
    assert Acts(env, U, states[m - 1], acts[m - 1], states[m]);
    if m == i + 1 {
      StartOk(env, U, op);
      StartHasNoSource(env, op);
    } else {
      SourceSeenSince(env, U, states, acts, i, m - 1, pid, op);
      SourceKept(env, U, states[m - 1], acts[m - 1], states[m], pid);
    }
  }

  /** In some state while the call ran, the outcome was exactly the release stored under the key. */
  ghost predicate HeldDuring(env: Env, U: set<Release>, states: seq<System>, i: nat, key: string, outcome: Outcome) {
    exists k :: i < k < |states| && key in states[k].store.secrets
                && IsReleaseOf(env, U, key, states[k].store.secrets[key], outcome)
  }

  lemma FoundIsHeld(env: Env, U: set<Release>, states: seq<System>, i: nat, m: nat, key: string, p: Proc)
    requires m <= |states| && p.Finished? && p.source.Some? && p.key == key
    requires SeenBetween(states, i, m, key, p.source.value) && IsReleaseOf(env, U, key, p.source.value, p.outcome)
    ensures HeldDuring(env, U, states, i, key, p.outcome)
  {
    var k :| i < k < m && key in states[k].store.secrets && states[k].store.secrets[key] == p.source.value;
    assert IsReleaseOf(env, U, key, states[k].store.secrets[key], p.outcome);
  }

  /** No torn reads.  Whatever other calls did in the meantime, a Get or Delete that returns a release returns
      exactly the release of an index Secret that was stored under its key while the call ran. */
  lemma NoTornReads(env: Env, U: set<Release>, states: seq<System>, acts: seq<Action>, i: nat, pid: nat, op: Op)
    requires EnvOk(env) && CollisionFree(env, U) && IsHistory(env, U, states, acts)
    requires StoreOk(env, U, states[0].store) && states[0].procs == map[]
    requires RunsSince(acts, i, |acts|, pid, op) && pid in Last(states).procs
    requires Last(states).procs[pid].Finished? && Last(states).procs[pid].outcome.Got?
    ensures Last(states).procs[pid].key == op.key
    ensures HeldDuring(env, U, states, i, op.key, Last(states).procs[pid].outcome)
  {
    ReadsAreWhole(env, U, states, acts, pid);
    SourceSeenSince(env, U, states, acts, i, |acts|, pid, op);
    FoundIsHeld(env, U, states, i, |acts|, op.key, Last(states).procs[pid]);
  }

  /** In any later state the read that was opened at step `i` still works from the Secret that was listed then. */
  lemma {:induction false} ListedSourceStays(env: Env, U: set<Release>, states: seq<System>, acts: seq<Action>, i: nat,
                                             m: nat, pid: nat, key: string, index: Secret)
    requires IsHistory(env, U, states, acts) && i < m <= |acts| && acts[i] == Open(pid, key)
    requires key in states[i].store.secrets ==> states[i].store.secrets[key] == index
    requires forall j :: i < j < m ==> acts[j] != Crash(pid)
    ensures key in states[i].store.secrets
    ensures pid in states[m].procs && ReadsListed(states[m].procs[pid], key, index)
  {
    assert Acts(env, U, states[m - 1], acts[m - 1], states[m]);
    if m == i + 1 {
      OpenedSource(env, key, index);
    } else {
      ListedSourceStays(env, U, states, acts, i, m - 1, pid, key, index);
      ActKeepsListed(env, U, states[m - 1], acts[m - 1], states[m], pid, key, index);
    }
  }

  /** Listings.  A release that List or Query decodes from a listed index, while any other calls go on, is exactly
      the release of that index as it was listed. */
  lemma ListedReadsAreWhole(env: Env, U: set<Release>, states: seq<System>, acts: seq<Action>, i: nat, pid: nat,
                            key: string)
    requires EnvOk(env) && CollisionFree(env, U) && IsHistory(env, U, states, acts)
    requires StoreOk(env, U, states[0].store) && states[0].procs == map[]
    requires i < |acts| && acts[i] == Open(pid, key) && forall j :: i < j < |acts| ==> acts[j] != Crash(pid)
    requires pid in Last(states).procs
    requires Last(states).procs[pid].Finished? && Last(states).procs[pid].outcome.Got?
    ensures key in states[i].store.secrets
    ensures IsReleaseOf(env, U, key, states[i].store.secrets[key], Last(states).procs[pid].outcome)
  {
    assert Acts(env, U, states[i], acts[i], states[i + 1]);
    var index, p := states[i].store.secrets[key], Last(states).procs[pid];
    ListedSourceStays(env, U, states, acts, i, |acts|, pid, key, index);
    assert ReadsListed(p, key, index);
    ReadsAreWhole(env, U, states, acts, pid);
    assert p.source == Some(index) && IsReleaseOf(env, U, p.key, index, p.outcome);
  }

  /** At step `i` the store is listed, and every index of the listing is opened, by processes numbered from `pid`. */
  ghost predicate OpensListing(states: seq<System>, acts: seq<Action>, i: nat, sel: Selector, items: seq<Secret>,
                               pid: nat)
    requires i < |states|
  {
    && Lists(states[i].store, sel, items) && i + |items| <= |acts|
    && forall k :: 0 <= k < |items| ==> acts[i + k] == Open(pid + k, items[k].name)
  }

  lemma {:induction false} OpeningChangesNothing(env: Env, U: set<Release>, states: seq<System>, acts: seq<Action>,
                                                 i: nat, k: nat)
    requires IsHistory(env, U, states, acts) && i + k <= |acts|
    requires forall j :: i <= j < i + k ==> acts[j].Open?
    ensures states[i + k].store == states[i].store
  {
    if k > 0 {
      OpeningChangesNothing(env, U, states, acts, i, k - 1);
      assert Acts(env, U, states[i + k - 1], acts[i + k - 1], states[i + k]);
    }
  }

  /** List and Query amid other calls.  If they decode every index of their listing, then what they have decoded are
      exactly the releases that were stored when the store was listed, one for each index of the listing. */
  lemma ListingIsDecodedWhole(env: Env, U: set<Release>, states: seq<System>, acts: seq<Action>, i: nat, sel: Selector,
                              items: seq<Secret>, pid: nat, k: nat)
    requires EnvOk(env) && CollisionFree(env, U) && IsHistory(env, U, states, acts)
    requires StoreOk(env, U, states[0].store) && states[0].procs == map[]
    requires i < |states| && OpensListing(states, acts, i, sel, items, pid) && k < |items|
    requires forall j :: i + k < j < |acts| ==> acts[j] != Crash(pid + k)
    requires pid + k in Last(states).procs && Last(states).procs[pid + k].Finished?
    requires Last(states).procs[pid + k].outcome.Got?
    ensures items[k].name in Selected(states[i].store, sel) && items[k] == states[i].store.secrets[items[k].name]
    ensures IsReleaseOf(env, U, items[k].name, items[k], Last(states).procs[pid + k].outcome)
  {
    forall j | i <= j < i + k
      ensures acts[j].Open?
    {
      assert acts[i + (j - i)] == Open(pid + (j - i), items[j - i].name);
    }
    OpeningChangesNothing(env, U, states, acts, i, k);
    ListedReadsAreWhole(env, U, states, acts, i + k, pid + k, items[k].name);
  }
}
