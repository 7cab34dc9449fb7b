/** The createdAt label in every interleaving of driver calls: it stays what Create set, unless an Update is overtaken
    by a Delete and a new Create of its key and then writes the old label back. */
module Lifetime {
  import opened Wrappers
  import opened SecretApi
  import opened Releases
  import opened Protocol
  import opened Safety
  import opened Interleaving
  import opened SingleCall

  /** A Secret of `s'` that is as old as `s` was there already, with the same createdAt label. */
  ghost predicate Aged(s: Store, s': Store) {
    && s.nextUid <= s'.nextUid
    && forall n :: n in s'.secrets && s'.secrets[n].uid < s.nextUid ==>
         && n in s.secrets && s.secrets[n].uid == s'.secrets[n].uid
         && LabelOrEmpty(s.secrets[n], "createdAt") == LabelOrEmpty(s'.secrets[n], "createdAt")
  }

  /** The createdAt label an Update has read and will write back. */
  function Carried(p: Proc): Option<string> {
    match p
    case DroppingChunks(_, _, _, existing) => Some(LabelOrEmpty(existing, "createdAt"))
    case UpdatingIndex(_, _, secret, _) => Some(LabelOrEmpty(secret, "createdAt"))
    case _ => None
  }

  ghost predicate CarriesCurrent(s: Store, p: Proc) {
    Carried(p).Some? && p.key in s.secrets ==> LabelOrEmpty(s.secrets[p.key], "createdAt") == Carried(p).value
  }

  lemma CarriedOfStep(env: Env, reliable: bool, a: Conf, b: Conf)
    requires Step(env, reliable, a, b)
    ensures Carried(b.proc).Some? ==>
              || Carried(b.proc) == Carried(a.proc)
              || (&& a.proc.FindingIndex? && a.proc.key in a.store.secrets && b.store == a.store
                  && Carried(b.proc) == Some(LabelOrEmpty(a.store.secrets[a.proc.key], "createdAt")))
  {
    if !StopsReading(env, a, b) {
      var resp :| Answered(env, reliable, a, resp, b);
    }
  }

  lemma StepAges(env: Env, U: set<Release>, reliable: bool, a: Conf, b: Conf)
    requires StoreOk(env, U, a.store) && WriterOk(env, U, a.proc) && CarriesCurrent(a.store, a.proc)
    requires Step(env, reliable, a, b)
    ensures Aged(a.store, b.store) && CarriesCurrent(b.store, b.proc)
  {
    StepEffect(env, reliable, a, b);
    KeyOfStep(env, reliable, a, b);
    CarriedOfStep(env, reliable, a, b);
  }

  lemma AgedTwice(s: Store, t: Store, u: Store)
    requires Aged(s, t) && Aged(t, u)
    ensures Aged(s, u)
  {
    forall n | n in u.secrets && u.secrets[n].uid < s.nextUid
      ensures n in s.secrets && s.secrets[n].uid == u.secrets[n].uid
      ensures LabelOrEmpty(s.secrets[n], "createdAt") == LabelOrEmpty(u.secrets[n], "createdAt")
    {
      assert n in t.secrets && t.secrets[n].uid == u.secrets[n].uid;
    }
  }

  /** A step keeps the createdAt label of every Secret that is there before and after it. */
  lemma StepKeepsLabels(env: Env, U: set<Release>, a: Conf, b: Conf, n: string)
    requires StoreOk(env, U, a.store) && WriterOk(env, U, a.proc) && CarriesCurrent(a.store, a.proc)
    requires Step(env, false, a, b) && n in a.store.secrets && n in b.store.secrets
    ensures LabelOrEmpty(b.store.secrets[n], "createdAt") == LabelOrEmpty(a.store.secrets[n], "createdAt")
  {
    StepEffect(env, false, a, b);
  }

  /* ---------- Histories ---------- */

  ghost predicate AllCarry(s: Store, procs: map<nat, Proc>) {
    forall pid :: pid in procs ==> CarriesCurrent(s, procs[pid])
  }

  /** A key comes back between two states, while an Update of it is on its way that has read the label from before. */
  ghost predicate Overtakes(a: System, b: System) {
    exists pid :: pid in a.procs && Carried(a.procs[pid]).Some?
                  && a.procs[pid].key !in a.store.secrets && a.procs[pid].key in b.store.secrets
  }

  ghost predicate NotOvertaken(states: seq<System>) {
    forall i :: 0 <= i < |states| - 1 ==> !Overtakes(states[i], states[i + 1])
  }

  lemma StartsUnladen(env: Env, op: Op)
    ensures Carried(Start(env, op)).None?
  {
  }

  lemma OpensUnladen(env: Env, key: string, index: Secret)
    ensures Carried(AfterIndex(env, key, false, index)).None?
  {
  }

  lemma MoveCarries(env: Env, U: set<Release>, a: System, b: System, mover: nat, pid: nat)
    requires Acts(env, U, a, Move(mover), b) && StoreOk(env, U, a.store) && WritersOk(env, U, a.procs)
    requires AllCarry(a.store, a.procs) && !Overtakes(a, b) && pid in b.procs
    ensures CarriesCurrent(b.store, b.procs[pid])
  {
    var x, y := Conf(a.store, a.procs[mover]), Conf(b.store, b.procs[mover]);
    assert WriterOk(env, U, a.procs[mover]) && CarriesCurrent(a.store, a.procs[mover]);
    if pid == mover {
      StepAges(env, U, false, x, y);
    } else {
      assert CarriesCurrent(a.store, a.procs[pid]);
      var key := b.procs[pid].key;
      if Carried(b.procs[pid]).Some? && key in b.store.secrets {
        assert key in a.store.secrets;
        StepKeepsLabels(env, U, x, y, key);
      }
    }
  }

  lemma ActCarries(env: Env, U: set<Release>, a: System, act: Action, b: System)
    requires Acts(env, U, a, act, b) && StoreOk(env, U, a.store) && WritersOk(env, U, a.procs)
    requires AllCarry(a.store, a.procs) && !Overtakes(a, b)
    ensures AllCarry(b.store, b.procs)
  {
    forall pid | pid in b.procs
      ensures CarriesCurrent(b.store, b.procs[pid])
    {
      match act
      case Begin(p, op) => StartsUnladen(env, op);
      case Open(p, n) => OpensUnladen(env, n, a.store.secrets[n]);
      case Move(p) => MoveCarries(env, U, a, b, p, pid);
      case Crash(p) => assert CarriesCurrent(a.store, a.procs[pid]);
      case Lose(names) => assert CarriesCurrent(a.store, a.procs[pid]);
    }
  }

  lemma {:induction false} HistoryCarries(env: Env, U: set<Release>, states: seq<System>, acts: seq<Action>)
    requires HashOk(env) && IsHistory(env, U, states, acts) && NotOvertaken(states)
    requires StoreOk(env, U, states[0].store) && states[0].procs == map[]
    ensures AllCarry(Last(states).store, Last(states).procs)
    decreases |acts|
  {
    if acts != [] {
      var n := |acts| - 1;
      HistoryCarries(env, U, states[..n + 1], acts[..n]);
      HistoryKeepsStore(env, U, states[..n + 1], acts[..n]);
      ActCarries(env, U, states[n], acts[n], states[n + 1]);
    }
  }

  lemma ActAges(env: Env, U: set<Release>, a: System, act: Action, b: System)
    requires Acts(env, U, a, act, b) && StoreOk(env, U, a.store) && WritersOk(env, U, a.procs)
    requires AllCarry(a.store, a.procs)
    ensures Aged(a.store, b.store)
  {
    if act.Move? {
      assert WriterOk(env, U, a.procs[act.pid]) && CarriesCurrent(a.store, a.procs[act.pid]);
      StepAges(env, U, false, Conf(a.store, a.procs[act.pid]), Conf(b.store, b.procs[act.pid]));
    }
  }

  lemma StepOfHistoryAges(env: Env, U: set<Release>, states: seq<System>, acts: seq<Action>, n: nat)
    requires HashOk(env) && IsHistory(env, U, states, acts) && NotOvertaken(states)
    requires StoreOk(env, U, states[0].store) && states[0].procs == map[] && n < |acts|
    ensures Aged(states[n].store, states[n + 1].store)
  {
    PrefixIsHistory(env, U, states, acts, n);
    HistoryKeepsStore(env, U, states[..n + 1], acts[..n]);
    HistoryCarries(env, U, states[..n + 1], acts[..n]);
    assert Acts(env, U, states[n], acts[n], states[n + 1]);
    ActAges(env, U, states[n], acts[n], states[n + 1]);
  }

  /** If labels are kept from each state to the next, they are kept from any state to any later one. */
  lemma {:induction false} AgedAlong(states: seq<System>, i: nat, j: nat)
    requires i <= j < |states|
    requires forall k :: i <= k < j ==> Aged(states[k].store, states[k + 1].store)
    ensures Aged(states[i].store, states[j].store)
  {
    if i < j {
      AgedAlong(states, i, j - 1);
      AgedTwice(states[i].store, states[j - 1].store, states[j - 1 + 1].store);
    }
  }

  /** The life of the createdAt label.  In every interleaving in which no Update is overtaken, with failing requests,
      crashes and lost Secrets, an index Secret that was there at any earlier state has the label it had then. */
  lemma CreatedAtIsKept(env: Env, U: set<Release>, states: seq<System>, acts: seq<Action>, i: nat, j: nat)
    requires HashOk(env) && IsHistory(env, U, states, acts) && NotOvertaken(states)
    requires StoreOk(env, U, states[0].store) && states[0].procs == map[] && i <= j < |states|
    ensures Aged(states[i].store, states[j].store)
  {
    forall k | i <= k < j
      ensures Aged(states[k].store, states[k + 1].store)
    {
      StepOfHistoryAges(env, U, states, acts, k);
    }
    AgedAlong(states, i, j);
  }

  /* ---------- Exactly when a label changes ---------- */

  // The converse of CreatedAtIsKept does not hold: an Update that was overtaken may fail before it writes, or carry the
  // label that the new index has as well.  What decides is the write itself.

  /** An Update replaces an index whose createdAt label is not the one it has read. */
  ghost predicate StaleWrite(a: System, act: Action, b: System) {
    && act.Move? && act.pid in a.procs && a.procs[act.pid].UpdatingIndex?
    && var p := a.procs[act.pid];
       && p.key in a.store.secrets && b.store != a.store
       && LabelOrEmpty(a.store.secrets[p.key], "createdAt") != LabelOrEmpty(p.secret, "createdAt")
  }

  lemma StaleWriteChanges(env: Env, U: set<Release>, a: System, act: Action, b: System)
    requires Acts(env, U, a, act, b) && StoreOk(env, U, a.store) && WritersOk(env, U, a.procs)
    requires StaleWrite(a, act, b)
    ensures !Aged(a.store, b.store)
  {
    var p := a.procs[act.pid];
    assert WriterOk(env, U, p);
    StepEffect(env, false, Conf(a.store, p), Conf(b.store, b.procs[act.pid]));
    assert b.store.secrets[p.key] == p.secret.(uid := a.store.secrets[p.key].uid);
  }

  lemma OtherActsAge(env: Env, U: set<Release>, a: System, act: Action, b: System)
    requires Acts(env, U, a, act, b) && StoreOk(env, U, a.store) && WritersOk(env, U, a.procs)
    requires !StaleWrite(a, act, b)
    ensures Aged(a.store, b.store)
  {
    if act.Move? {
      var p := a.procs[act.pid];
      assert WriterOk(env, U, p);
      if CarriesCurrent(a.store, p) {
        StepAges(env, U, false, Conf(a.store, p), Conf(b.store, b.procs[act.pid]));
      } else if p.DroppingChunks? {
        StepEffect(env, false, Conf(a.store, p), Conf(b.store, b.procs[act.pid]));
      } else {
        assert p.UpdatingIndex? && b.store == a.store;
      }
    }
  }

  /** In any history the labels are kept from each state to the next if and only if no write is stale. */
  lemma LabelsChangeIff(env: Env, U: set<Release>, states: seq<System>, acts: seq<Action>)
    requires HashOk(env) && IsHistory(env, U, states, acts)
    requires StoreOk(env, U, states[0].store) && states[0].procs == map[]
    ensures (forall i :: 0 <= i < |acts| ==> Aged(states[i].store, states[i + 1].store)) <==>
            (forall i :: 0 <= i < |acts| ==> !StaleWrite(states[i], acts[i], states[i + 1]))
  {
    forall i | 0 <= i < |acts|
      ensures Aged(states[i].store, states[i + 1].store) <==> !StaleWrite(states[i], acts[i], states[i + 1])
    {
      assert Acts(env, U, states[i], acts[i], states[i + 1]);
      StateIsOk(env, U, states, acts, i);
      if StaleWrite(states[i], acts[i], states[i + 1]) {
        StaleWriteChanges(env, U, states[i], acts[i], states[i + 1]);
      } else {
        OtherActsAge(env, U, states[i], acts[i], states[i + 1]);
      }
    }
  }

  /** A stale write is only ever made by an Update that was overtaken before. */
  lemma StaleOnlyIfOvertaken(env: Env, U: set<Release>, states: seq<System>, acts: seq<Action>, i: nat)
    requires HashOk(env) && IsHistory(env, U, states, acts)
    requires StoreOk(env, U, states[0].store) && states[0].procs == map[]
    requires i < |acts| && StaleWrite(states[i], acts[i], states[i + 1])
    ensures !NotOvertaken(states[..i + 1])
  {
    if NotOvertaken(states[..i + 1]) {
      assert Last(states[..i + 1]) == states[i];
      HistoryCarries(env, U, states[..i + 1], acts[..i]);
    }
  }
}
