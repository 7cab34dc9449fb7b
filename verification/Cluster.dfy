/** The world around the reconciler: the custom resource on the API server, the Helm history of its release, other
    clients that edit or delete the resource, and calls that can fail at any point. */
module Cluster {
  import opened Wrappers
  import opened StatusEdits
  import opened Outcomes

  const UNINSTALL_FINALIZER := "uninstall-helm-release"

  type Values = map<string, string>

  datatype Resource = Resource(
    uid: nat,
    version: nat,
    finalizers: seq<string>,
    deleting: bool,
    annotations: Values,
    spec: Values,
    status: Status)

  datatype World = World(cr: Option<Resource>, helm: seq<Revision>, lastVersion: nat, lastUid: nat)

  predicate HasFinalizer(r: Resource) {
    UNINSTALL_FINALIZER in r.finalizers
  }

  /** The resource is on the server and carries the operator's finalizer. */
  predicate Held(w: World) {
    w.cr.Some? && HasFinalizer(w.cr.value)
  }

  /** Finalizer safety: a recorded release implies a resource that cannot go away without the operator. */
  predicate Guarded(w: World) {
    w.helm != [] ==> Held(w)
  }

  predicate WorldOk(w: World) {
    && Guarded(w)
    && (w.cr.Some? ==>
         && StatusOk(w.cr.value.status)
         && w.cr.value.version <= w.lastVersion
         && w.cr.value.uid <= w.lastUid)
  }

  /* ---------- Other clients ---------- */

  /** One request of another client.  It creates the resource, changes annotations, spec and finalizers, or
      deletes, but neither adds nor removes the operator's finalizer, and does not write the status. */
  datatype UserRequest =
    | UserCreate(annotations: Values, spec: Values, finalizers: seq<string>)
    | UserEdit(annotations: Values, spec: Values, finalizers: seq<string>)
    | UserDelete

  /** A resource that is being deleted goes away with its last finalizer. */
  function Settle(r: Resource): Option<Resource> {
    if r.deleting && r.finalizers == [] then None else Some(r)
  }

  predicate LeavesFinalizer(q: UserRequest, w: World) {
    match q
    case UserCreate(_, _, fs) => UNINSTALL_FINALIZER !in fs
    case UserEdit(_, _, fs) => w.cr.Some? ==> (UNINSTALL_FINALIZER in fs <==> HasFinalizer(w.cr.value))
    case UserDelete => true
  }

  function UserStep(q: UserRequest, w: World): World {
    match q
    case UserCreate(a, s, fs) =>
      if w.cr.Some? then w
      else
        w.(cr := Some(Resource(w.lastUid + 1, w.lastVersion + 1, fs, false, a, s, EMPTY_STATUS)),
           lastVersion := w.lastVersion + 1, lastUid := w.lastUid + 1)
    case UserEdit(a, s, fs) =>
      if w.cr.None? then w
      else
        w.(cr := Settle(w.cr.value.(version := w.lastVersion + 1, annotations := a, spec := s, finalizers := fs)),
           lastVersion := w.lastVersion + 1)
    case UserDelete =>
      if w.cr.None? then w
      else
        w.(cr := Settle(w.cr.value.(version := w.lastVersion + 1, deleting := true)),
           lastVersion := w.lastVersion + 1)
  }

  /** How the resource can change while the operator does not write it: every change gets a new version, and the
      operator's finalizer keeps the resource in place. */
  predicate Drifts(w: World, w': World) {
    && w.lastVersion <= w'.lastVersion && w.lastUid <= w'.lastUid
    && (w'.cr.Some? && w'.cr != w.cr ==> w'.cr.value.version > w.lastVersion)
    && (Held(w) ==>
         && Held(w') && w'.cr.value.uid == w.cr.value.uid && w'.cr.value.status == w.cr.value.status
         && (w.cr.value.deleting ==> w'.cr.value.deleting))
  }

  /** What any number of requests of other clients can do to the world. */
  predicate Rely(w: World, w': World) {
    Drifts(w, w') && w'.helm == w.helm && (WorldOk(w) ==> WorldOk(w'))
  }

  lemma UserStepRelies(q: UserRequest, w: World)
    requires LeavesFinalizer(q, w)
    ensures Rely(w, UserStep(q, w))
  {
    assert StatusOk(EMPTY_STATUS);
  }

  lemma RelyTransitive(a: World, b: World, c: World)
    requires Rely(a, b) && Rely(b, c)
    ensures Rely(a, c)
  {
  }

  /* ---------- The log ---------- */

  datatype Actor = User | StatusWrite | MetaWrite | HelmAction | UninstallAction

  /** `ok` tells whether the step was reported as done; for an uninstall, also if there was nothing to uninstall. */
  datatype Entry = Entry(actor: Actor, before: World, after: World, ok: bool)

  /** Two lists have the same finalizers of others. */
  predicate SameOthers(a: seq<string>, b: seq<string>) {
    && (forall f :: f in a ==> f == UNINSTALL_FINALIZER || f in b)
    && (forall f :: f in b ==> f == UNINSTALL_FINALIZER || f in a)
  }

  /** Finalizers of others stay, and a resource that has one stays. */
  predicate LeavesOthers(w: World, w': World) {
    w.cr.Some? ==>
      if w'.cr.Some? then SameOthers(w.cr.value.finalizers, w'.cr.value.finalizers)
      else w.cr.value.deleting && SameOthers(w.cr.value.finalizers, [])
  }

  /** What a step of the operator may do: it never writes annotations or spec, never creates or deletes, leaves the
      finalizers of others alone, drops its own only from a resource that is being deleted and only when no release is
      recorded, and lets the resource go only by that. */
  predicate OperatorStep(w: World, w': World) {
    && w.lastVersion <= w'.lastVersion && w.lastUid == w'.lastUid
    && (w.cr.None? ==> w'.cr.None?)
    && (w'.cr.Some? ==>
         && w.cr.Some?
         && w'.cr.value.uid == w.cr.value.uid
         && w'.cr.value.deleting == w.cr.value.deleting
         && w'.cr.value.annotations == w.cr.value.annotations
         && w'.cr.value.spec == w.cr.value.spec)
    && LeavesOthers(w, w')
    && (Held(w) && !Held(w') ==> w.helm == [] && w'.helm == [] && w.cr.value.deleting)
    && (WorldOk(w) ==> WorldOk(w'))
  }

  predicate GoodEntry(e: Entry) {
    if e.actor.User? then Rely(e.before, e.after) else OperatorStep(e.before, e.after)
  }

  predicate Chained(log: seq<Entry>, first: World, last: World)
    decreases |log|
  {
    if log == [] then first == last
    else
      var e := log[|log| - 1];
      e.after == last && Chained(log[..|log| - 1], first, e.before)
  }

  predicate AllGood(log: seq<Entry>) {
    forall e :: e in log ==> GoodEntry(e)
  }

  /** Finalizer safety over whole runs: after every step of a run, whoever took it, a recorded release has a
      resource with the finalizer, and the status of the resource is consistent. */
  lemma {:induction false} RunStaysOk(log: seq<Entry>, first: World, last: World)
    requires Chained(log, first, last) && AllGood(log) && WorldOk(first)
    ensures WorldOk(last)
    ensures forall e :: e in log ==> WorldOk(e.before) && WorldOk(e.after)
    decreases |log|
  {
    if log != [] {
      var init, e := log[..|log| - 1], log[|log| - 1];
      RunStaysOk(init, first, e.before);
      assert log == init + [e] && GoodEntry(e);
    }
  }

  predicate OnlyOperator(log: seq<Entry>) {
    forall e :: e in log ==> !e.actor.User?
  }

  /** As long as no other client acts, annotations and spec on the server stay what they were: the operator never
      writes them, so no override reaches the server. */
  lemma {:induction false} OperatorNeverWritesSpec(log: seq<Entry>, first: World, last: World)
    requires Chained(log, first, last) && AllGood(log) && OnlyOperator(log)
    ensures first.cr.None? ==> last.cr.None?
    ensures last.cr.Some? ==>
              && first.cr.Some?
              && last.cr.value.uid == first.cr.value.uid
              && last.cr.value.spec == first.cr.value.spec
              && last.cr.value.annotations == first.cr.value.annotations
    decreases |log|
  {
    if log != [] {
      var init, e := log[..|log| - 1], log[|log| - 1];
      assert log == init + [e] && GoodEntry(e);
      OperatorNeverWritesSpec(init, first, e.before);
    }
  }

  /* ---------- The finalizer is dropped after the uninstall ---------- */

  /** The latest action on the release. */
  function LastAction(log: seq<Entry>): Option<Entry>
    decreases |log|
  {
    if log == [] then None
    else if log[|log| - 1].actor.HelmAction? || log[|log| - 1].actor.UninstallAction? then Some(log[|log| - 1])
    else LastAction(log[..|log| - 1])
  }

  /** The latest action on the release was an uninstall, for the resource with this uid, that succeeded or found
      nothing. */
  predicate UninstallDone(log: seq<Entry>, uid: nat) {
    match LastAction(log)
    case None => false
    case Some(e) => e.actor.UninstallAction? && e.ok && e.before.cr.Some? && e.before.cr.value.uid == uid
  }

  predicate DropsFinalizer(e: Entry) {
    Held(e.before) && !Held(e.after)
  }

  predicate InOrder(log: seq<Entry>)
    decreases |log|
  {
    log == [] ||
    var init, e := log[..|log| - 1], log[|log| - 1];
    InOrder(init) && (DropsFinalizer(e) ==> UninstallDone(init, e.before.cr.value.uid))
  }

  lemma {:induction false} DoneStays(before: seq<Entry>, after: seq<Entry>, uid: nat)
    requires |before| <= |after| && after[..|before|] == before && UninstallDone(before, uid)
    requires forall i :: |before| <= i < |after| ==> !after[i].actor.HelmAction? && !after[i].actor.UninstallAction?
    ensures UninstallDone(after, uid)
    decreases |after|
  {
    if |after| > |before| {
      var init := after[..|after| - 1];
      assert init[..|before|] == before;
      DoneStays(before, init, uid);
    } else {
      assert after == before;
    }
  }

  /** Entry `j` is an uninstall of the resource that entry `i` releases; it succeeded or found nothing, and nothing
      happened to the release between the two. */
  predicate UninstalledBefore(log: seq<Entry>, j: nat, i: nat)
    requires j < i < |log| && log[i].before.cr.Some?
  {
    && log[j].actor.UninstallAction? && log[j].ok
    && log[j].before.cr.Some? && log[j].before.cr.value.uid == log[i].before.cr.value.uid
    && forall k :: j < k < i ==> !log[k].actor.HelmAction? && !log[k].actor.UninstallAction?
  }

  /** Nothing happened to the release from entry `j` on. */
  predicate QuietAfter(log: seq<Entry>, j: nat) {
    forall k :: j < k < |log| ==> !log[k].actor.HelmAction? && !log[k].actor.UninstallAction?
  }

  lemma {:induction false} LastActionAt(log: seq<Entry>) returns (j: nat)
    requires LastAction(log).Some?
    ensures j < |log| && log[j] == LastAction(log).value && QuietAfter(log, j)
    decreases |log|
  {
    var n := |log| - 1;
    if log[n].actor.HelmAction? || log[n].actor.UninstallAction? {
      j := n;
    } else {
      j := LastActionAt(log[..n]);
      forall k | j < k < |log|
        ensures !log[k].actor.HelmAction? && !log[k].actor.UninstallAction?
      {
        assert k < n ==> log[k] == log[..n][k];
      }
    }
  }

  lemma DropIsAfterUninstall(log: seq<Entry>, i: nat)
    requires i < |log| && DropsFinalizer(log[i]) && UninstallDone(log[..i], log[i].before.cr.value.uid)
    ensures exists j :: 0 <= j < i && UninstalledBefore(log, j, i)
  {
    var j := LastActionAt(log[..i]);
    assert forall k :: j <= k < i ==> log[..i][k] == log[k];
    assert UninstalledBefore(log, j, i);
  }

  lemma {:induction false} OrderAt(log: seq<Entry>, i: nat)
    requires InOrder(log) && i < |log| && DropsFinalizer(log[i])
    ensures UninstallDone(log[..i], log[i].before.cr.value.uid)
    decreases |log|
  {
    if i < |log| - 1 {
      var init := log[..|log| - 1];
      OrderAt(init, i);
      assert init[..i] == log[..i];
    }
  }

  /** Every step of an ordered log that drops the finalizer comes after such an uninstall. */
  predicate AllDropsAfterUninstall(log: seq<Entry>) {
    forall i :: 0 <= i < |log| && DropsFinalizer(log[i]) ==> exists j :: 0 <= j < i && UninstalledBefore(log, j, i)
  }

  lemma OrderEverywhere(log: seq<Entry>)
    requires InOrder(log)
    ensures AllDropsAfterUninstall(log)
  {
    forall i | 0 <= i < |log| && DropsFinalizer(log[i])
      ensures exists j :: 0 <= j < i && UninstalledBefore(log, j, i)
    {
      OrderAt(log, i);
      DropIsAfterUninstall(log, i);
    }
  }

  /** A run that loses the finalizer has a step of the operator that drops it: from a resource that is being deleted,
      with no release recorded, and after an uninstall of that resource that succeeded or found nothing, with nothing
      done to the release in between. */
  lemma {:induction false} FinalizerLostOnlyAfterUninstall(log: seq<Entry>, first: World, last: World)
    requires Chained(log, first, last) && AllGood(log) && InOrder(log) && Held(first) && !Held(last)
    ensures exists i :: 0 <= i < |log| && DropsFinalizer(log[i]) && !log[i].actor.User?
              && log[i].before.helm == [] && log[i].before.cr.value.deleting
              && exists j :: 0 <= j < i && UninstalledBefore(log, j, i)
  {
    DropFound(log, first, last);
    var i :| 0 <= i < |log| && DropsFinalizer(log[i]);
    assert GoodEntry(log[i]);
    OrderEverywhere(log);
  }

  lemma {:induction false} DropFound(log: seq<Entry>, first: World, last: World)
    requires Chained(log, first, last) && Held(first) && !Held(last)
    ensures exists i :: 0 <= i < |log| && DropsFinalizer(log[i])
    decreases |log|
  {
    var n := |log| - 1;
    if Held(log[n].before) {
      assert DropsFinalizer(log[n]);
    } else {
      DropFound(log[..n], first, log[n].before);
      var i :| 0 <= i < n && DropsFinalizer(log[..n][i]);
      assert DropsFinalizer(log[i]);
    }
  }
}
