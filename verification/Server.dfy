/** The API server and Helm as the operator sees them: every call may come after requests of other clients, and may
    fail, with or without having taken effect.  When the operator crashes, all its later calls fail without effect,
    until it is restarted. */
module Server {
  import opened Wrappers
  import opened StatusEdits
  import opened Outcomes
  import opened Cluster

  datatype ApiError = NotFoundError | ConflictError | OtherError

  datatype UninstallResult = Uninstalled | NothingToUninstall | UninstallFailed(msg: string)

  /** The operator's copy of the resource, which it edits in place. */
  class Object {
    var it: Resource

    constructor (r: Resource)
      ensures it == r
    {
      it := r;
    }
  }

  /** Whether a copy with the version that is on the server has the same identity, annotations, spec, and finalizers of
      others. */
  predicate SpecSync(r: Resource, w: World) {
    && r.version <= w.lastVersion
    && (w.cr.Some? && w.cr.value.version == r.version ==>
         && w.cr.value.uid == r.uid
         && w.cr.value.deleting == r.deleting
         && w.cr.value.annotations == r.annotations
         && w.cr.value.spec == r.spec
         && SameOthers(w.cr.value.finalizers, r.finalizers))
  }

  /** The log has grown, by steps of other clients and of these actors. */
  predicate Grows(before: seq<Entry>, after: seq<Entry>, actors: set<Actor>) {
    && |before| <= |after| && after[..|before|] == before
    && forall i :: |before| <= i < |after| ==> after[i].actor in actors + {User}
  }

  predicate EndsWith(log: seq<Entry>, actor: Actor, ok: bool) {
    log != [] && log[|log| - 1].actor == actor && log[|log| - 1].ok == ok
  }

  function Last(helm: seq<Revision>): Revision
    requires helm != []
  {
    helm[|helm| - 1]
  }

  /** An upgrade marks the deployed revisions as superseded. */
  function Supersede(helm: seq<Revision>): seq<Revision> {
    seq(|helm|, i requires 0 <= i < |helm| =>
      if helm[i].status.RevisionDeployed? then helm[i].(status := RevisionSuperseded) else helm[i])
  }

  function Installed(name: string, manifest: string, notes: string): Revision {
    Revision(name, 1, manifest, RevisionDeployed, notes)
  }

  function Upgraded(helm: seq<Revision>, manifest: string, notes: string): Revision
    requires helm != []
  {
    Revision(Last(helm).name, Last(helm).version + 1, manifest, RevisionDeployed, notes)
  }

  /** Helm refuses to upgrade a release with another action pending on it, or one that is uninstalled. */
  predicate Upgradable(helm: seq<Revision>) {
    helm != [] && !Last(helm).status.RevisionOther?
  }

  /** The world after a status write, which changes the status and nothing else. */
  function StatusWritten(w: World, st: Status): World
    requires w.cr.Some?
  {
    w.(cr := Some(w.cr.value.(version := w.lastVersion + 1, status := st)), lastVersion := w.lastVersion + 1)
  }

  /** The resource after a write of everything but the status. */
  function Merged(w: World, r: Resource): Resource
    requires w.cr.Some?
  {
    w.cr.value.(version := w.lastVersion + 1, finalizers := r.finalizers, annotations := r.annotations,
                spec := r.spec)
  }

  function MetaWritten(w: World, r: Resource): World
    requires w.cr.Some?
  {
    w.(cr := Settle(Merged(w, r)), lastVersion := w.lastVersion + 1)
  }

  /** What a copy must be like for its finalizers to be written safely: it keeps the operator's, or the resource is
      being deleted and its release has been uninstalled. */
  predicate SafeToWrite(r: Resource, w: World, log: seq<Entry>) {
    && SpecSync(r, w)
    && (HasFinalizer(r) || (r.deleting && w.helm == [] && UninstallDone(log, r.uid)))
  }

  lemma StatusWriteIsGood(w: World, st: Status)
    requires w.cr.Some? && StatusOk(st)
    ensures OperatorStep(w, StatusWritten(w, st))
    ensures Held(w) ==> Held(StatusWritten(w, st))
  {
  }

  lemma MetaWriteIsGood(w: World, r: Resource, log: seq<Entry>)
    requires w.cr.Some? && w.cr.value.version == r.version && SafeToWrite(r, w, log)
    ensures OperatorStep(w, MetaWritten(w, r))
    ensures Held(w) && !Held(MetaWritten(w, r)) ==> UninstallDone(log, w.cr.value.uid)
  {
  }

  lemma SpecSyncStable(r: Resource, w: World, w': World)
    requires SpecSync(r, w) && Drifts(w, w')
    ensures SpecSync(r, w')
  {
  }

  lemma SafeToWriteStable(r: Resource, w: World, log: seq<Entry>, w': World, log': seq<Entry>)
    requires SafeToWrite(r, w, log) && Rely(w, w') && Grows(log, log', {})
    ensures SafeToWrite(r, w', log')
  {
    SpecSyncStable(r, w, w');
    if !HasFinalizer(r) {
      DoneStays(log, log', r.uid);
    }
  }

  /** A write that was stored without an answer makes the copy outdated, and so still safe to write. */
  lemma StoredStaysSafe(r: Resource, w: World, log: seq<Entry>)
    requires w.cr.Some?
    ensures forall log' :: Grows(log, log', {MetaWrite}) && SafeToWrite(r, w, log) ==>
              SafeToWrite(r, MetaWritten(w, r), log')
  {
    forall log' | Grows(log, log', {MetaWrite}) && SafeToWrite(r, w, log)
      ensures SafeToWrite(r, MetaWritten(w, r), log')
    {
      if !HasFinalizer(r) {
        DoneStays(log, log', r.uid);
      }
    }
  }

  /** Two copies of one resource that differ at most in version, finalizers and status. */
  predicate SameSpec(a: Resource, b: Resource) {
    a.uid == b.uid && a.deleting == b.deleting && a.annotations == b.annotations && a.spec == b.spec
  }

  class ApiServer {
    /** Nobody else acts and no call fails. */
    const quiet: bool
    const name: string
    var w: World
    var crashed: bool
    ghost const first: World
    ghost var log: seq<Entry>
    /** The resource as it was read last. */
    ghost var lastRead: Option<Resource>
    /** The answers to all writes. */
    ghost var answers: seq<Option<ApiError>>

    /** The log tells how the world came about. */
    ghost predicate Valid()
      reads this
    {
      Chained(log, first, w) && (quiet ==> !crashed)
    }

    /** Every step in the log kept the rules, and finalizers were dropped after uninstalls. */
    ghost predicate Good()
      reads this
    {
      Valid() && AllGood(log) && InOrder(log) && WorldOk(w)
    }

    constructor (quiet: bool, name: string, w: World)
      requires WorldOk(w)
      ensures this.quiet == quiet && this.name == name && this.w == w
      ensures first == w && log == [] && Good()
    {
      this.quiet, this.name, this.w := quiet, name, w;
      first := w;
      crashed, log, lastRead, answers := false, [], None, [];
    }

    ghost method Note(actor: Actor, before: World, ok: bool)
      requires Chained(log, first, before) && (quiet ==> !crashed)
      modifies this`log
      ensures Valid() && log == old(log) + [Entry(actor, before, w, ok)]
      ensures Grows(old(log), log, {actor}) && EndsWith(log, actor, ok)
      ensures old(AllGood(log) && InOrder(log)) && WorldOk(before) && GoodEntry(Entry(actor, before, w, ok)) ==>
                (Held(before) && !Held(w) ==> old(UninstallDone(log, before.cr.value.uid))) ==> Good()
    {
      var e := Entry(actor, before, w, ok);
      log := log + [e];
      assert log[..|log| - 1] == old(log);
    }

    /** Other clients act, and the operator may crash. */
    method Interfere()
      requires Valid()
      modifies this
      ensures Valid() && (old(Good()) ==> Good())
      ensures lastRead == old(lastRead) && answers == old(answers) && Rely(old(w), w) && Grows(old(log), log, {})
      ensures quiet ==> w == old(w) && log == old(log)
    {
      if quiet {
        return;
      }
      var n: nat := *;
      while n > 0
        invariant Valid() && (old(Good()) ==> Good())
        invariant lastRead == old(lastRead) && answers == old(answers) && Rely(old(w), w) && Grows(old(log), log, {})
      {
        assert LeavesFinalizer(UserDelete, w);
        var q :| LeavesFinalizer(q, w);
        ghost var before := w;
        UserStepRelies(q, w);
        w := UserStep(q, w);
        Note(User, before, true);
        RelyTransitive(old(w), before, w);
        n := n - 1;
      }
      if * {
        crashed := true;
      }
    }

    /** The operator is started again. */
    method Restart()
      requires Good()
      modifies this`crashed
      ensures Good() && !crashed
    {
      crashed := false;
    }

    /** A call can always fail, and does so after a crash. */
    method Fails() returns (failed: bool)
      ensures quiet ==> failed == crashed
      ensures crashed ==> failed
    {
      if crashed {
        return true;
      }
      if quiet {
        return false;
      }
      failed := *;
    }

    method Get(obj: Object) returns (e: Option<ApiError>)
      requires Good()
      modifies this, obj
      ensures Good() && Rely(old(w), w) && Grows(old(log), log, {})
      ensures e.None? ==> w.cr == Some(obj.it) && lastRead == Some(obj.it)
      ensures e == Some(NotFoundError) ==> w.cr.None?
      ensures e.Some? ==> obj.it == old(obj.it)
      ensures quiet ==> w == old(w) && log == old(log) && e == if w.cr.Some? then None else Some(NotFoundError)
    {
      Interfere();
      var failed := Fails();
      if failed {
        return Some(OtherError);
      }
      if w.cr.None? {
        return Some(NotFoundError);
      }
      obj.it := w.cr.value;
      lastRead := Some(obj.it);
      return None;
    }

    /** The server stores a status; the caller may or may not learn of it. */
    method StoreStatus(st: Status, answered: bool)
      requires Valid() && w.cr.Some?
      modifies this`w, this`log
      ensures Valid() && (old(Good()) && StatusOk(st) ==> Good())
      ensures w == StatusWritten(old(w), st)
      ensures Grows(old(log), log, {StatusWrite}) && |log| > |old(log)| && EndsWith(log, StatusWrite, answered)
    {
      ghost var before := w;
      w := StatusWritten(w, st);
      if StatusOk(st) {
        StatusWriteIsGood(before, st);
      }
      Note(StatusWrite, before, answered);
    }

    /** The server stores everything but the status. */
    method StoreMeta(r: Resource, answered: bool)
      requires Valid() && w.cr.Some? && w.cr.value.version == r.version
      modifies this`w, this`log
      ensures Valid() && (old(Good() && SafeToWrite(r, w, log)) ==> Good())
      ensures w == MetaWritten(old(w), r) && Grows(old(log), log, {MetaWrite})
    {
      ghost var before := w;
      w := MetaWritten(w, r);
      if SafeToWrite(r, before, log) {
        MetaWriteIsGood(before, r, log);
      }
      Note(MetaWrite, before, answered);
    }

    /** What the server makes of a write with this version before it stores anything. */
    method Admit(version: nat) returns (e: Option<ApiError>)
      ensures e == if w.cr.None? then Some(NotFoundError)
                   else if w.cr.value.version != version then Some(ConflictError) else None
    {
      if w.cr.None? {
        return Some(NotFoundError);
      }
      return if w.cr.value.version != version then Some(ConflictError) else None;
    }

    /** A write that fails for another reason may or may not be stored, unless the operator is gone. */
    method MayStore(version: nat) returns (applied: bool)
      ensures applied ==> w.cr.Some? && w.cr.value.version == version
    {
      var stored: bool := *;
      applied := stored && !crashed && w.cr.Some? && w.cr.value.version == version;
    }

    /** Writes the status of the copy and nothing else of it. */
    method UpdateStatus(obj: Object) returns (e: Option<ApiError>)
      requires Valid()
      modifies this, obj
      ensures Valid() && (old(Good() && StatusOk(obj.it.status)) ==> Good())
      ensures answers == old(answers) + [e] && lastRead == old(lastRead) && Grows(old(log), log, {StatusWrite})
      ensures w.helm == old(w.helm) && (old(Held(w)) ==> Held(w))
      ensures old(SpecSync(obj.it, w)) ==> SpecSync(obj.it, w)
      ensures e.Some? ==> obj.it == old(obj.it)
      ensures e.None? ==>
                && w.cr == Some(obj.it) && obj.it.status == old(obj.it.status)
                && |log| > |old(log)| && EndsWith(log, StatusWrite, true)
      ensures e.None? && old(SpecSync(obj.it, w)) ==> SameSpec(obj.it, old(obj.it))
      ensures quiet && old(w.cr.Some? && w.cr.value.version == obj.it.version) ==>
                e.None? && w == StatusWritten(old(w), old(obj.it.status))
    {
      Interfere();
      var failed := Fails();
      if failed {
        var applied := MayStore(obj.it.version);
        if applied {
          StoreStatus(obj.it.status, false);
        }
        e := SomeError();
      } else {
        e := Admit(obj.it.version);
        if e.None? {
          StoreStatus(obj.it.status, true);
          obj.it := w.cr.value;
        }
      }
      answers := answers + [e];
    }

    method SomeError() returns (e: Option<ApiError>)
      ensures e.Some?
    {
      var error: ApiError := *;
      return Some(error);
    }

    /** The server's part of a write of everything but the status. */
    method PutMeta(obj: Object) returns (e: Option<ApiError>)
      requires Valid()
      modifies this`w, this`log, obj
      ensures Valid() && (old(Good() && SafeToWrite(obj.it, w, log)) ==> Good())
      ensures Grows(old(log), log, {MetaWrite})
      ensures e.Some? ==>
                && obj.it == old(obj.it)
                && (old(SafeToWrite(obj.it, w, log)) ==> SafeToWrite(obj.it, w, log))
                && w.helm == old(w.helm)
      ensures e.None? ==>
                && old(w.cr.Some? && w.cr.value.version == obj.it.version)
                && w == MetaWritten(old(w), old(obj.it)) && obj.it == Merged(old(w), old(obj.it))
      ensures quiet && old(w.cr.Some? && w.cr.value.version == obj.it.version) ==> e.None?
    {
      var failed := Fails();
      if failed {
        var applied := MayStore(obj.it.version);
        if applied {
          StoredStaysSafe(obj.it, w, log);
          StoreMeta(obj.it, false);
        }
        e := SomeError();
      } else {
        e := Admit(obj.it.version);
        if e.None? {
          var stored := Merged(w, obj.it);
          StoreMeta(obj.it, true);
          obj.it := stored;
        }
      }
    }

    /** Writes everything of the copy but its status. */
    method Update(obj: Object) returns (e: Option<ApiError>)
      requires Valid()
      modifies this, obj
      ensures Valid() && (old(Good() && SafeToWrite(obj.it, w, log)) ==> Good())
      ensures answers == old(answers) + [e] && lastRead == old(lastRead) && Grows(old(log), log, {MetaWrite})
      ensures w.helm == old(w.helm)
      ensures e.Some? ==> obj.it == old(obj.it)
      ensures e.Some? && old(SafeToWrite(obj.it, w, log)) ==> SafeToWrite(obj.it, w, log)
      ensures e.None? ==>
                && SpecSync(obj.it, w) && obj.it.finalizers == old(obj.it.finalizers) && w.cr == Settle(obj.it)
                && (old(Good()) ==> StatusOk(obj.it.status))
      ensures e.None? && old(SpecSync(obj.it, w)) ==> SameSpec(obj.it, old(obj.it))
      ensures e.None? && old(w.cr.Some? && w.cr.value.version == obj.it.version && obj.it.version <= w.lastVersion) ==>
                obj.it.status == old(w.cr.value.status)
      ensures quiet && old(w.cr.Some? && w.cr.value.version == obj.it.version) ==>
                e.None? && w == MetaWritten(old(w), old(obj.it)) && obj.it == Merged(old(w), old(obj.it))
    {
      Interfere();
      if old(SafeToWrite(obj.it, w, log)) {
        SafeToWriteStable(obj.it, old(w), old(log), w, log);
      }
      e := PutMeta(obj);
      answers := answers + [e];
    }

    /* ---------- Helm ---------- */

    // Helm itself does not look at the custom resource.  That it is held, where an action requires it, is what
    // finalizer safety asks of the operator.

    /** Access to Helm for this resource can be refused. */
    method ClientFor() returns (refused: Option<string>)
      requires Good()
      modifies this
      ensures Good() && lastRead == old(lastRead) && Rely(old(w), w) && Grows(old(log), log, {})
      ensures quiet ==> refused.None? && w == old(w) && log == old(log)
    {
      Interfere();
      var failed := Fails();
      refused := None;
      if failed {
        refused := SomeMessage();
      }
    }

    method SomeMessage() returns (m: Option<string>)
      ensures m.Some?
    {
      var msg: string := *;
      return Some(msg);
    }

    method GetRelease() returns (known: KnownRelease)
      requires Good()
      modifies this
      ensures Good() && lastRead == old(lastRead) && Rely(old(w), w) && Grows(old(log), log, {})
      ensures known.NotFound? ==> w.helm == []
      ensures known.Found? ==> w.helm != [] && known.rel == Last(w.helm)
      ensures quiet ==> w == old(w) && log == old(log) && !known.Unavailable?
    {
      Interfere();
      var failed := Fails();
      if failed {
        return Unavailable;
      }
      return if w.helm == [] then NotFound else Found(Last(w.helm));
    }

    /** The release's history changes, and nothing else. */
    method Record(helm: seq<Revision>, ghost actor: Actor, ghost ok: bool)
      requires Good() && Held(w) && !actor.User?
      modifies this`w, this`log
      ensures Good() && w == old(w).(helm := helm)
      ensures log == old(log) + [Entry(actor, old(w), w, ok)] && Grows(old(log), log, {actor})
    {
      ghost var before := w;
      w := w.(helm := helm);
      Note(actor, before, ok);
    }

    /** A Helm action that fails can leave any history behind. */
    method SomeHistory(ghost actor: Actor)
      requires Good() && Held(w) && !actor.User?
      modifies this
      ensures Good() && lastRead == old(lastRead) && Drifts(old(w), w) && Grows(old(log), log, {actor})
    {
      if !crashed {
        var helm: seq<Revision> := *;
        Record(helm, actor, false);
      }
    }

    method Install(manifest: string, notes: string) returns (r: Result<Revision, string>)
      requires Good() && Held(w)
      modifies this
      ensures Good() && lastRead == old(lastRead) && Drifts(old(w), w) && Grows(old(log), log, {HelmAction})
      ensures r.Ok? ==> r.value == Installed(name, manifest, notes) && w.helm == [r.value]
      ensures quiet && old(w.helm) == [] ==> r.Ok? && w == old(w).(helm := [r.value])
    {
      Interfere();
      var failed := Fails();
      if failed || w.helm != [] {
        if failed {
          SomeHistory(HelmAction);
        }
        var m := SomeMessage();
        return Error(m.value);
      }
      var rel := Installed(name, manifest, notes);
      Record([rel], HelmAction, true);
      return Ok(rel);
    }

    /** A dry run returns the revision that an upgrade would record, and records nothing; but when it fails, the
        clean-up after failed upgrades runs all the same. */
    method Upgrade(manifest: string, notes: string, dryRun: bool) returns (r: Result<Revision, string>)
      requires Good() && Held(w)
      modifies this
      ensures Good() && lastRead == old(lastRead) && Drifts(old(w), w) && Grows(old(log), log, {HelmAction})
      ensures r.Ok? ==>
                && old(Upgradable(w.helm)) && r.value == Upgraded(old(w.helm), manifest, notes)
                && w.helm == if dryRun then old(w.helm) else Supersede(old(w.helm)) + [r.value]
      ensures quiet && old(Upgradable(w.helm)) ==>
                && r == Ok(Upgraded(old(w.helm), manifest, notes))
                && w == if dryRun then old(w) else old(w).(helm := Supersede(old(w.helm)) + [r.value])
      ensures quiet && !old(Upgradable(w.helm)) ==> r.Error? && w == old(w)
    {
      Interfere();
      var failed := Fails();
      if failed || !Upgradable(w.helm) {
        if failed {
          SomeHistory(HelmAction);
        }
        var m := SomeMessage();
        return Error(m.value);
      }
      var rel := Upgraded(w.helm, manifest, notes);
      if !dryRun {
        Record(Supersede(w.helm) + [rel], HelmAction, true);
      }
      return Ok(rel);
    }

    /** Bringing the cluster back to the release's manifest does not touch the history. */
    method Repair(rel: Revision) returns (failure: Option<string>)
      requires Good()
      modifies this
      ensures Good() && lastRead == old(lastRead) && Rely(old(w), w) && Grows(old(log), log, {})
      ensures quiet ==> failure.None? && w == old(w)
    {
      failure := ClientFor();
    }

    method Uninstall() returns (r: UninstallResult)
      requires Good() && Held(w)
      modifies this
      ensures Good() && lastRead == old(lastRead) && Drifts(old(w), w) && Grows(old(log), log, {UninstallAction})
      ensures !r.UninstallFailed? ==> w.helm == [] && UninstallDone(log, old(w.cr.value.uid))
      ensures quiet ==> !r.UninstallFailed? && w == old(w).(helm := [])
    {
      Interfere();
      var failed := Fails();
      if failed {
        SomeHistory(UninstallAction);
        var m := SomeMessage();
        return UninstallFailed(m.value);
      }
      r := if w.helm == [] then NothingToUninstall else Uninstalled;
      Record([], UninstallAction, true);
    }
  }
}
