/** One reconciliation of a custom resource: it holds the resource with a finalizer, drives Helm, queues status edits
    along the way, and applies them at the end, however it ends. */
module Reconciler {
  import opened Wrappers
  import opened Conditions
  import opened StatusEdits
  import opened Outcomes
  import opened Cluster
  import opened Server
  import opened Updater

  /** What a reconciler is configured with: who is paused, operator overrides of the spec (the spec after them, and
      whether they could all be applied), the values for the chart, and what the chart renders them to. */
  datatype Settings = Settings(
    paused: Values -> bool,
    override: Values -> (Values, bool),
    translate: Values -> Option<Values>,
    render: Values -> string,
    notes: Values -> string)

  datatype ReleaseState = NeedsInstall | NeedsUpgrade(current: Revision) | Unchanged(current: Revision)

  function Desired(s: Settings, spec: Values): Option<Values> {
    var (overridden, ok) := s.override(spec);
    if ok then s.translate(overridden) else None
  }

  function Classify(helm: seq<Revision>, manifest: string): ReleaseState {
    if helm == [] then NeedsInstall
    else if manifest != Last(helm).manifest then NeedsUpgrade(Last(helm))
    else if Last(helm).status.RevisionFailed? || Last(helm).status.RevisionSuperseded? then NeedsUpgrade(Last(helm))
    else Unchanged(Last(helm))
  }

  /** The history after an undisturbed reconciliation. */
  function HelmAfter(s: Settings, name: string, helm: seq<Revision>, vals: Values): (h: seq<Revision>)
    ensures h != []
  {
    match Classify(helm, s.render(vals))
    case NeedsInstall => [Installed(name, s.render(vals), s.notes(vals))]
    case NeedsUpgrade(_) => Supersede(helm) + [Upgraded(helm, s.render(vals), s.notes(vals))]
    case Unchanged(_) => helm
  }

  function KnownOf(helm: seq<Revision>): KnownRelease {
    if helm == [] then NotFound else Found(Last(helm))
  }

  function QuietOutcome(s: Settings, name: string, helm: seq<Revision>, vals: Values): Outcome {
    Success(KnownOf(helm), Classify(helm, s.render(vals)).Unchanged?, Last(HelmAfter(s, name, helm, vals)))
  }

  /** The resource exists, is not being deleted and not paused, and values can be computed for it. */
  predicate Ready(s: Settings, w: World) {
    && w.cr.Some? && !w.cr.value.deleting && !s.paused(w.cr.value.annotations)
    && Desired(s, w.cr.value.spec).Some?
  }

  /** Moreover Helm does not refuse to touch its release. */
  predicate Live(s: Settings, w: World) {
    Ready(s, w) && Settleable(w.helm)
  }

  /** There is no release yet, or one that Helm agrees to upgrade. */
  predicate Settleable(helm: seq<Revision>) {
    helm == [] || Upgradable(helm)
  }

  /** The resource is being deleted and waits for nobody but the operator. */
  predicate Leaving(s: Settings, w: World) {
    w.cr.Some? && Leaves(w, w.cr.value) && !s.paused(w.cr.value.annotations)
  }

  /** A success leaves the history that brings the release from where it was to what the spec asks for, and tells of
      its latest revision. */
  predicate Brings(s: Settings, name: string, before: seq<Revision>, spec: Values, after: seq<Revision>, o: Outcome) {
    && Desired(s, spec).Some? && o.Success? && Settleable(before)
    && var vals := Desired(s, spec).value;
       && after == HelmAfter(s, name, before, vals)
       && o.result == Last(after)
       && (o.same <==> Classify(before, s.render(vals)).Unchanged?)
  }

  /** The latest revision is deployed and has the manifest. */
  predicate IsDeployed(helm: seq<Revision>, manifest: string) {
    helm != [] && helm[|helm| - 1].status == RevisionDeployed && helm[|helm| - 1].manifest == manifest
  }

  /** `r'` is `r`, but no longer the deployed revision. */
  predicate Superseded(r: Revision, r': Revision) {
    && r'.name == r.name && r'.version == r.version && r'.manifest == r.manifest && r'.notes == r.notes
    && r'.status == if r.status == RevisionDeployed then RevisionSuperseded else r.status
  }

  /** The history has got to the manifest: it is as it was exactly if the latest revision was deployed with it already,
      and otherwise has one revision more, above the others. */
  predicate HasGotTo(name: string, before: seq<Revision>, manifest: string, notes: string, after: seq<Revision>) {
    && IsDeployed(after, manifest)
    && (after == before <==> IsDeployed(before, manifest))
    && (after != before ==>
         && |after| == |before| + 1 && after[|before|].notes == notes
         && (forall i :: 0 <= i < |before| ==> Superseded(before[i], after[i]))
         && (before == [] ==> after[0].name == name && after[0].version == 1)
         && (before != [] ==>
              && after[|before|].name == before[|before| - 1].name
              && after[|before|].version == before[|before| - 1].version + 1))
  }

  /** The history has got to what the spec asks for: the manifest that the chart renders for the spec as it is after the
      operator's overrides. */
  predicate Delivers(s: Settings, name: string, before: seq<Revision>, spec: Values, after: seq<Revision>) {
    var (overridden, applied) := s.override(spec);
    && applied && s.translate(overridden).Some?
    && var vals := s.translate(overridden).value;
       HasGotTo(name, before, s.render(vals), s.notes(vals), after)
  }

  lemma HelmAfterDelivers(s: Settings, name: string, helm: seq<Revision>, spec: Values)
    requires Settleable(helm) && Desired(s, spec).Some?
    ensures Delivers(s, name, helm, spec, HelmAfter(s, name, helm, Desired(s, spec).value))
  {
    var vals := Desired(s, spec).value;
    assert HasGotTo(name, helm, s.render(vals), s.notes(vals), HelmAfter(s, name, helm, vals));
  }

  /** What became of the queued status edits: never queued, canceled because the resource is gone, already true of
      the status that was read, written, or lost because the write failed. */
  datatype Report =
    | NotReached
    | Canceled
    | Skipped(outcome: Outcome, seen: Status)
    | Recorded(outcome: Outcome, seen: Status)
    | Lost(outcome: Outcome, seen: Status, error: ApiError)

  /** A report tells the truth about the status that was seen and the world that the reconciliation leaves. */
  predicate Truthful(report: Report, w: World) {
    match report
    case NotReached => true
    case Canceled => w.cr.None?
    case Skipped(outcome, seen) => AllHold(EditsFor(outcome), seen)
    case Recorded(outcome, seen) => w.cr.Some? && MatchesRow(seen, w.cr.value.status, TableRow(outcome))
    case Lost(_, _, _) => true
  }

  /** Whether a reconciliation with this report returns an error: its own, or that of the status write, unless the
      resource was gone by then. */
  predicate Fails(report: Report)
    requires !report.NotReached?
  {
    match report
    case Canceled => false
    case Lost(outcome, _, error) => !Fine(outcome) || !error.NotFoundError?
    case Skipped(outcome, _) => !Fine(outcome)
    case Recorded(outcome, _) => !Fine(outcome)
  }

  /** Outcomes with which a reconciliation reports no error of its own. */
  predicate Fine(o: Outcome) {
    o.Suspended? || o.Success?
  }

  /** Outcomes that come after the release state is known. */
  predicate AboutRelease(o: Outcome) {
    o.InstallFailed? || o.CurrentUnavailable? || o.UpgradeFailed? || o.RepairFailed? || o.Success?
  }

  function AddFinalizer(r: Resource): Resource {
    r.(finalizers := r.finalizers + [UNINSTALL_FINALIZER])
  }

  function Prepared(w: World): World
    requires w.cr.Some?
  {
    if HasFinalizer(w.cr.value) then w else MetaWritten(w, AddFinalizer(w.cr.value))
  }

  /** The world after the release and the status are brought up to date, with nobody else acting and no failure. */
  function Deployed(s: Settings, name: string, w: World, now: int): World
    requires Live(s, w)
  {
    var vals := Desired(s, w.cr.value.spec).value;
    var w1 := w.(helm := HelmAfter(s, name, w.helm, vals));
    StatusApplied(EditsFor(QuietOutcome(s, name, w.helm, vals)), w.cr.value, w1, now)
  }

  /** The world after a reconciliation during which nobody else acts and nothing fails. */
  function Settled(s: Settings, name: string, w: World, now: int): World
    requires Live(s, w)
  {
    Deployed(s, name, Prepared(w), now)
  }

  /** The outcome when Helm refuses to touch the release. */
  predicate RefusedBy(o: Outcome, helm: seq<Revision>) {
    o.NoState? && o.known == KnownOf(helm)
  }

  /** The world after a reconciliation with this outcome that has changed nothing but finalizer and status. */
  function OnlyStatus(o: Outcome, w: World, now: int): World
    requires w.cr.Some?
  {
    StatusApplied(EditsFor(o), w.cr.value, w, now)
  }

  /** The copy is current, and only the operator's finalizer keeps the resource. */
  predicate Leaves(w: World, r: Resource) {
    && w.cr == Some(r) && r.deleting && HasFinalizer(r)
    && Without(r.finalizers, UNINSTALL_FINALIZER) == []
  }

  lemma RemovalReleases(edits: seq<StatusEdit>, w: World, now: int)
    requires w.cr.Some? && Leaves(w, w.cr.value)
    ensures var w1 := StatusApplied(edits, w.cr.value, w, now);
            var w2 := ObjectApplied([RemoveFinalizer(UNINSTALL_FINALIZER)], w1.cr.value, w1);
            w2.cr.None? && w2.helm == w.helm
  {
    var r := StatusApplied(edits, w.cr.value, w, now).cr.value;
    assert [RemoveFinalizer(UNINSTALL_FINALIZER)][..0] == [];
    assert FoldObject([RemoveFinalizer(UNINSTALL_FINALIZER)], r) == (r.(finalizers := []), true);
  }

  lemma SuccessQueue(known: KnownRelease, same: bool, rel: Revision)
    ensures EditsFor(Success(known, same, rel)) ==
              SuccessStart(known, same) + DeployedEdits(rel)
              + [Mk(RELEASE_FAILED, ConditionFalse, "", ""), Mk(IRRECONCILABLE, ConditionFalse, "", "")]
  {
  }

  lemma NoValuesQueue(known: KnownRelease, msg: string)
    ensures EditsFor(NoValues(known, msg)) ==
              EarlyEdits(known) + [Mk(IRRECONCILABLE, ConditionTrue, "ErrorGettingValues", msg),
                                   EnsureConditionUnknown(RELEASE_FAILED)]
  {
  }

  lemma NoStateQueue(known: KnownRelease, msg: string)
    ensures EditsFor(NoState(known, msg)) ==
              EarlyEdits(known) + [Mk(IRRECONCILABLE, ConditionTrue, "ErrorGettingReleaseState", msg),
                                   EnsureConditionUnknown(RELEASE_FAILED), EnsureConditionUnknown(DEPLOYED),
                                   RemoveDeployedRelease()]
  {
  }

  lemma FailureQueue(o: Outcome)
    requires AboutRelease(o) && !o.Success?
    ensures EditsFor(o) == LateEdits(o.known) + FailureEdits(o)
  {
  }

  /** The resource of the copy is on the server and held. */
  predicate HeldFor(w: World, r: Resource) {
    Held(w) && w.cr.value.uid == r.uid
  }

  /** The report of an update that was applied without an error. */
  lemma WrittenIsTrue(outcome: Outcome, seen: Status, now: int, w: World)
    requires Unique(seen.conditions)
    requires var (st, changed) := Fold(EditsFor(outcome), seen, now);
             changed ==> w.cr.Some? && w.cr.value.status == Written(st)
    ensures var changed := Fold(EditsFor(outcome), seen, now).1;
            Truthful(if changed then Recorded(outcome, seen) else Skipped(outcome, seen), w)
  {
    OutcomeTable(outcome, seen, now);
    WriteSkippedIff(EditsFor(outcome), seen, now);
  }

  lemma DriftsTransitive(a: World, b: World, c: World)
    requires Drifts(a, b) && Drifts(b, c)
    ensures Drifts(a, c)
  {
  }

  class Reconciler {
    const settings: Settings

    constructor (settings: Settings)
      ensures this.settings == settings
    {
      this.settings := settings;
    }

    method GetValues(obj: Object) returns (vals: Option<Values>)
      modifies obj
      ensures obj.it == old(obj.it).(spec := settings.override(old(obj.it.spec)).0)
      ensures vals == Desired(settings, old(obj.it.spec))
    {
      var (spec, ok) := settings.override(obj.it.spec);
      obj.it := obj.it.(spec := spec);
      if !ok {
        return None;
      }
      vals := settings.translate(spec);
    }

    method GetReleaseState(c: ApiServer, vals: Values) returns (r: Result<ReleaseState, string>)
      requires c.Good() && Held(c.w)
      modifies c
      ensures c.Good() && c.lastRead == old(c.lastRead) && Drifts(old(c.w), c.w)
      ensures old(c.log) <= c.log
      ensures r.Ok? ==> c.w.helm == old(c.w.helm) && r.value == Classify(c.w.helm, settings.render(vals))
      ensures r.Ok? ==>
                && Settleable(c.w.helm) && (r.value.NeedsInstall? <==> c.w.helm == [])
                && (r.value.Unchanged? <==> IsDeployed(c.w.helm, settings.render(vals)))
                && (!r.value.NeedsInstall? ==> r.value.current == c.w.helm[|c.w.helm| - 1])
      ensures c.quiet ==> c.w == old(c.w) && (r.Ok? <==> Settleable(old(c.w.helm)))
    {
      var current := c.GetRelease();
      match current {
        case Unavailable =>
          return Error("could not get the release");
        case NotFound =>
          return Ok(NeedsInstall);
        case Found(rel) =>
          ghost var w1 := c.w;
          var dry := c.Upgrade(settings.render(vals), settings.notes(vals), true);
          DriftsTransitive(old(c.w), w1, c.w);
          if dry.Error? {
            return Error(dry.error);
          }
          if dry.value.manifest != rel.manifest || rel.status.RevisionFailed? || rel.status.RevisionSuperseded? {
            return Ok(NeedsUpgrade(rel));
          }
          return Ok(Unchanged(rel));
      }
    }

    method EnsureDeployed(u: Updater, rel: Revision)
      modifies u`updateStatusFuncs
      ensures u.updateStatusFuncs == old(u.updateStatusFuncs) + DeployedEdits(rel)
    {
      var reason, message := "InstallSuccessful", "release was successfully installed";
      if rel.version > 1 {
        reason, message := "UpgradeSuccessful", "release was successfully upgraded";
      }
      if rel.notes != "" {
        message := rel.notes;
      }
      u.UpdateStatus([Mk(DEPLOYED, ConditionTrue, reason, message), EnsureDeployedRelease(Some(RecordOf(rel)))]);
    }

    /** The release is noted in the status as early as possible; that it could not be looked up is not. */
    method NoteRelease(u: Updater, known: KnownRelease)
      modifies u`updateStatusFuncs
      ensures u.updateStatusFuncs == old(u.updateStatusFuncs) + KnownEdits(known)
    {
      match known {
        case Found(rel) => EnsureDeployed(u, rel);
        case NotFound => u.UpdateStatus([Mk(DEPLOYED, ConditionFalse, "", "")]);
        case Unavailable =>
      }
    }

    method DoInstall(c: ApiServer, u: Updater, vals: Values) returns (r: Result<Revision, string>)
      requires c.Good() && Held(c.w)
      modifies c, u`updateStatusFuncs
      ensures c.Good() && c.lastRead == old(c.lastRead) && Drifts(old(c.w), c.w)
      ensures old(c.log) <= c.log
      ensures u.updateStatusFuncs ==
                if r.Ok? then old(u.updateStatusFuncs)
                else old(u.updateStatusFuncs) + FailureEdits(InstallFailed(NotFound, r.error))
      ensures r.Ok? ==>
                r.value == Installed(c.name, settings.render(vals), settings.notes(vals)) && c.w.helm == [r.value]
      ensures c.quiet && old(c.w.helm) == [] ==> r.Ok? && c.w == old(c.w).(helm := c.w.helm)
    {
      r := c.Install(settings.render(vals), settings.notes(vals));
      if r.Error? {
        u.UpdateStatus([Mk(IRRECONCILABLE, ConditionTrue, "ReconcileError", r.error),
                        Mk(RELEASE_FAILED, ConditionTrue, "InstallError", r.error)]);
      }
    }

    /** When the current release cannot be read, the upgrade fails without saying so in the status. */
    method DoUpgrade(c: ApiServer, u: Updater, vals: Values) returns (r: Result<Revision, string>, ghost got: bool)
      requires c.Good() && Held(c.w)
      modifies c, u`updateStatusFuncs
      ensures c.Good() && c.lastRead == old(c.lastRead) && Drifts(old(c.w), c.w)
      ensures old(c.log) <= c.log
      ensures r.Ok? ==> got
      ensures u.updateStatusFuncs ==
                if r.Ok? || !got then old(u.updateStatusFuncs)
                else old(u.updateStatusFuncs) + FailureEdits(UpgradeFailed(NotFound, r.error))
      ensures r.Ok? ==>
                && old(Upgradable(c.w.helm))
                && r.value == Upgraded(old(c.w.helm), settings.render(vals), settings.notes(vals))
                && c.w.helm == Supersede(old(c.w.helm)) + [r.value]
      ensures c.quiet && Upgradable(old(c.w.helm)) ==> r.Ok? && c.w == old(c.w).(helm := c.w.helm)
    {
      var current := c.GetRelease();
      if !current.Found? {
        return Error("could not get the current Helm Release"), false;
      }
      ghost var w1 := c.w;
      r := c.Upgrade(settings.render(vals), settings.notes(vals), false);
      DriftsTransitive(old(c.w), w1, c.w);
      if r.Error? {
        u.UpdateStatus([Mk(IRRECONCILABLE, ConditionTrue, "ReconcileError", r.error),
                        Mk(RELEASE_FAILED, ConditionTrue, "UpgradeError", r.error)]);
      }
      got := true;
    }

    method DoReconcile(c: ApiServer, u: Updater, rel: Revision) returns (failure: Option<string>)
      requires c.Good()
      modifies c, u`updateStatusFuncs
      ensures c.Good() && c.lastRead == old(c.lastRead) && Drifts(old(c.w), c.w)
      ensures old(c.log) <= c.log
      ensures u.updateStatusFuncs == old(u.updateStatusFuncs) +
                if failure.None? then [Mk(RELEASE_FAILED, ConditionFalse, "", "")]
                else FailureEdits(RepairFailed(NotFound, failure.value))
      ensures c.w.helm == old(c.w.helm)
      ensures c.quiet ==> failure.None? && c.w == old(c.w)
    {
      u.UpdateStatus([Mk(RELEASE_FAILED, ConditionFalse, "", "")]);
      failure := c.Repair(rel);
      if failure.Some? {
        u.UpdateStatus([Mk(IRRECONCILABLE, ConditionTrue, "ReconcileError", failure.value)]);
      }
    }

    /** Only an uninstall that succeeded, or found nothing, queues the removal of the finalizer. */
    method DoUninstall(c: ApiServer, u: Updater) returns (failure: Option<string>)
      requires c.Good() && Held(c.w)
      modifies c, u
      ensures c.Good() && c.lastRead == old(c.lastRead) && Drifts(old(c.w), c.w)
      ensures old(c.log) <= c.log
      ensures u.isCanceled == old(u.isCanceled)
      ensures u.updateStatusFuncs == old(u.updateStatusFuncs) + UninstallEdits(failure)
      ensures u.updateFuncs == old(u.updateFuncs)
          + (if failure.None? then [RemoveFinalizer(UNINSTALL_FINALIZER)] else [])
      ensures failure.None? ==> c.w.helm == [] && UninstallDone(c.log, old(c.w.cr.value.uid))
      ensures c.quiet ==> failure.None? && c.w == old(c.w).(helm := [])
    {
      var r := c.Uninstall();
      if r.UninstallFailed? {
        u.UpdateStatus([Mk(IRRECONCILABLE, ConditionTrue, "ReconcileError", r.msg),
                        Mk(RELEASE_FAILED, ConditionTrue, "UninstallError", r.msg)]);
        return Some(r.msg);
      }
      u.Update([RemoveFinalizer(UNINSTALL_FINALIZER)]);
      u.UpdateStatus([Mk(RELEASE_FAILED, ConditionFalse, "", ""),
                      Mk(DEPLOYED, ConditionFalse, "UninstallSuccessful", ""), RemoveDeployedRelease()]);
      return None;
    }

    /** Polls until the resource is gone; gives up on an error or a timeout. */
    method WaitForDeletion(c: ApiServer, obj: Object) returns (failed: bool)
      requires c.Good() && StatusOk(obj.it.status)
      modifies c, obj
      ensures c.Good() && StatusOk(obj.it.status)
      ensures old(c.log) <= c.log
      ensures !failed ==> c.w.cr.None?
      ensures c.quiet && old(c.w).cr.None? ==> !failed && c.w == old(c.w)
    {
      var e := c.Get(obj);
      var polls: nat := *;
      while e.None? && polls > 0
        invariant c.Good() && StatusOk(obj.it.status)
        invariant old(c.log) <= c.log
        invariant e == Some(NotFoundError) ==> c.w.cr.None?
        invariant c.quiet && old(c.w).cr.None? ==> e == Some(NotFoundError) && c.w == old(c.w)
      {
        e := c.Get(obj);
        polls := polls - 1;
      }
      failed := e != Some(NotFoundError);
    }

    /** Writes the result of the uninstall and, if there is nothing left, lets the resource go. */
    method ApplyUninstall(c: ApiServer, obj: Object, u: Updater, failure: Option<string>, now: int)
      returns (failed: bool)
      requires c.Good() && StatusOk(obj.it.status) && SpecSync(obj.it, c.w) && obj.it.deleting
      requires HasFinalizer(obj.it) && !u.isCanceled && u.updateStatusFuncs == UninstallEdits(failure)
      requires u.updateFuncs == if failure.None? then [RemoveFinalizer(UNINSTALL_FINALIZER)] else []
      requires failure.None? ==> c.w.helm == [] && UninstallDone(c.log, obj.it.uid)
      modifies c, obj
      ensures c.Good() && c.lastRead == old(c.lastRead) && StatusOk(obj.it.status) && old(c.log) <= c.log
      ensures !failed ==> c.w.helm == [] && !Held(c.w)
      ensures c.quiet && failure.None? && Leaves(old(c.w), old(obj.it)) ==> !failed && c.w.cr.None? && c.w.helm == []
    {
      UninstallKeepsStatusOk(failure, obj.it.status, now);
      if Leaves(c.w, obj.it) {
        RemovalReleases(u.updateStatusFuncs, c.w, now);
      }
      var applyError := u.Apply(c, obj, now);
      failed := failure.Some? || applyError.Some?;
    }

    /** Uninstalls the release and writes the result with an updater of its own. */
    method UninstallAndApply(c: ApiServer, obj: Object, now: int) returns (failed: bool)
      requires c.Good() && StatusOk(obj.it.status) && SpecSync(obj.it, c.w) && obj.it.deleting
      requires HasFinalizer(obj.it) && HeldFor(c.w, obj.it)
      modifies c, obj
      ensures c.Good() && c.lastRead == old(c.lastRead) && StatusOk(obj.it.status) && old(c.log) <= c.log
      ensures !failed ==> c.w.helm == [] && !Held(c.w)
      ensures c.quiet && Leaves(old(c.w), old(obj.it)) ==> !failed && c.w.cr.None? && c.w.helm == []
    {
      var u := new Updater();
      var failure := DoUninstall(c, u);
      SpecSyncStable(obj.it, old(c.w), c.w);
      assert u.updateStatusFuncs == UninstallEdits(failure);
      assert u.updateFuncs == if failure.None? then [RemoveFinalizer(UNINSTALL_FINALIZER)] else [];
      failed := ApplyUninstall(c, obj, u, failure, now);
    }

    method HandleDeletion(c: ApiServer, obj: Object, now: int) returns (failed: bool)
      requires c.Good() && StatusOk(obj.it.status) && SpecSync(obj.it, c.w) && obj.it.deleting
      requires HasFinalizer(obj.it) ==> HeldFor(c.w, obj.it)
      modifies c, obj
      ensures c.Good() && StatusOk(obj.it.status) && old(c.log) <= c.log
      ensures !failed ==> c.w.cr.None?
      ensures c.quiet && Leaves(old(c.w), old(obj.it)) ==> !failed && c.w.cr.None? && c.w.helm == []
    {
      if HasFinalizer(obj.it) {
        failed := UninstallAndApply(c, obj, now);
        if failed {
          return;
        }
      }
      failed := WaitForDeletion(c, obj);
    }

    /** Installs, upgrades or repairs the release, as the state asks for. */
    method Act(c: ApiServer, u: Updater, vals: Values, state: ReleaseState, ghost known: KnownRelease)
      returns (rel: Option<Revision>, ghost failure: Outcome)
      requires c.Good() && Held(c.w)
      modifies c, u`updateStatusFuncs
      ensures c.Good() && c.lastRead == old(c.lastRead) && old(c.log) <= c.log
      ensures rel.Some? ==>
                u.updateStatusFuncs == old(u.updateStatusFuncs)
                  + if state.Unchanged? then [Mk(RELEASE_FAILED, ConditionFalse, "", "")] else []
      ensures rel.None? ==> u.updateStatusFuncs == old(u.updateStatusFuncs) + FailureEdits(failure)
      ensures AboutRelease(failure) && !failure.Success? && failure.known == known
      ensures state == Classify(old(c.w.helm), settings.render(vals)) && rel.Some? ==>
                && c.w.helm == HelmAfter(settings, c.name, old(c.w.helm), vals)
                && rel == Some(Last(c.w.helm))
      ensures c.quiet && state == Classify(old(c.w.helm), settings.render(vals)) && Settleable(old(c.w.helm)) ==>
                rel.Some? && c.w == old(c.w).(helm := c.w.helm)
    {
      match state {
        case NeedsInstall =>
          var r := DoInstall(c, u, vals);
          rel := if r.Ok? then Some(r.value) else None;
          failure := InstallFailed(known, if r.Ok? then "" else r.error);
        case NeedsUpgrade(_) =>
          ghost var got;
          var r;
          r, got := DoUpgrade(c, u, vals);
          rel := if r.Ok? then Some(r.value) else None;
          failure := if r.Ok? || !got then CurrentUnavailable(known) else UpgradeFailed(known, r.error);
        case Unchanged(current) =>
          var e := DoReconcile(c, u, current);
          rel := if e.None? then Some(current) else None;
          failure := RepairFailed(known, if e.None? then "" else e.value);
      }
    }

    /** Acts on the release and, if that went well, notes the release in the status. */
    method Advance(c: ApiServer, u: Updater, vals: Values, state: ReleaseState, ghost known: KnownRelease)
      returns (failed: bool, ghost outcome: Outcome)
      requires c.Good() && Held(c.w) && u.updateStatusFuncs == LateEdits(known)
      modifies c, u`updateStatusFuncs
      ensures c.Good() && c.lastRead == old(c.lastRead) && old(c.log) <= c.log
      ensures u.updateStatusFuncs == EditsFor(outcome) && AboutRelease(outcome)
      ensures !failed <==> outcome.Success?
      ensures state == Classify(old(c.w.helm), settings.render(vals)) && outcome.Success? ==>
                && c.w.helm == HelmAfter(settings, c.name, old(c.w.helm), vals)
                && outcome == Success(known, state.Unchanged?, Last(c.w.helm))
      ensures c.quiet && state == Classify(old(c.w.helm), settings.render(vals)) && Settleable(old(c.w.helm)) ==>
                !failed && c.w == old(c.w).(helm := c.w.helm)
    {
      ghost var failure;
      var rel;
      rel, failure := Act(c, u, vals, state, known);
      if rel.None? {
        FailureQueue(failure);
        return true, failure;
      }
      assert u.updateStatusFuncs == SuccessStart(known, state.Unchanged?);
      EnsureDeployed(u, rel.value);
      u.UpdateStatus([Mk(RELEASE_FAILED, ConditionFalse, "", ""), Mk(IRRECONCILABLE, ConditionFalse, "", "")]);
      SuccessQueue(known, state.Unchanged?, rel.value);
      return false, Success(known, state.Unchanged?, rel.value);
    }

    /** The part for a resource that is not being deleted: values, release state, release. */
    method Deploy(c: ApiServer, obj: Object, u: Updater, ghost known: KnownRelease)
      returns (failed: bool, ghost outcome: Outcome)
      requires c.Good() && Held(c.w) && u.updateStatusFuncs == EarlyEdits(known)
      modifies c, obj, u`updateStatusFuncs
      ensures c.Good() && c.lastRead == old(c.lastRead) && old(c.log) <= c.log
      ensures obj.it == old(obj.it).(spec := obj.it.spec)
      ensures u.updateStatusFuncs == EditsFor(outcome)
      ensures !outcome.Deletion? && !outcome.Suspended? && !outcome.NoClient?
      ensures !failed <==> outcome.Success?
      ensures outcome.Success? ==> Brings(settings, c.name, old(c.w.helm), old(obj.it.spec), c.w.helm, outcome)
                                   && outcome.known == known
      ensures c.quiet && Desired(settings, old(obj.it.spec)).Some? && Settleable(old(c.w.helm)) ==>
                !failed && c.w == old(c.w).(helm := c.w.helm)
      ensures c.quiet && Desired(settings, old(obj.it.spec)).Some? && !Settleable(old(c.w.helm)) ==>
                outcome.NoState? && outcome.known == known && c.w == old(c.w)
    {
      var vals := GetValues(obj);
      if vals.None? {
        var msg: string := *;
        u.UpdateStatus([Mk(IRRECONCILABLE, ConditionTrue, "ErrorGettingValues", msg),
                        EnsureConditionUnknown(RELEASE_FAILED)]);
        NoValuesQueue(known, msg);
        return true, NoValues(known, msg);
      }
      var state := GetReleaseState(c, vals.value);
      if state.Error? {
        u.UpdateStatus([Mk(IRRECONCILABLE, ConditionTrue, "ErrorGettingReleaseState", state.error),
                        EnsureConditionUnknown(RELEASE_FAILED), EnsureConditionUnknown(DEPLOYED),
                        RemoveDeployedRelease()]);
        NoStateQueue(known, state.error);
        return true, NoState(known, state.error);
      }
      u.UpdateStatus([Mk(IRRECONCILABLE, ConditionFalse, "", "")]);
      failed, outcome := Advance(c, u, vals.value, state.value, known);
    }

    /** What happens once there is access to Helm. */
    method Engage(c: ApiServer, obj: Object, u: Updater, now: int) returns (failed: bool, ghost outcome: Outcome)
      requires c.Good() && StatusOk(obj.it.status) && SpecSync(obj.it, c.w)
      requires HasFinalizer(obj.it) || !obj.it.deleting ==> HeldFor(c.w, obj.it)
      requires !u.isCanceled && u.updateFuncs == [] && u.updateStatusFuncs == [Mk(PAUSED, ConditionFalse, "", "")]
      modifies c, obj, u
      ensures c.Good() && StatusOk(obj.it.status) && old(c.log) <= c.log
      ensures u.updateFuncs == [] && u.updateStatusFuncs == EditsFor(outcome)
      ensures u.isCanceled <==> outcome.Deletion? && !failed
      ensures u.isCanceled ==> c.w.cr.None?
      ensures outcome.Deletion? <==> old(obj.it.deleting)
      ensures !outcome.Suspended? && !outcome.NoClient?
      ensures !outcome.Deletion? ==> (!failed <==> Fine(outcome)) && c.lastRead == old(c.lastRead)
      ensures outcome.Success? ==> Brings(settings, c.name, old(c.w.helm), old(obj.it.spec), c.w.helm, outcome)
      ensures !outcome.Deletion? ==> obj.it.status == old(obj.it.status)
      ensures c.quiet && !old(obj.it.deleting) && Settleable(old(c.w.helm))
              && Desired(settings, old(obj.it.spec)).Some? ==>
                && outcome.Success? && outcome.known == KnownOf(old(c.w.helm))
                && c.w == old(c.w).(helm := c.w.helm) && obj.it == old(obj.it).(spec := obj.it.spec)
      ensures c.quiet && !old(obj.it.deleting) && !Settleable(old(c.w.helm))
              && Desired(settings, old(obj.it.spec)).Some? ==>
                RefusedBy(outcome, old(c.w.helm)) && c.w == old(c.w) && obj.it == old(obj.it).(spec := obj.it.spec)
      ensures c.quiet && Leaves(old(c.w), old(obj.it)) ==>
                !failed && u.isCanceled && c.w.cr.None? && c.w.helm == []
    {
      var known := c.GetRelease();
      SpecSyncStable(obj.it, old(c.w), c.w);
      NoteRelease(u, known);
      u.UpdateStatus([Mk(INITIALIZED, ConditionTrue, "", "")]);
      assert u.updateStatusFuncs == EarlyEdits(known);
      if obj.it.deleting {
        failed := HandleDeletion(c, obj, now);
        if !failed {
          u.CancelUpdates();
        }
        return failed, Deletion(known);
      }
      failed, outcome := Deploy(c, obj, u, known);
    }

    /** Everything between the finalizer and the deferred update: the queue holds the edits of the outcome. */
    method Proceed(c: ApiServer, obj: Object, u: Updater, now: int) returns (failed: bool, ghost outcome: Outcome)
      requires c.Good() && StatusOk(obj.it.status) && SpecSync(obj.it, c.w)
      requires HasFinalizer(obj.it) || !obj.it.deleting ==> HeldFor(c.w, obj.it)
      requires !u.isCanceled && u.updateFuncs == [] && u.updateStatusFuncs == []
      modifies c, obj, u
      ensures c.Good() && StatusOk(obj.it.status) && old(c.log) <= c.log
      ensures u.updateFuncs == [] && u.updateStatusFuncs == EditsFor(outcome)
      ensures u.isCanceled <==> outcome.Deletion? && !failed
      ensures u.isCanceled ==> c.w.cr.None?
      ensures outcome.Deletion? <==> old(obj.it.deleting) && !outcome.Suspended? && !outcome.NoClient?
      ensures outcome.Suspended? <==> settings.paused(old(obj.it.annotations))
      ensures !outcome.Deletion? ==> (!failed <==> Fine(outcome)) && c.lastRead == old(c.lastRead)
      ensures outcome.Success? ==> Brings(settings, c.name, old(c.w.helm), old(obj.it.spec), c.w.helm, outcome)
      ensures !outcome.Deletion? ==> obj.it.status == old(obj.it.status)
      ensures c.quiet && Live(settings, old(c.w)) && old(c.w.cr == Some(obj.it)) ==>
                && outcome.Success? && outcome.known == KnownOf(old(c.w.helm))
                && c.w == old(c.w).(helm := c.w.helm) && obj.it == old(obj.it).(spec := obj.it.spec)
      ensures c.quiet && Ready(settings, old(c.w)) && !Settleable(old(c.w.helm)) && old(c.w.cr == Some(obj.it)) ==>
                RefusedBy(outcome, old(c.w.helm)) && c.w == old(c.w) && obj.it == old(obj.it).(spec := obj.it.spec)
      ensures c.quiet && Leaving(settings, old(c.w)) && old(c.w.cr == Some(obj.it)) ==>
                !failed && u.isCanceled && c.w.cr.None? && c.w.helm == []
    {
      if settings.paused(obj.it.annotations) {
        u.UpdateStatus(EditsFor(Suspended));
        return false, Suspended;
      }
      u.UpdateStatus([Mk(PAUSED, ConditionFalse, "", "")]);
      var refused := c.ClientFor();
      SpecSyncStable(obj.it, old(c.w), c.w);
      if refused.Some? {
        u.UpdateStatus([Mk(IRRECONCILABLE, ConditionTrue, "ErrorGettingClient", refused.value),
                        EnsureConditionUnknown(DEPLOYED), EnsureConditionUnknown(INITIALIZED),
                        EnsureConditionUnknown(RELEASE_FAILED), RemoveDeployedRelease()]);
        return true, NoClient(refused.value);
      }
      failed, outcome := Engage(c, obj, u, now);
    }

    /** A resource that is not being deleted gets the finalizer before anything else happens. */
    method Hold(c: ApiServer, obj: Object) returns (e: Option<ApiError>)
      requires c.Good() && c.w.cr == Some(obj.it)
      modifies c, obj
      ensures c.Good() && c.lastRead == old(c.lastRead) && old(c.log) <= c.log
      ensures c.w.helm == old(c.w.helm)
      ensures e.None? ==> obj.it.spec == old(obj.it.spec) && obj.it.status == old(obj.it.status)
      ensures e.None? ==>
                && StatusOk(obj.it.status) && SpecSync(obj.it, c.w)
                && (HasFinalizer(obj.it) || !obj.it.deleting ==> HeldFor(c.w, obj.it))
      ensures c.quiet ==>
                && e.None? && c.w.cr == Some(obj.it)
                && c.w == if old(obj.it.deleting) then old(c.w) else Prepared(old(c.w))
    {
      if !obj.it.deleting && !HasFinalizer(obj.it) {
        obj.it := AddFinalizer(obj.it);
        e := c.Update(obj);
        return;
      }
      return None;
    }

    /** One reconciliation.  Whatever happens, every step keeps the rules of the log, and the edits of the outcome
        are applied at the end. */
    method Reconcile(c: ApiServer, now: int) returns (failed: bool, ghost report: Report)
      requires c.Good()
      modifies c
      ensures c.Good() && old(c.log) <= c.log
      ensures Truthful(report, c.w)
      ensures !report.NotReached? ==> (failed <==> Fails(report))
      ensures report.NotReached? && !failed ==> c.w.cr.None?
      ensures c.quiet && old(c.w.cr.None?) ==> !failed && c.w == old(c.w)
      ensures !report.NotReached? && !report.Canceled? && !report.outcome.Deletion? ==>
                c.lastRead.Some? && report.seen == c.lastRead.value.status
      ensures !report.NotReached? && !report.Canceled? && report.outcome.Success? ==>
                && Brings(settings, c.name, old(c.w.helm), c.lastRead.value.spec, c.w.helm, report.outcome)
                && Delivers(settings, c.name, old(c.w.helm), c.lastRead.value.spec, c.w.helm)
                && report.outcome.result == c.w.helm[|c.w.helm| - 1]
      ensures c.quiet && Live(settings, old(c.w)) ==>
                !failed && c.w == Settled(settings, c.name, old(c.w), now)
      ensures c.quiet && Ready(settings, old(c.w)) && !Settleable(old(c.w.helm)) ==>
                && failed && !report.NotReached? && !report.Canceled? && RefusedBy(report.outcome, old(c.w.helm))
                && c.w == OnlyStatus(report.outcome, Prepared(old(c.w)), now)
      ensures c.quiet && Leaving(settings, old(c.w)) ==> !failed && c.w.cr.None? && c.w.helm == []
    {
      var obj := new Object(Resource(0, 0, [], false, map[], map[], EMPTY_STATUS));
      var e := c.Get(obj);
      if e == Some(NotFoundError) {
        return false, NotReached;
      }
      if e.Some? {
        return true, NotReached;
      }
      e := Hold(c, obj);
      if e.Some? {
        return true, NotReached;
      }
      failed, report := ProceedAndApply(c, obj, now);
      if !report.Canceled? && report.outcome.Success? {
        HelmAfterDelivers(settings, c.name, old(c.w.helm), c.lastRead.value.spec);
      }
    }

    /** The deferred update.  That the resource is gone by then is not an error. */
    method Conclude(c: ApiServer, obj: Object, u: Updater, bodyFailed: bool, ghost outcome: Outcome, now: int)
      returns (failed: bool, ghost report: Report)
      requires c.Good() && StatusOk(obj.it.status)
      requires u.updateFuncs == [] && u.updateStatusFuncs == EditsFor(outcome)
      requires u.isCanceled ==> c.w.cr.None? && !bodyFailed
      requires !u.isCanceled ==> (bodyFailed <==> !Fine(outcome))
      modifies c, obj
      ensures c.Good() && old(c.log) <= c.log && c.w.helm == old(c.w.helm) && c.lastRead == old(c.lastRead)
      ensures Truthful(report, c.w)
      ensures !report.NotReached? && (failed <==> Fails(report))
      ensures report.Canceled? <==> u.isCanceled
      ensures !report.Canceled? ==> report.outcome == outcome && report.seen == old(obj.it.status)
      ensures u.isCanceled ==> c.w == old(c.w)
      ensures c.quiet && !u.isCanceled && old(c.w.cr.Some? && c.w.cr.value.version == obj.it.version) ==>
                (failed <==> bodyFailed) && c.w == StatusApplied(EditsFor(outcome), old(obj.it), old(c.w), now)
    {
      ghost var seen := obj.it.status;
      EveryOutcomeKeepsStatusOk(outcome, seen, now);
      var applyError := u.Apply(c, obj, now);
      if !u.isCanceled && applyError.None? {
        WrittenIsTrue(outcome, seen, now, c.w);
      }
      report := if u.isCanceled then Canceled
                else if applyError.Some? then Lost(outcome, seen, applyError.value)
                else if Fold(EditsFor(outcome), seen, now).1 then Recorded(outcome, seen)
                else Skipped(outcome, seen);
      failed := bodyFailed;
      if !failed && applyError != Some(NotFoundError) {
        failed := applyError.Some?;
      }
    }

    /** The body of a reconciliation, with the deferred update after it. */
    method ProceedAndApply(c: ApiServer, obj: Object, now: int) returns (failed: bool, ghost report: Report)
      requires c.Good() && StatusOk(obj.it.status) && SpecSync(obj.it, c.w)
      requires HasFinalizer(obj.it) || !obj.it.deleting ==> HeldFor(c.w, obj.it)
      modifies c, obj
      ensures c.Good() && old(c.log) <= c.log
      ensures Truthful(report, c.w)
      ensures !report.NotReached? && (failed <==> Fails(report))
      ensures !report.Canceled? && !report.outcome.Deletion? ==>
                c.lastRead == old(c.lastRead) && report.seen == old(obj.it.status)
      ensures !report.Canceled? && report.outcome.Success? ==>
                Brings(settings, c.name, old(c.w.helm), old(obj.it.spec), c.w.helm, report.outcome)
      ensures c.quiet && Live(settings, old(c.w)) && old(c.w.cr == Some(obj.it)) ==>
                !failed && c.w == Deployed(settings, c.name, old(c.w), now)
      ensures c.quiet && Ready(settings, old(c.w)) && !Settleable(old(c.w.helm)) && old(c.w.cr == Some(obj.it)) ==>
                && failed && !report.Canceled? && RefusedBy(report.outcome, old(c.w.helm))
                && c.w == OnlyStatus(report.outcome, old(c.w), now)
      ensures c.quiet && Leaving(settings, old(c.w)) && old(c.w.cr == Some(obj.it)) ==>
                !failed && c.w.cr.None? && c.w.helm == []
    {
      var u := new Updater();
      ghost var outcome;
      failed, outcome := Proceed(c, obj, u, now);
      failed, report := Conclude(c, obj, u, failed, outcome, now);
    }

    /** The controller at work: reconciliations, with crashes and restarts, between requests of other clients.
        After every single step of such a run, finalizer safety and status consistency hold, and every step that
        drops the finalizer comes after an uninstall. */
    method Run(c: ApiServer, times: seq<int>)
      requires c.Good() && WorldOk(c.first)
      modifies c
      ensures c.Good() && old(c.log) <= c.log
      ensures forall e :: e in c.log ==> WorldOk(e.before) && WorldOk(e.after)
      ensures forall e :: e in c.log && !e.actor.User? ==> LeavesOthers(e.before, e.after)
      ensures AllDropsAfterUninstall(c.log)
    {
      var i := 0;
      while i < |times|
        invariant c.Good() && old(c.log) <= c.log
      {
        c.Interfere();
        c.Restart();
        ghost var report;
        var failed;
        failed, report := Reconcile(c, times[i]);
        i := i + 1;
      }
      RunStaysOk(c.log, c.first, c.w);
      OrderEverywhere(c.log);
    }
  }
}
