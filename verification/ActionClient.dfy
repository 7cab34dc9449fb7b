/** Install and upgrade with clean-up after failures: a failed install is uninstalled, a failed upgrade is rolled
    back. */
module ActionClient {
  import opened Wrappers
  import opened Outcomes
  import opened Server

  /** An error of Helm, or one that reports a second failure and wraps the cause of the first. */
  datatype Failure =
    | ReleaseNotFound
    | Cause(msg: string)
    | CleanUpFailed(cleanUp: Failure, original: Failure)

  /** Whether unwrapping the error leads to this cause. */
  predicate LeadsTo(e: Failure, cause: Failure) {
    e == cause || (e.CleanUpFailed? && LeadsTo(e.original, cause))
  }

  /** The error that is left when everything is unwrapped. */
  function Root(e: Failure): Failure {
    if e.CleanUpFailed? then Root(e.original) else e
  }

  lemma {:induction false} LeadsToRoot(e: Failure, cause: Failure)
    requires !cause.CleanUpFailed?
    ensures LeadsTo(e, cause) <==> Root(e) == cause
  {
    if e.CleanUpFailed? {
      LeadsToRoot(e.original, cause);
    }
  }

  lemma {:induction false} WrapsAnother(cleanUp: Failure, e: Failure)
    ensures CleanUpFailed(cleanUp, e) != e
    decreases e
  {
    if e.CleanUpFailed? {
      WrapsAnother(e.cleanUp, e.original);
    }
  }

  /** The error is the one of the action, or that of the clean-up with the one of the action in it. */
  predicate Tells(e: Failure, failure: Failure) {
    e == failure || (e.CleanUpFailed? && e.original == failure)
  }

  datatype Action = Action(maxHistory: nat, dryRun: bool)

  const DEFAULT_ACTION := Action(0, false)

  /** An option changes the action, or refuses. */
  type ActionOption = Action -> Result<Action, Failure>

  /** The action after all options, in order, or the first refusal. */
  function Configured(opts: seq<ActionOption>): Result<Action, Failure> {
    if opts == [] then Ok(DEFAULT_ACTION)
    else
      match Configured(opts[..|opts| - 1])
      case Error(e) => Error(e)
      case Ok(a) => opts[|opts| - 1](a)
  }

  /** The first refusal is the one that is reported, and the options after it do not matter. */
  lemma {:induction false} RefusalStands(opts: seq<ActionOption>, i: nat)
    requires i <= |opts| && Configured(opts[..i]).Error?
    ensures Configured(opts) == Configured(opts[..i])
    decreases |opts|
  {
    if i < |opts| {
      var init := opts[..|opts| - 1];
      assert init[..i] == opts[..i];
      RefusalStands(init, i);
    } else {
      assert opts[..i] == opts;
    }
  }

  /** An option gives the action a property, whatever the action was before. */
  ghost predicate Sets(opt: ActionOption, p: Action -> bool) {
    forall a :: opt(a).Ok? ==> p(opt(a).value)
  }

  ghost predicate Keeps(opt: ActionOption, p: Action -> bool) {
    forall a :: p(a) && opt(a).Ok? ==> p(opt(a).value)
  }

  /** What one option sets and the later ones leave alone is so in the configured action: every option counts, in the
      order in which they are given. */
  lemma {:induction false} SettingCounts(opts: seq<ActionOption>, i: nat, p: Action -> bool)
    requires i < |opts| && Sets(opts[i], p)
    requires forall j :: i < j < |opts| ==> Keeps(opts[j], p)
    requires Configured(opts).Ok?
    ensures p(Configured(opts).value)
    decreases |opts|
  {
    if i < |opts| - 1 {
      SettingCounts(opts[..|opts| - 1], i, p);
      assert Keeps(opts[|opts| - 1], p);
    }
  }

  /** What the default options have set stays, unless the options of the call change it. */
  lemma {:induction false} DefaultsCount(defaults: seq<ActionOption>, opts: seq<ActionOption>, p: Action -> bool)
    requires Configured(defaults).Ok? && p(Configured(defaults).value)
    requires forall j :: 0 <= j < |opts| ==> Keeps(opts[j], p)
    ensures Configured(defaults + opts).Ok? ==> p(Configured(defaults + opts).value)
    decreases |opts|
  {
    if opts == [] {
      assert defaults + opts == defaults;
    } else {
      var init := opts[..|opts| - 1];
      assert (defaults + opts)[..|defaults + opts| - 1] == defaults + init;
      DefaultsCount(defaults, init, p);
      assert Keeps(opts[|opts| - 1], p);
    }
  }

  /** The two fields that options set. */
  function MaxHistory(n: nat): ActionOption {
    (a: Action) => Ok(a.(maxHistory := n))
  }

  function AsDryRun(): ActionOption {
    (a: Action) => Ok(a.(dryRun := true))
  }

  /** The history limit and the dry run of a state lookup both count, in either order; without options an action is no
      dry run and has no limit. */
  lemma OptionsForStateLookup(n: nat)
    ensures Configured([MaxHistory(n), AsDryRun()]) == Ok(Action(n, true))
    ensures Configured([AsDryRun(), MaxHistory(n)]) == Ok(Action(n, true))
    ensures Configured([]) == Ok(Action(0, false))
  {
    var a, b := MaxHistory(n), AsDryRun();
    assert [a, b][..1] == [a] && [b, a][..1] == [b] && [a][..0] == [] && [b][..0] == [];
    assert Configured([a]) == Ok(Action(n, false)) && Configured([b]) == Ok(Action(0, true));
  }

  /* ---------- The history of a release ---------- */

  /** Revisions are numbered upwards. */
  predicate Numbered(h: seq<Revision>) {
    forall i, j :: 0 <= i < j < |h| ==> h[i].version < h[j].version
  }

  function WithVersion(h: seq<Revision>, v: int): Option<Revision> {
    if h == [] then None
    else if h[0].version == v then Some(h[0])
    else WithVersion(h[1..], v)
  }

  lemma {:induction false} VersionAt(h: seq<Revision>, i: nat)
    requires Numbered(h) && i < |h|
    ensures WithVersion(h, h[i].version) == Some(h[i])
  {
    if i > 0 {
      VersionAt(h[1..], i - 1);
    }
  }

  /** A rollback goes to the revision numbered one below the latest. */
  function RollbackTarget(h: seq<Revision>): Option<Revision> {
    if h == [] then None else WithVersion(h, Last(h).version - 1)
  }

  /** The history after a rollback: a new revision with the manifest of the target. */
  function RolledBack(h: seq<Revision>): seq<Revision>
    requires RollbackTarget(h).Some?
  {
    var target := RollbackTarget(h).value;
    Supersede(h) + [Revision(target.name, Last(h).version + 1, target.manifest, RevisionDeployed, target.notes)]
  }

  function Attempt(h: seq<Revision>, manifest: string): Revision
    requires h != []
  {
    Revision(Last(h).name, Last(h).version + 1, manifest, RevisionFailed, "")
  }

  /** The history when the clean-up of a failed upgrade runs. */
  function AfterFailure(h: seq<Revision>, manifest: string, recorded: bool): seq<Revision>
    requires h != []
  {
    if recorded then h + [Attempt(h, manifest)] else h
  }

  /** A rollback after a failed upgrade brings the manifest from before back exactly if the failed revision had been
      recorded, or, if it had not, the revision below has the same manifest anyway.  A failed dry run is of the
      second kind: it can undo a good release. */
  lemma RollbackRestoresIff(h: seq<Revision>, manifest: string, recorded: bool)
    requires h != [] && Numbered(h)
    requires RollbackTarget(AfterFailure(h, manifest, recorded)).Some?
    ensures Last(RolledBack(AfterFailure(h, manifest, recorded))).manifest == Last(h).manifest <==>
              recorded || RollbackTarget(h).value.manifest == Last(h).manifest
  {
    if recorded {
      RecordedTarget(h, manifest);
    }
  }

  /** A recorded failure always has the revision from before as the target of the rollback. */
  lemma RecordedTarget(h: seq<Revision>, manifest: string)
    requires h != [] && Numbered(h)
    ensures Numbered(AfterFailure(h, manifest, true))
    ensures RollbackTarget(AfterFailure(h, manifest, true)) == Some(Last(h))
  {
    var after := AfterFailure(h, manifest, true);
    assert Last(h).version == after[|h| - 1].version;
    VersionAt(after, |h| - 1);
  }

  /** The history stays numbered through an upgrade and through a rollback. */
  lemma RolledBackIsNumbered(h: seq<Revision>)
    requires Numbered(h) && RollbackTarget(h).Some?
    ensures Numbered(RolledBack(h))
  {
  }

  /** A rollback always leaves another history, since it records a revision of its own. */
  lemma RolledBackDiffers(h: seq<Revision>)
    requires RollbackTarget(h).Some?
    ensures |RolledBack(h)| == |h| + 1
  {
  }

  /** A failed dry run that hands back a revision undoes the latest release. */
  lemma FailedDryRunUndoesRelease(name: string, m1: string, m2: string, m3: string)
    requires m1 != m2
    ensures var h := [Revision(name, 1, m1, RevisionSuperseded, ""), Revision(name, 2, m2, RevisionDeployed, "")];
            && RollbackTarget(AfterFailure(h, m3, false)).Some?
            && Last(RolledBack(AfterFailure(h, m3, false))).manifest == m1
            && Last(h).manifest == m2
  {
    var h := [Revision(name, 1, m1, RevisionSuperseded, ""), Revision(name, 2, m2, RevisionDeployed, "")];
    VersionAt(h, 0);
  }

  /** Helm's actions on one release, by contract. */
  class Helm {
    const name: string
    var history: seq<Revision>
    /** Whether the latest failed install or upgrade left a revision in the history. */
    ghost var recorded: bool
    /** The error of the latest install or upgrade. */
    ghost var failure: Option<Failure>

    constructor (name: string, history: seq<Revision>)
      requires Numbered(history)
      ensures this.name == name && this.history == history
    {
      this.name, this.history, recorded, failure := name, history, false, None;
    }

    /** A name in use is refused without a revision, but not for a dry run, which does not look at the name.  A failure
        without a revision has recorded nothing; one with a revision may or may not have recorded it, a dry run never
        has. */
    method Install(manifest: string, a: Action) returns (rel: Option<Revision>, e: Option<Failure>)
      requires Numbered(history)
      modifies this
      ensures Numbered(history)
      ensures failure == e
      ensures e.None? ==> rel == Some(Installed(name, manifest, ""))
                          && history == if a.dryRun then old(history) else [rel.value]
      ensures e.Some? && rel.None? ==> history == old(history)
      ensures e.Some? && rel.Some? ==> (old(history) == [] || a.dryRun) && (a.dryRun ==> !recorded)
                                       && history == if recorded then [rel.value] else old(history)
    {
      var fault: Option<Failure> := *;
      failure := fault;
      if history != [] && !a.dryRun {
        failure := Some(Cause("cannot re-use a name that is still in use"));
        return None, Some(Cause("cannot re-use a name that is still in use"));
      }
      if fault.Some? {
        var partial: bool := *;
        if partial {
          var stored: bool := *;
          var failed := Revision(name, 1, manifest, RevisionFailed, "");
          recorded := stored && !a.dryRun;
          history := if stored && !a.dryRun then [failed] else history;
          return Some(failed), fault;
        }
        return None, fault;
      }
      var installed := Installed(name, manifest, "");
      if !a.dryRun {
        history := [installed];
      }
      return Some(installed), None;
    }

    method Upgrade(manifest: string, a: Action) returns (rel: Option<Revision>, e: Option<Failure>)
      requires Numbered(history)
      modifies this
      ensures Numbered(history)
      ensures failure == e
      ensures e.None? ==> old(Upgradable(history)) && rel == Some(Upgraded(old(history), manifest, ""))
                          && history == if a.dryRun then old(history) else Supersede(old(history)) + [rel.value]
      ensures e.Some? && rel.None? ==> history == old(history)
      ensures e.Some? && rel.Some? ==> old(history) != [] && rel == Some(Attempt(old(history), manifest))
                                       && history == AfterFailure(old(history), manifest, recorded)
                                       && (a.dryRun ==> !recorded)
    {
      var fault: Option<Failure> := *;
      failure := fault;
      if !Upgradable(history) {
        var refusal := if history == [] then ReleaseNotFound else Cause("another operation is in progress");
        failure := Some(refusal);
        return None, Some(refusal);
      }
      if fault.Some? {
        var partial: bool := *;
        if partial {
          var stored: bool := *;
          rel := Some(Attempt(history, manifest));
          recorded := stored && !a.dryRun;
          history := if stored && !a.dryRun then history + [rel.value] else history;
          return rel, fault;
        }
        return None, fault;
      }
      rel := Some(Upgraded(history, manifest, ""));
      if !a.dryRun {
        history := Supersede(history) + [rel.value];
      }
      return rel, None;
    }

    method Uninstall() returns (e: Option<Failure>)
      requires Numbered(history)
      modifies this`history
      ensures Numbered(history)
      ensures old(history) == [] ==> e.Some? && history == []
      ensures e.None? || LeadsTo(e.value, ReleaseNotFound) ==> history == []
    {
      var fault: Option<Failure> := *;
      if history == [] {
        return Some(ReleaseNotFound);
      }
      if fault.Some? && !LeadsTo(fault.value, ReleaseNotFound) {
        var left: int := *;
        history := if 0 <= left <= |history| then history[..left] else history;
        return fault;
      }
      history := [];
      return None;
    }

    method Rollback() returns (e: Option<Failure>)
      requires Numbered(history)
      modifies this`history
      ensures Numbered(history)
      ensures e.None? ==> RollbackTarget(old(history)).Some? && history == RolledBack(old(history))
      ensures RollbackTarget(old(history)).None? ==> e.Some? && history == old(history)
    {
      var fault: Option<Failure> := *;
      var target := RollbackTarget(history);
      if target.None? {
        return Some(Cause("release has no such version"));
      }
      RolledBackIsNumbered(history);
      if fault.Some? {
        var stored: bool := *;
        if stored {
          history := RolledBack(history);
        }
        return fault;
      }
      history := RolledBack(history);
      return None;
    }
  }

  class ActionClient {
    const helm: Helm
    const enableFailureRollbacks: bool
    const defaultInstallOpts: seq<ActionOption>
    const defaultUpgradeOpts: seq<ActionOption>

    constructor (helm: Helm, enableFailureRollbacks: bool, defaultInstallOpts: seq<ActionOption>,
                 defaultUpgradeOpts: seq<ActionOption>)
      ensures this.helm == helm && this.enableFailureRollbacks == enableFailureRollbacks
      ensures this.defaultInstallOpts == defaultInstallOpts && this.defaultUpgradeOpts == defaultUpgradeOpts
    {
      this.helm, this.enableFailureRollbacks := helm, enableFailureRollbacks;
      this.defaultInstallOpts, this.defaultUpgradeOpts := defaultInstallOpts, defaultUpgradeOpts;
    }

    /** The options are applied to the action one by one, until one refuses. */
    method Configure(opts: seq<ActionOption>) returns (r: Result<Action, Failure>)
      ensures r == Configured(opts)
    {
      var a := DEFAULT_ACTION;
      var i := 0;
      while i < |opts|
        invariant 0 <= i <= |opts| && Configured(opts[..i]) == Ok(a)
      {
        assert opts[..i + 1][..i] == opts[..i];
        var next := opts[i](a);
        if next.Error? {
          RefusalStands(opts, i + 1);
          return next;
        }
        a := next.value;
        i := i + 1;
      }
      assert opts[..i] == opts;
      return Ok(a);
    }

    /** After a failed install that Helm answered with a revision, the release is uninstalled.  Unless that fails,
        nothing of the attempt is left; but a failed dry run that hands back a revision takes the release that the name
        is in use for along.  If the uninstall fails, the error still leads to the original cause. */
    method Install(manifest: string, opts: seq<ActionOption>)
      returns (rel: Option<Revision>, e: Option<Failure>)
      requires Numbered(helm.history)
      modifies helm
      ensures Numbered(helm.history)
      ensures Configured(defaultInstallOpts + opts).Error? ==>
                e == Some(Configured(defaultInstallOpts + opts).error) && helm.history == old(helm.history)
      ensures Configured(defaultInstallOpts + opts).Ok? ==>
                && (e.Some? <==> helm.failure.Some?)
                && (e.Some? ==> Tells(e.value, helm.failure.value))
      ensures Configured(defaultInstallOpts + opts).Ok? && !enableFailureRollbacks ==> e == helm.failure
      ensures e.None? ==> rel == Some(Installed(helm.name, manifest, ""))
                          && helm.history == if Configured(defaultInstallOpts + opts).value.dryRun
                                             then old(helm.history) else [rel.value]
      ensures e.Some? && rel.None? && e == helm.failure ==> helm.history == old(helm.history)
      ensures e.Some? && rel.Some? ==> old(helm.history) == [] || DryRun(defaultInstallOpts + opts)
      ensures e.Some? && rel.Some? && enableFailureRollbacks ==> helm.history == []
      ensures e.Some? && rel.Some? && !enableFailureRollbacks ==>
                helm.history == if helm.recorded then [rel.value] else old(helm.history)
      ensures e.Some? && enableFailureRollbacks && e == helm.failure ==>
                (helm.history == old(helm.history) <==> rel.None? || old(helm.history) == [])
    {
      var config := Configure(defaultInstallOpts + opts);
      if config.Error? {
        return None, Some(config.error);
      }
      rel, e := helm.Install(manifest, config.value);
      if e.Some? && enableFailureRollbacks && rel.Some? {
        var uninstallError := helm.Uninstall();
        if uninstallError.Some? && !LeadsTo(uninstallError.value, ReleaseNotFound) {
          WrapsAnother(uninstallError.value, e.value);
          return None, Some(CleanUpFailed(uninstallError.value, e.value));
        }
      }
    }

    /** After a failed upgrade that Helm answered with a revision, the release is rolled back.  If that works and the
        failed revision had been recorded, the manifest from before is the latest again; if the rollback fails, the
        error still leads to the original cause.  A dry run records nothing, so the rollback after a failed dry run
        goes one revision further back. */
    method Upgrade(manifest: string, opts: seq<ActionOption>)
      returns (rel: Option<Revision>, e: Option<Failure>)
      requires Numbered(helm.history)
      modifies helm
      ensures Numbered(helm.history)
      ensures Configured(defaultUpgradeOpts + opts).Error? ==>
                e == Some(Configured(defaultUpgradeOpts + opts).error) && helm.history == old(helm.history)
      ensures Configured(defaultUpgradeOpts + opts).Ok? ==>
                && (e.Some? <==> helm.failure.Some?)
                && (e.Some? ==> Tells(e.value, helm.failure.value))
      ensures e.Some? && rel.None? && e == helm.failure ==> helm.history == old(helm.history)
      ensures e.Some? && rel.Some? && enableFailureRollbacks ==>
                && old(helm.history) != []
                && RollbackTarget(AfterFailure(old(helm.history), manifest, helm.recorded)).Some?
                && helm.history == RolledBack(AfterFailure(old(helm.history), manifest, helm.recorded))
                && Last(helm.history).status == RevisionDeployed
                && (helm.recorded ==> Last(helm.history).manifest == Last(old(helm.history)).manifest)
      ensures e.Some? && rel.Some? && enableFailureRollbacks && DryRun(defaultUpgradeOpts + opts) ==>
                && !helm.recorded && RollbackTarget(old(helm.history)).Some?
                && helm.history == RolledBack(old(helm.history))
                && Last(helm.history).manifest == RollbackTarget(old(helm.history)).value.manifest
      ensures e.Some? && rel.Some? && !enableFailureRollbacks ==>
                && old(helm.history) != []
                && helm.history == AfterFailure(old(helm.history), manifest, helm.recorded)
      ensures Configured(defaultUpgradeOpts + opts).Ok? && !enableFailureRollbacks ==> e == helm.failure
      ensures e.None? ==> Upgradable(old(helm.history)) && rel == Some(Upgraded(old(helm.history), manifest, ""))
                          && helm.history == if DryRun(defaultUpgradeOpts + opts)
                                             then old(helm.history)
                                             else Supersede(old(helm.history)) + [rel.value]
      ensures DryRun(defaultUpgradeOpts + opts) && (e.Some? ==> e == helm.failure) ==>
                (helm.history == old(helm.history) <==> !(e.Some? && rel.Some? && enableFailureRollbacks))
    {
      var config := Configure(defaultUpgradeOpts + opts);
      if config.Error? {
        return None, Some(config.error);
      }
      rel, e := helm.Upgrade(manifest, config.value);
      if e.Some? && enableFailureRollbacks && rel.Some? {
        if helm.recorded {
          RecordedTarget(old(helm.history), manifest);
        }
        if RollbackTarget(helm.history).Some? {
          RolledBackDiffers(helm.history);
        }
        var rollbackError := helm.Rollback();
        if rollbackError.Some? {
          WrapsAnother(rollbackError.value, e.value);
          return None, Some(CleanUpFailed(rollbackError.value, e.value));
        }
      }
    }
  }

  predicate DryRun(opts: seq<ActionOption>) {
    Configured(opts).Ok? && Configured(opts).value.dryRun
  }
}
