/**
 * The deploy and undeploy control flow, reduced to a sequential state machine
 * over the host it runs on: the set of cached engine workspaces on disk, and a
 * log of the calls made to the provisioning engine (with counters of apply and
 * destroy calls). The engine's answers, the removal of a directory and the
 * installation of the signal listener are nondeterministic.
 */
module Lifecycle {
  import opened Wrappers
  import opened Paths
  import opened VarMaps

  /** The outputs apply reports, in the engine's order. */
  type Outputs = seq<(string, string)>

  /**
   * What the controller does to the outside world, in order. An apply records
   * the cached workspaces that exist on disk when the engine starts.
   */
  datatype Event =
    | WorkspaceRemoved(dir: Path)
    | Applied(template: Path, vars: VarMap, debug: bool, cache: set<Path>, applyResult: Result<Outputs, string>)
    | Destroyed(template: Path, vars: VarMap, debug: bool, destroyResult: Outcome<string>)

  /** Number of apply calls in a log. */
  function Applies(log: seq<Event>): nat
  {
    if log == [] then 0
    else Applies(log[..|log| - 1]) + (if log[|log| - 1].Applied? then 1 else 0)
  }

  /** Number of destroy calls in a log. */
  function Destroys(log: seq<Event>): nat
  {
    if log == [] then 0
    else Destroys(log[..|log| - 1]) + (if log[|log| - 1].Destroyed? then 1 else 0)
  }

  /** Counting over a log extended by `more` adds the counts of `more`. */
  lemma {:induction false} CountsAppend(log: seq<Event>, more: seq<Event>)
    ensures Applies(log + more) == Applies(log) + Applies(more)
    ensures Destroys(log + more) == Destroys(log) + Destroys(more)
  {
    if more == [] {
      assert log + more == log;
    } else {
      var init := more[..|more| - 1];
      assert (log + more)[..|log + more| - 1] == log + init;
      assert (log + more)[|log + more| - 1] == more[|more| - 1];
      CountsAppend(log, init);
    }
  }

  const TemplateDirError := "Cannot determine Terraform directory"
  const RemoveWorkspaceError := "Failed to remove stale Terraform workspace"
  const SignalHandlerError := "Failed to set signal handler"

  /**
   * `DestroyGuard`: a clone of the deployment parameters; dropping it tears the
   * deployment down with a freshly built variable map.
   */
  datatype DestroyGuard = DestroyGuard(params: RunDeployParams)

  /** How `run_deploy` ended. */
  datatype DeployExit =
    | NoTemplateDir      // the template path has no parent directory
    | RemoveFailed       // the stale workspace could not be removed
    | ApplyFailed        // the engine's apply returned an error
    | SignalSetupFailed  // `Signals::new` failed after a successful apply
    | Released           // the wait returned and the guard was dropped

  /**
   * The engine calls from apply on: one apply, started over the cached
   * workspaces `cache`, with a deployment map for `p` and, when that apply
   * succeeded, one destroy with a deployment map for `p`.
   */
  ghost predicate ApplyTrace(t: seq<Event>, p: RunDeployParams, cache: set<Path>, exit: DeployExit)
  {
    && |t| >= 1 && t[0].Applied?
    && t[0].template == p.templatePath && t[0].debug == p.debug && t[0].cache == cache
    && IsDeployMap(p, t[0].vars)
    && (exit == ApplyFailed ==> |t| == 1 && t[0].applyResult.Err?)
    && (exit == SignalSetupFailed || exit == Released ==>
          && |t| == 2 && t[0].applyResult.Ok?
          && t[1].Destroyed? && t[1].template == p.templatePath && t[1].debug == p.debug
          && IsDeployMap(p, t[1].vars))
  }

  /**
   * Starting from the cached workspaces `ws0`: the removal of the stale
   * workspace `work` when it was cached, then the engine calls, the apply
   * starting over `ws0` without `work`.
   */
  ghost predicate DeployTrace(t: seq<Event>, p: RunDeployParams, ws0: set<Path>, work: Path, exit: DeployExit)
  {
    var pre := if work in ws0 then [WorkspaceRemoved(work)] else [];
    |t| >= |pre| && t[..|pre|] == pre && ApplyTrace(t[|pre|..], p, ws0 - {work}, exit)
  }

  /**
   * Invalidation comes before apply: in a deployment trace the apply is the
   * first event after at most one removal of the stale workspace, and when it
   * starts the stale workspace is gone and every other cached one is in place.
   */
  lemma StaleWorkspaceGoneAtApply(t: seq<Event>, p: RunDeployParams, ws0: set<Path>, work: Path, exit: DeployExit)
    returns (k: nat)
    requires DeployTrace(t, p, ws0, work, exit)
    ensures k < |t| && t[k].Applied? && work !in t[k].cache && t[k].cache == ws0 - {work}
    ensures k == (if work in ws0 then 1 else 0)
    ensures forall j :: 0 <= j < k ==> t[j] == WorkspaceRemoved(work)
  {
    k := if work in ws0 then 1 else 0;
    assert t[k] == t[k..][0];
  }

  /** A log that extends `before + pre` extends `before`, by `pre` and the rest. */
  lemma ExtendedLog(log: seq<Event>, before: seq<Event>, pre: seq<Event>, mid: seq<Event>)
    requires mid == before + pre
    requires |mid| <= |log| && log[..|mid|] == mid
    ensures |before| <= |log| && log[..|before|] == before
    ensures log[|before|..] == pre + log[|mid|..]
  {
  }

  /** A workspace removal (when one was cached) followed by an apply trace is a deployment trace. */
  lemma DeployTraceCompose(pre: seq<Event>, tail: seq<Event>, p: RunDeployParams, ws0: set<Path>, work: Path, exit: DeployExit)
    requires pre == if work in ws0 then [WorkspaceRemoved(work)] else []
    requires ApplyTrace(tail, p, ws0 - {work}, exit)
    ensures DeployTrace(pre + tail, p, ws0, work, exit)
  {
  }

  /** An apply trace holds one apply, and one destroy exactly when the apply succeeded. */
  lemma ApplyTraceCounts(t: seq<Event>, p: RunDeployParams, cache: set<Path>, exit: DeployExit)
    requires exit == ApplyFailed || exit == SignalSetupFailed || exit == Released
    requires ApplyTrace(t, p, cache, exit)
    ensures Applies(t) == 1
    ensures Destroys(t) == (if exit == ApplyFailed then 0 else 1)
  {
    var first := t[..1];
    assert first[..0] == [];
    if exit == ApplyFailed {
      assert t == first;
    } else {
      assert t[..|t| - 1] == first;
    }
  }

  /**
   * In a deployment trace there is exactly one apply, and one destroy exactly
   * when that apply succeeded: a failed apply is never torn down, and both
   * ordinary exits after a successful one tear down exactly once.
   */
  lemma DeployTraceCounts(t: seq<Event>, p: RunDeployParams, ws0: set<Path>, work: Path, exit: DeployExit)
    requires exit == ApplyFailed || exit == SignalSetupFailed || exit == Released
    requires DeployTrace(t, p, ws0, work, exit)
    ensures Applies(t) == 1
    ensures Destroys(t) == (if exit == ApplyFailed then 0 else 1)
  {
    var pre := if work in ws0 then [WorkspaceRemoved(work)] else [];
    var rest := t[|pre|..];
    assert t == pre + rest;
    CountsAppend(pre, rest);
    ApplyTraceCounts(rest, p, ws0 - {work}, exit);
    if work in ws0 {
      assert pre[..0] == [];
    }
  }

  /**
   * The teardown map agrees with the applied map on every key but the region,
   * and agrees on the region too when the user gave one. Without a region the
   * guard redraws it (see VarMaps.DeployMapRandomRegion), so the two may differ.
   */
  lemma TeardownVars(t: seq<Event>, p: RunDeployParams, cache: set<Path>, exit: DeployExit)
    requires exit == SignalSetupFailed || exit == Released
    requires ApplyTrace(t, p, cache, exit)
    ensures t[1].vars - {RegionKey} == t[0].vars - {RegionKey}
    ensures p.region.Some? ==> t[1].vars == t[0].vars
  {
  }

  /**
   * Without a region, a deployment may be torn down with a map other than the
   * one it was applied with: the guard's rebuilt map drew another region.
   */
  lemma TeardownMayDiffer(p: RunDeployParams, cache: set<Path>) returns (t: seq<Event>)
    requires p.region.None?
    ensures ApplyTrace(t, p, cache, Released) && t[0].vars != t[1].vars
  {
    var m1, m2 := DeployMapRandomRegion(p);
    t := [Applied(p.templatePath, m1, p.debug, cache, Ok([])), Destroyed(p.templatePath, m2, p.debug, Pass)];
  }

  /**
   * What the first block of `run_deploy` does, given the workspace `work` of
   * the template's directory (None when the template path has no parent):
   * without a directory it fails and changes nothing; otherwise it removes the
   * cached workspace, logging the removal when there was one, or fails to
   * remove it and changes nothing.
   */
  ghost predicate InvalidateOutcome(ws0: set<Path>, ws: set<Path>, log0: seq<Event>, log: seq<Event>,
                                    work: Option<Path>, r: Outcome<string>)
  {
    && (work.None? ==> r == Fail(TemplateDirError) && ws == ws0 && log == log0)
    && (work.Some? && r.Fail? ==>
          r == Fail(RemoveWorkspaceError) && work.value in ws0 && ws == ws0 && log == log0)
    && (work.Some? && r.Pass? ==>
          && work.value !in ws && ws == ws0 - {work.value}
          && log == log0 + (if work.value in ws0 then [WorkspaceRemoved(work.value)] else []))
  }

  /**
   * What the part of `run_deploy` from apply on, started over the cached
   * workspaces `ws0`, does to the log: it appends an apply trace, and returns
   * the apply error, the signal-setup error, or success after the guard was
   * released.
   */
  ghost predicate ApplyOutcome(ws0: set<Path>, log0: seq<Event>, log: seq<Event>, p: RunDeployParams,
                               r: Outcome<string>, exit: DeployExit)
  {
    && (exit == ApplyFailed || exit == SignalSetupFailed || exit == Released)
    && |log0| <= |log| && log[..|log0|] == log0
    && ApplyTrace(log[|log0|..], p, ws0, exit)
    && (r.Pass? <==> exit == Released)
    && (exit == ApplyFailed ==> r.Fail? && |log| > 0 && log[|log| - 1].Applied? && log[|log| - 1].applyResult == Err(r.error))
    && (exit == SignalSetupFailed ==> r == Fail(SignalHandlerError))
  }

  /**
   * What `run_deploy` does as a whole: the exit is reported faithfully (success
   * exactly on release, each failure with its own message); a failure before
   * apply changes nothing, and the removal fails only on a cached workspace;
   * otherwise the log grew by a deployment trace, whose apply started with the
   * stale workspace gone and every other cached workspace in place. What the
   * engine later does to its workspaces is not known to the model.
   */
  ghost predicate DeployOutcome(ws0: set<Path>, ws: set<Path>, log0: seq<Event>, log: seq<Event>,
                                p: RunDeployParams, work: Option<Path>, r: Outcome<string>, exit: DeployExit)
  {
    && |log0| <= |log| && log[..|log0|] == log0
    && (r.Pass? <==> exit == Released)
    && (exit == NoTemplateDir <==> work.None?)
    && (exit == NoTemplateDir ==> r == Fail(TemplateDirError))
    && (exit == RemoveFailed ==> r == Fail(RemoveWorkspaceError) && work.Some? && work.value in ws0)
    && (exit == SignalSetupFailed ==> r == Fail(SignalHandlerError))
    && (exit == ApplyFailed ==> r.Fail? && |log| > 0 && log[|log| - 1].Applied? && log[|log| - 1].applyResult == Err(r.error))
    && (exit == NoTemplateDir || exit == RemoveFailed ==> log == log0 && ws == ws0)
    && (exit != NoTemplateDir && exit != RemoveFailed ==>
          && work.Some? && DeployTrace(log[|log0|..], p, ws0, work.value, exit))
  }

  /** A failed invalidation ends the deployment before apply. */
  lemma DeployStopsEarly(ws0: set<Path>, ws: set<Path>, log0: seq<Event>, log: seq<Event>,
                         p: RunDeployParams, work: Option<Path>, r: Outcome<string>)
    requires InvalidateOutcome(ws0, ws, log0, log, work, r) && r.Fail?
    ensures DeployOutcome(ws0, ws, log0, log, p, work, r, if work.None? then NoTemplateDir else RemoveFailed)
  {
  }

  /** A successful invalidation followed by apply and release is a deployment. */
  lemma DeployCompose(ws0: set<Path>, ws1: set<Path>, ws: set<Path>, log0: seq<Event>, log1: seq<Event>, log: seq<Event>,
                      p: RunDeployParams, work: Option<Path>, r1: Outcome<string>, r: Outcome<string>, exit: DeployExit)
    requires InvalidateOutcome(ws0, ws1, log0, log1, work, r1) && work.Some? && r1.Pass?
    requires ApplyOutcome(ws1, log1, log, p, r, exit)
    ensures DeployOutcome(ws0, ws, log0, log, p, work, r, exit)
  {
    var pre := if work.value in ws0 then [WorkspaceRemoved(work.value)] else [];
    ExtendedLog(log, log0, pre, log1);
    DeployTraceCompose(pre, log[|log1|..], p, ws0, work.value, exit);
  }

  /** The resolved subcommand (command line parsing is not modelled). */
  datatype Command =
    | Deploy(debug: bool, instanceType: Option<string>, provider: Providers.Provider,
             region: Option<string>, scriptPath: Option<string>,
             inboundRules: Option<seq<InboundRules.InboundRule>>, sshPublicKeyPath: Option<string>)
    | Undeploy(debug: bool, instanceType: Option<string>, provider: Providers.Provider, undeployRegion: string)

  /** The machine the program runs on, as far as the controller can see or change it. */
  class Host {
    /**
     * Value of the CARGO_MANIFEST_DIR environment variable; None if the lookup
     * fails (unset, or not valid Unicode).
     */
    const manifestDir: Option<string>
    /** `env::temp_dir()`. */
    const tempDir: Path
    /** Hex SHA-256 digest of a string, left uninterpreted. */
    const digest: string -> string
    /** Directories that exist on disk among the engine's cached workspaces. */
    var workspaces: set<Path>
    ghost var applyCalls: nat
    ghost var destroyCalls: nat
    ghost var log: seq<Event>

    /** The counters count the engine calls in the log. */
    ghost predicate Valid()
      reads this
    {
      applyCalls == Applies(log) && destroyCalls == Destroys(log)
    }

    constructor (manifestDir: Option<string>, tempDir: Path, digest: string -> string, workspaces: set<Path>)
      ensures Valid()
      ensures this.manifestDir == manifestDir && this.tempDir == tempDir && this.digest == digest
      ensures this.workspaces == workspaces && log == [] && applyCalls == 0 && destroyCalls == 0
    {
      this.manifestDir := manifestDir;
      this.tempDir := tempDir;
      this.digest := digest;
      this.workspaces := workspaces;
      applyCalls, destroyCalls, log := 0, 0, [];
    }

    /** `<temp>/atar/<digest of the template directory's text>`. */
    function WorkspaceDir(templateDir: Path): (w: Path)
      ensures w.base == tempDir.base
      ensures w.parts == tempDir.parts + ["atar", digest(Display(templateDir))]
    {
      Join(Join(tempDir, "atar"), digest(Display(templateDir)))
    }

    /**
     * Removes the cached workspace `work` if it exists. Removal may fail, and
     * then nothing changes; a missing workspace is not an error.
     */
    method RemoveStaleWorkspace(work: Path) returns (r: Outcome<string>)
      requires Valid()
      modifies this`workspaces, this`log
      ensures Valid()
      ensures InvalidateOutcome(old(workspaces), workspaces, old(log), log, Some(work), r)
    {
      if work !in workspaces {
        return Pass;
      }
      var removed: bool := *;
      if !removed {
        return Fail(RemoveWorkspaceError);
      }
      workspaces := workspaces - {work};
      log := log + [WorkspaceRemoved(work)];
      assert log[..|log| - 1] == old(log);
      r := Pass;
    }

    /**
     * `atar::deploy`: one apply call over the workspaces cached when it starts.
     * Its answer, and what it does to the cached workspaces, are not known to
     * the model.
     */
    method Apply(template: Path, vars: VarMap, debug: bool) returns (r: Result<Outputs, string>)
      requires Valid()
      modifies this`applyCalls, this`log, this`workspaces
      ensures Valid()
      ensures applyCalls == old(applyCalls) + 1
      ensures log == old(log) + [Applied(template, vars, debug, old(workspaces), r)]
    {
      r := *;
      applyCalls := applyCalls + 1;
      log := log + [Applied(template, vars, debug, workspaces, r)];
      workspaces := *;
      assert log[..|log| - 1] == old(log);
    }

    /**
     * `atar::undeploy`: one destroy call. Its answer, and what it does to the
     * cached workspaces, are not known to the model.
     */
    method Destroy(template: Path, vars: VarMap, debug: bool) returns (r: Outcome<string>)
      requires Valid()
      modifies this`destroyCalls, this`log, this`workspaces
      ensures Valid()
      ensures destroyCalls == old(destroyCalls) + 1
      ensures log == old(log) + [Destroyed(template, vars, debug, r)]
    {
      r := *;
      destroyCalls := destroyCalls + 1;
      log := log + [Destroyed(template, vars, debug, r)];
      workspaces := *;
      assert log[..|log| - 1] == old(log);
    }

    /**
     * `DestroyGuard::drop`: rebuilds the deployment map from the parameters and
     * makes one destroy call; a destroy error is only reported, never returned.
     */
    method DropGuard(guard: DestroyGuard)
      requires Valid()
      modifies this`destroyCalls, this`log, this`workspaces
      ensures Valid()
      ensures destroyCalls == old(destroyCalls) + 1
      ensures |log| == |old(log)| + 1 && log[..|old(log)|] == old(log)
      ensures log[|log| - 1].Destroyed?
      ensures log[|log| - 1].template == guard.params.templatePath
      ensures log[|log| - 1].debug == guard.params.debug
      ensures IsDeployMap(guard.params, log[|log| - 1].vars)
    {
      var vars := guard.params.ToAtarMap();
      var result := Destroy(guard.params.templatePath, vars, guard.params.debug);
      // A failed destroy is printed to stderr and otherwise ignored.
    }

    /** The cached workspace of the template's directory, None when the template path has no parent. */
    function WorkspaceOf(templatePath: Path): (w: Option<Path>)
      ensures w.Some? <==> Parent(templatePath).Some?
      ensures w.Some? ==> w.value == WorkspaceDir(Parent(templatePath).value)
    {
      match Parent(templatePath)
      case None => None
      case Some(dir) => Some(WorkspaceDir(dir))
    }

    /**
     * The first block of `run_deploy`: find the template directory and remove
     * its stale cached workspace.
     */
    method InvalidateWorkspace(templatePath: Path) returns (r: Outcome<string>)
      requires Valid()
      modifies this`workspaces, this`log
      ensures Valid()
      ensures InvalidateOutcome(old(workspaces), workspaces, old(log), log, WorkspaceOf(templatePath), r)
    {
      var dir := Parent(templatePath);
      if dir.None? {
        return Fail(TemplateDirError);
      }
      var work := WorkspaceDir(dir.value);
      assert WorkspaceOf(templatePath) == Some(work);
      r := RemoveStaleWorkspace(work);
    }

    /**
     * `run_deploy`: invalidate the cached workspace, then apply and hold the
     * guard until the wait returns (ApplyAndRelease).
     */
    method RunDeploy(params: RunDeployParams) returns (r: Outcome<string>, ghost exit: DeployExit)
      requires Valid()
      modifies this
      ensures Valid()
      ensures DeployOutcome(old(workspaces), workspaces, old(log), log, params, WorkspaceOf(params.templatePath), r, exit)
      ensures applyCalls == old(applyCalls) + (if exit == NoTemplateDir || exit == RemoveFailed then 0 else 1)
      ensures destroyCalls == old(destroyCalls) + (if exit == SignalSetupFailed || exit == Released then 1 else 0)
    {
      ghost var work := WorkspaceOf(params.templatePath);
      r := InvalidateWorkspace(params.templatePath);
      // Invalidation makes no engine call.
      assert applyCalls == old(applyCalls) && destroyCalls == old(destroyCalls);
      if r.Fail? {
        exit := if work.None? then NoTemplateDir else RemoveFailed;
        DeployStopsEarly(old(workspaces), workspaces, old(log), log, params, work, r);
        return;
      }
      ghost var r1, ws1, log1 := r, workspaces, log;
      r, exit := ApplyAndRelease(params);
      DeployCompose(old(workspaces), ws1, workspaces, old(log), log1, log, params, work, r1, r, exit);
    }

    /**
     * The part of `run_deploy` from apply on: apply; on success create the
     * guard, install the signal listener and wait for it; every way out after a
     * successful apply drops the guard exactly once.
     */
    method ApplyAndRelease(params: RunDeployParams) returns (r: Outcome<string>, ghost exit: DeployExit)
      requires Valid()
      modifies this`applyCalls, this`destroyCalls, this`log, this`workspaces
      ensures Valid()
      ensures ApplyOutcome(old(workspaces), old(log), log, params, r, exit)
      ensures applyCalls == old(applyCalls) + 1
      ensures destroyCalls == old(destroyCalls) + (if exit == ApplyFailed then 0 else 1)
    {
      var vars := params.ToAtarMap();
      var outputs := Apply(params.templatePath, vars, params.debug);
      if outputs.Err? {
        assert log[|old(log)|..] == [log[|log| - 1]];
        return Fail(outputs.error), ApplyFailed;
      }
      // The outputs are printed here.
      var guard := DestroyGuard(params);
      // The panic hook installed here is not part of this model.
      var signalsInstalled: bool := *;
      if !signalsInstalled {
        r, exit := Fail(SignalHandlerError), SignalSetupFailed;
      } else {
        // The listener thread forwards the first SIGINT or SIGTERM; `rx.recv()`
        // returns then, or when the channel closes.
        r, exit := Pass, Released;
      }
      ghost var applied := log[|log| - 1];
      DropGuard(guard);
      assert log[|old(log)|..] == [applied, log[|log| - 1]];
    }

    /** `run_undeploy`: one destroy call with the undeploy map; its error is returned as is. */
    method RunUndeploy(params: RunUndeployParams) returns (r: Outcome<string>)
      requires Valid()
      modifies this`destroyCalls, this`log, this`workspaces
      ensures Valid()
      ensures applyCalls == old(applyCalls) && destroyCalls == old(destroyCalls) + 1
      ensures |log| == |old(log)| + 1 && log[..|old(log)|] == old(log)
      ensures log[|log| - 1].Destroyed?
      ensures log[|log| - 1].template == params.templatePath && log[|log| - 1].debug == params.debug
      ensures IsUndeployMap(params, log[|log| - 1].vars)
      ensures r == log[|log| - 1].destroyResult
    {
      var vars := params.ToAtarMap();
      r := Destroy(params.templatePath, vars, params.debug);
    }

    /**
     * `run`: resolve the provider's template path, then deploy or undeploy.
     * Undeploy never applies; deploy destroys only after it applied, and a
     * successful deploy applied once and destroyed once.
     */
    method Run(cmd: Command) returns (r: Outcome<string>)
      requires Valid()
      modifies this
      ensures Valid()
      ensures manifestDir.None? ==>
        r == Fail(ManifestDirError) && log == old(log) && workspaces == old(workspaces)
      ensures applyCalls <= old(applyCalls) + 1 && destroyCalls <= old(destroyCalls) + 1
      ensures cmd.Undeploy? ==> applyCalls == old(applyCalls)
      ensures cmd.Undeploy? && manifestDir.Some? ==> destroyCalls == old(destroyCalls) + 1
      ensures cmd.Deploy? && destroyCalls > old(destroyCalls) ==> applyCalls == old(applyCalls) + 1
      ensures cmd.Deploy? && r.Pass? ==> applyCalls == old(applyCalls) + 1 && destroyCalls == old(destroyCalls) + 1
    {
      var providerStr := Providers.ProviderString(cmd.provider);
      var templatePath := TemplatePath(manifestDir, providerStr);
      if templatePath.Err? {
        return Fail(templatePath.error);
      }
      match cmd
      case Deploy(debug, instanceType, provider, region, scriptPath, inboundRules, sshPublicKeyPath) =>
        var params := RunDeployParams(debug, instanceType, provider, region, scriptPath,
                                      templatePath.value, inboundRules, sshPublicKeyPath);
        r := DeployCommand(params);
      case Undeploy(debug, instanceType, provider, region) =>
        var params := RunUndeployParams(debug, instanceType, provider, region, templatePath.value);
        r := RunUndeploy(params);
    }

    /**
     * The `deploy` arm of `run`: `run_deploy` with its result returned as is.
     * At most one apply and one destroy, a destroy only after an apply, and a
     * successful deploy applied once and destroyed once.
     */
    method DeployCommand(params: RunDeployParams) returns (r: Outcome<string>)
      requires Valid()
      modifies this
      ensures Valid()
      ensures applyCalls <= old(applyCalls) + 1 && destroyCalls <= old(destroyCalls) + 1
      ensures destroyCalls > old(destroyCalls) ==> applyCalls == old(applyCalls) + 1
      ensures r.Pass? ==> applyCalls == old(applyCalls) + 1 && destroyCalls == old(destroyCalls) + 1
    {
      ghost var exit;
      r, exit := RunDeploy(params);
    }
  }
}
