/** What a release of the upgrade promises of the cluster: the protocol and the end state of its runs together. */
module Release {
  import opened Results
  import opened Kube
  import opened Stages
  import opened StageRuns
  import opened Reconciling
  import opened Protocol
  import opened Upgrade
  import opened EndState

  /** The record right after a persisted patch. */
  function PatchedState(sys: System): State {
    WithAddon(sys.state, sys.state.addon.(hook := BEFORE_CLUSTER_UPGRADE, helm := Absent))
  }

  /** A call of the upgrade hook patches here, and the patch begins a run of the new release `inp`. */
  ghost predicate Begins(c: Cluster, inp: Inputs, sys: System) {
    var a := PatchedState(sys).addon;
    && RecordInv(sys.state.addon)
    && sys.state.addon.hook != BEFORE_CLUSTER_UPGRADE
    && !HookRecorded(c, sys)
    && inp.class_ == sys.class_ && HookPath(a, inp) && Fresh(a) && Distinct(StagesOf(inp, BEFORE_CLUSTER_UPGRADE))
  }

  /**
   One step after the patch: no class change and no call of the other hook; while the hook is pending a reconcile
   finds the same releases, with every chart there.
   */
  ghost predicate Fair(inp: Inputs, sys: System, step: Step) {
    match step
    case DoReconcile(in2, f) =>
      in2.class_ == sys.class_ && sys.state.addon.hook == BEFORE_CLUSTER_UPGRADE ==>
        in2 == inp && NoSkip(f.stages, |StagesOf(inp, BEFORE_CLUSTER_UPGRADE)|)
    case InitHook(_, _) => false
    case SetClass(_) => false
    case _ => true
  }

  /** Nothing that came after `h` is a patch. */
  ghost predicate Unpatched(h: seq<Mark>, later: seq<Mark>) {
    forall j :: |h| <= j < |later| ==> !later[j].Patched?
  }

  /** All steps are fair, and none patches again. */
  ghost predicate FairSteps(c: Cluster, inp: Inputs, sys: System, steps: seq<Step>)
    decreases |steps|
  {
    steps == []
    || (var before, last := steps[..|steps| - 1], steps[|steps| - 1];
        var now := After(c, sys, before);
        FairSteps(c, inp, sys, before) && Fair(inp, now, last) && Unpatched(now.history, Next(c, now, last).history))
  }

  /** The steps before the last are fair, and so is the last one. */
  lemma FairFront(c: Cluster, inp: Inputs, sys: System, steps: seq<Step>) returns (before: seq<Step>, now: System)
    requires steps != [] && FairSteps(c, inp, sys, steps)
    ensures before == steps[..|steps| - 1] && FairSteps(c, inp, sys, before) && now == After(c, sys, before)
    ensures Fair(inp, now, steps[|steps| - 1])
    ensures After(c, sys, steps) == Next(c, now, steps[|steps| - 1])
    ensures Unpatched(now.history, Next(c, now, steps[|steps| - 1]).history)
  {
    before := steps[..|steps| - 1];
    now := After(c, sys, before);
  }

  /** Either the run is under way, or it is finished and its cluster is that of the whole run. */
  ghost predicate Progress(api: Api, inp: Inputs, s0: State, now: System) {
    && now.class_ == inp.class_
    && if now.state.addon.hook == BEFORE_CLUSTER_UPGRADE
       then now.state.addon.helm != True && exists k: nat :: RunInv(api, inp, s0, now.state, k)
       else AtRest(inp.class_, now.state.addon) && now.state.world == WholeRun(api, inp, s0.addon).Run(s0.world)
  }

  /** Every fair step keeps that. */
  lemma StepProgresses(c: Cluster, inp: Inputs, s0: State, now: System, step: Step)
    requires HookPath(s0.addon, inp) && s0.addon.hook == BEFORE_CLUSTER_UPGRADE
    requires Distinct(StagesOf(inp, BEFORE_CLUSTER_UPGRADE))
    requires RecordInv(now.state.addon) && Progress(c.api, inp, s0, now) && Fair(inp, now, step)
    requires Unpatched(now.history, Next(c, now, step).history)
    ensures RecordInv(Next(c, now, step).state.addon) && Progress(c.api, inp, s0, Next(c, now, step))
  {
    match step
    case DoReconcile(in2, f) =>
      if in2.class_ == now.class_ {
        ReconcileFacts(c.api, now.state, in2, f);
        if now.state.addon.hook == BEFORE_CLUSTER_UPGRADE {
          var k: nat :| RunInv(c.api, inp, s0, now.state, k);
          var next := ReconcileStep(c.api, inp, s0, now.state, f, k);
        } else {
          FinishedRests(c.api, now.state, in2, f);
        }
      }
    case UpgradeHook(found, persisted) =>
      if found && now.state.addon.hook != BEFORE_CLUSTER_UPGRADE {
        PatchShows(c, now, persisted);
      }
    case Restart =>
  }

  /** A call that patches shows it. */
  lemma PatchShows(c: Cluster, now: System, persisted: bool)
    ensures var next := Next(c, now, UpgradeHook(true, persisted));
      if BeforeUpgrade(now.state.addon, HookRecorded(c, now)).1
      then |now.history| < |next.history| && next.history[|now.history|].Patched?
      else next.state == now.state
  {
  }

  lemma {:induction false} StepsProgress(c: Cluster, inp: Inputs, s0: State, sys: System, steps: seq<Step>)
    requires HookPath(s0.addon, inp) && s0.addon.hook == BEFORE_CLUSTER_UPGRADE
    requires Distinct(StagesOf(inp, BEFORE_CLUSTER_UPGRADE))
    requires RecordInv(sys.state.addon) && Progress(c.api, inp, s0, sys) && FairSteps(c, inp, sys, steps)
    ensures RecordInv(After(c, sys, steps).state.addon) && Progress(c.api, inp, s0, After(c, sys, steps))
    decreases |steps|
  {
    if steps != [] {
      var before, now := FairFront(c, inp, sys, steps);
      StepsProgress(c, inp, s0, sys, before);
      StepProgresses(c, inp, s0, now, steps[|steps| - 1]);
    }
  }

  /**
   What a release means.  Once a persisted patch has begun a run, after any fair steps, with restarts, repeated calls,
   failures of every kind and lost patches among them: a call that lets the upgrade go finds the cluster upgraded with
   respect to its state at the patch.
   */
  lemma ReleaseMeansUpgraded(c: Cluster, inp: Inputs, sys: System, steps: seq<Step>, persisted: bool)
    requires Begins(c, inp, sys)
    requires FairSteps(c, inp, Next(c, sys, UpgradeHook(true, true)), steps)
    requires var now := After(c, Next(c, sys, UpgradeHook(true, true)), steps);
      Next(c, now, UpgradeHook(true, persisted)).history == now.history + [Released(now.class_)]
    ensures var now := After(c, Next(c, sys, UpgradeHook(true, true)), steps);
      Upgraded(c.api, inp, PatchedState(sys).addon, sys.state.world, now.state.world)
  {
    var s0, start := PatchedState(sys), Next(c, sys, UpgradeHook(true, true));
    Started(c, inp, sys);
    StepsProgress(c, inp, s0, start, steps);
    WholeRunUpgrades(c.api, inp, s0.addon, s0.world);
  }

  // ---------------------------------------------------------------------------------------
  // When a release comes
  // ---------------------------------------------------------------------------------------

  /** A reconcile of this class that meets no failure. */
  ghost predicate Clean(class_: string, step: Step) {
    step.DoReconcile? && step.inp.class_ == class_ && FaultFree(step.f)
  }

  /** A clean reconcile finishes the run, and a finished one stays finished. */
  lemma StepRests(c: Cluster, inp: Inputs, s0: State, now: System, step: Step)
    requires HookPath(s0.addon, inp) && s0.addon.hook == BEFORE_CLUSTER_UPGRADE
    requires Progress(c.api, inp, s0, now) && Fair(inp, now, step) && Unpatched(now.history, Next(c, now, step).history)
    requires Clean(inp.class_, step) || AtRest(inp.class_, now.state.addon)
    ensures AtRest(inp.class_, Next(c, now, step).state.addon)
  {
    match step
    case DoReconcile(in2, f) =>
      if now.state.addon.hook == BEFORE_CLUSTER_UPGRADE {
        assert in2 == inp;
        FaultFreeFinishes(c.api, inp, now.state, f);
        FinishRests(c.api, inp, now.state, f);
      } else if in2.class_ == inp.class_ {
        FinishedRests(c.api, now.state, in2, f);
      }
    case UpgradeHook(found, persisted) =>
      if found {
        PatchShows(c, now, persisted);
      }
    case Restart =>
  }

  lemma {:induction false} StepsRest(c: Cluster, inp: Inputs, s0: State, sys: System, steps: seq<Step>, i: nat)
    requires HookPath(s0.addon, inp) && s0.addon.hook == BEFORE_CLUSTER_UPGRADE
    requires Distinct(StagesOf(inp, BEFORE_CLUSTER_UPGRADE))
    requires RecordInv(sys.state.addon) && Progress(c.api, inp, s0, sys) && FairSteps(c, inp, sys, steps)
    requires i < |steps| && Clean(inp.class_, steps[i])
    ensures AtRest(inp.class_, After(c, sys, steps).state.addon)
    decreases |steps|
  {
    var before, now := FairFront(c, inp, sys, steps);
    if i < |before| {
      StepsRest(c, inp, s0, sys, before, i);
    }
    StepsProgress(c, inp, s0, sys, before);
    StepRests(c, inp, s0, now, steps[|steps| - 1]);
  }

  lemma StepRecords(c: Cluster, inp: Inputs, now: System, step: Step)
    requires Fair(inp, now, step) && Unpatched(now.history, Next(c, now, step).history)
    ensures var next := Next(c, now, step);
      next.class_ == now.class_ && (HookRecorded(c, next) <==> HookRecorded(c, now) && !step.Restart?)
  {
    if step.UpgradeHook? && step.found {
      PatchShows(c, now, step.persisted);
    }
  }

  /** The operator does not restart. */
  ghost predicate Uninterrupted(steps: seq<Step>) {
    forall j :: 0 <= j < |steps| ==> !steps[j].Restart?
  }

  lemma UninterruptedNext(steps: seq<Step>)
    requires steps != []
    ensures Uninterrupted(steps) <==> Uninterrupted(steps[..|steps| - 1]) && !steps[|steps| - 1].Restart?
  {
  }

  /** Without another patch, what the hook server has recorded is lost exactly by a restart. */
  lemma {:induction false} RecordedIff(c: Cluster, inp: Inputs, sys: System, steps: seq<Step>)
    requires HookRecorded(c, sys) && FairSteps(c, inp, sys, steps)
    ensures var now := After(c, sys, steps);
      now.class_ == sys.class_ && (HookRecorded(c, now) <==> Uninterrupted(steps))
    decreases |steps|
  {
    if steps != [] {
      var before, now := FairFront(c, inp, sys, steps);
      RecordedIff(c, inp, sys, before);
      UninterruptedNext(steps);
      StepRecords(c, inp, now, steps[|steps| - 1]);
    }
  }

  /** A call on a finished record: it releases if the key is recorded, and patches again if not. */
  lemma CallAtRest(c: Cluster, now: System, persisted: bool)
    requires AtRest(now.class_, now.state.addon)
    ensures var next := Next(c, now, UpgradeHook(true, persisted));
      && (next.history == now.history + [Released(now.class_)] <==> HookRecorded(c, now))
      && (!HookRecorded(c, now) ==> next.history == now.history + [Patched(now.class_, persisted, true)])
  {
    var h, k := now.history, now.class_;
    assert (h + [Released(k)])[|h|] != (h + [Patched(k, persisted, true)])[|h|];
  }

  /**
   When a release comes.  Once a persisted patch has begun a run, after any fair steps of which one reconcile meets no
   failure, the next call lets the upgrade go exactly if the hook server has not restarted since; otherwise it patches
   again.
   */
  lemma CallReleasesIff(c: Cluster, inp: Inputs, sys: System, steps: seq<Step>, i: nat, persisted: bool)
    requires Begins(c, inp, sys)
    requires FairSteps(c, inp, Next(c, sys, UpgradeHook(true, true)), steps)
    requires i < |steps| && Clean(inp.class_, steps[i])
    ensures var now := After(c, Next(c, sys, UpgradeHook(true, true)), steps);
      var next := Next(c, now, UpgradeHook(true, persisted));
      && (next.history == now.history + [Released(now.class_)] <==> Uninterrupted(steps))
      && (!Uninterrupted(steps) ==> next.history == now.history + [Patched(now.class_, persisted, true)])
  {
    var s0, start := PatchedState(sys), Next(c, sys, UpgradeHook(true, true));
    Started(c, inp, sys);
    StepsRest(c, inp, s0, start, steps, i);
    RecordedIff(c, inp, start, steps);
    CallAtRest(c, After(c, start, steps), persisted);
  }

  /** A patch that begins a run records its key and starts its progress. */
  lemma Started(c: Cluster, inp: Inputs, sys: System)
    requires Begins(c, inp, sys)
    ensures var start := Next(c, sys, UpgradeHook(true, true));
      && start.state == PatchedState(sys) && start.class_ == inp.class_ && HookRecorded(c, start)
      && RecordInv(start.state.addon) && Progress(c.api, inp, PatchedState(sys), start)
  {
    assert RunInv(c.api, inp, PatchedState(sys), PatchedState(sys), 0);
  }

  // ---------------------------------------------------------------------------------------
  // A second patch after a restart
  // ---------------------------------------------------------------------------------------

  /** On a finished record whose key is not recorded a patch begins a run again, of the new release upon itself. */
  lemma PatchAgainBegins(c: Cluster, again: Inputs, now: System)
    requires AtRest(now.class_, now.state.addon) && !HookRecorded(c, now)
    requires again.class_ == now.class_ && !again.singleStage && Distinct(StagesOf(again, BEFORE_CLUSTER_UPGRADE))
    ensures Begins(c, again, now)
  {
  }

  /**
   The upgrade is finished, the operator restarts, the next call patches again, and some later one releases: the cluster
   was upgraded by the first run, and is upgraded again, by the new release upon itself, with respect to that.
   */
  lemma SecondReleaseMeansUpgraded(c: Cluster, inp: Inputs, sys: System, steps: seq<Step>, again: Inputs,
                                   more: seq<Step>, persisted: bool)
    requires Begins(c, inp, sys) && FairSteps(c, inp, Next(c, sys, UpgradeHook(true, true)), steps)
    requires var now := After(c, Next(c, sys, UpgradeHook(true, true)), steps);
      && AtRest(now.class_, now.state.addon) && !HookRecorded(c, now)
      && again.class_ == now.class_ && !again.singleStage && Distinct(StagesOf(again, BEFORE_CLUSTER_UPGRADE))
      && FairSteps(c, again, Next(c, now, UpgradeHook(true, true)), more)
      && var end := After(c, Next(c, now, UpgradeHook(true, true)), more);
         Next(c, end, UpgradeHook(true, persisted)).history == end.history + [Released(end.class_)]
    ensures var now := After(c, Next(c, sys, UpgradeHook(true, true)), steps);
      var end := After(c, Next(c, now, UpgradeHook(true, true)), more);
      && Upgraded(c.api, inp, PatchedState(sys).addon, sys.state.world, now.state.world)
      && Upgraded(c.api, again, PatchedState(now).addon, now.state.world, end.state.world)
  {
    var s0, start := PatchedState(sys), Next(c, sys, UpgradeHook(true, true));
    var now := After(c, start, steps);
    Started(c, inp, sys);
    StepsProgress(c, inp, s0, start, steps);
    WholeRunUpgrades(c.api, inp, s0.addon, s0.world);
    PatchAgainBegins(c, again, now);
    ReleaseMeansUpgraded(c, again, now, more, persisted);
  }

  // ---------------------------------------------------------------------------------------
  // The installation
  // ---------------------------------------------------------------------------------------

  /** The call after control plane initialisation, on a new record, begins the run that installs the release. */
  lemma InitCallInstalls(c: Cluster, sys: System, inp: Inputs, fs: seq<Faults>)
    requires sys.state.addon.hook == "" && sys.state.addon.clusterStack == "" && sys.state.addon.stages == []
    requires !inp.singleStage && Distinct(StagesOf(inp, AFTER_CONTROL_PLANE_INITIALIZED))
    requires forall i | 0 <= i < |fs| :: NoSkip(fs[i].stages, |StagesOf(inp, AFTER_CONTROL_PLANE_INITIALIZED)|)
    ensures var s := Next(c, sys, InitHook(true, true)).state; var x := RunHook(c.api, s, inp, fs);
      && (x.finished.Some? ==> Installed(c.api, inp, s.addon, sys.state.world, x.state.world))
      && (Faulty(fs) < |fs| ==> x.finished == Some(HookStages("AfterControlPlaneInitialized")))
  {
    var s := Next(c, sys, InitHook(true, true)).state;
    InitHookSets(c, sys, true, true);
    if RunHook(c.api, s, inp, fs).finished.Some? {
      InstallEndState(c.api, inp, s, fs);
    }
    if Faulty(fs) < |fs| {
      BoundedCompletion(c.api, inp, s, fs, Faulty(fs));
      RunRecord(c.api, inp, s, fs);
    }
  }
}
