/** Exactly when a hook run completes, and which keys it can touch. */
module Completion {
  import opened Results
  import opened Kube
  import opened Effects
  import opened Stages
  import opened StageRuns
  import opened Outcomes
  import opened Reconciling
  import opened Protocol
  import opened Upgrade

  // ---------------------------------------------------------------------------------------
  // When a pass over the stages goes through
  // ---------------------------------------------------------------------------------------

  /** A stage in this phase is no obstacle: what it has still to wait for and to do goes well, or it is passed over. */
  ghost predicate Passes(phase: Phase, stage: Stage, charts: Charts, f: StageFaults) {
    match phase
    case NoPhase => true
    case Done => true
    case WaitingForPostCondition => stage.hasPost ==> f.post == Matched
    case ApplyingOrDeleting =>
      f.templated ==> ActionOk(stage, charts, f) && (stage.hasPost ==> f.post == Matched)
    case _ =>
      && (stage.hasPre ==> f.pre == Matched)
      && (f.templated ==> ActionOk(stage, charts, f) && (stage.hasPost ==> f.post == Matched))
  }

  lemma RoundIff(before: Phase, stage: Stage, charts: Charts, f: StageFaults, failed: bool)
    ensures var x := RoundPhase(before, stage, f, ActionOk(stage, charts, f), failed);
      Passes(before, stage, charts, f) <==> if x.1 then Passes(x.0, stage, charts, f) else x.2 == Continue
  {
  }

  lemma {:induction false} CheckIff(api: Api, s: State, stages: seq<Stage>, i: nat, charts: Charts, f: StageFaults)
    requires Distinct(stages) && Aligned(stages, s.addon.stages) && i < |stages|
    ensures Check(api, s, stages[i], charts, f).outcome == Continue
      <==> Passes(s.addon.stages[i].phase, stages[i], charts, f)
    decreases 5 - Rank(GetPhase(s.addon.stages, stages[i].key))
  {
    RoundAt(api, s, stages, i, charts, f);
    ActionIff(api, s.world, stages[i], charts, f);
    var r, e := OneRound(api, s, stages[i], charts, f), ActionEngine(api, s.world, stages[i], charts, f);
    RoundIff(s.addon.stages[i].phase, stages[i], charts, f, e.failed);
    AtAligned(stages, s.addon.stages, i, r.state.addon.stages[i].phase);
    if r.again {
      JumpRaisesRank(api, s, stages[i], charts, f);
      CheckIff(api, r.state, stages, i, charts, f);
    }
  }

  /** Every stage from `i` on is missing or no obstacle. */
  ghost predicate AllPass(list: seq<StageStatus>, stages: seq<Stage>, charts: Charts, f: nat -> StageFaults, i: nat)
    requires |list| == |stages|
  {
    forall j: nat | i <= j < |stages| :: f(j).chartFound ==> Passes(list[j].phase, stages[j], charts, f(j))
  }

  lemma AllPassNext(list: seq<StageStatus>, after: seq<StageStatus>, stages: seq<Stage>, charts: Charts,
                    f: nat -> StageFaults, i: nat)
    requires |list| == |after| == |stages| && i < |stages|
    requires forall j :: i < j < |stages| ==> after[j] == list[j]
    ensures var here := f(i).chartFound ==> Passes(list[i].phase, stages[i], charts, f(i));
      AllPass(list, stages, charts, f, i) <==> here && AllPass(after, stages, charts, f, i + 1)
  {
  }

  lemma {:induction false} PassIff(api: Api, s: State, stages: seq<Stage>, charts: Charts, f: nat -> StageFaults,
                                   i: nat)
    requires Distinct(stages) && Aligned(stages, s.addon.stages) && i <= |stages|
    ensures RunStages(api, s, stages, charts, f, i).outcome == Continue
      <==> AllPass(s.addon.stages, stages, charts, f, i)
    decreases |stages| - i
  {
    if i < |stages| {
      var r := ExecuteStage(api, s, stages[i], charts, f(i));
      if f(i).chartFound {
        CheckAt(api, s, stages, i, charts, f(i));
        CheckIff(api, s, stages, i, charts, f(i));
      }
      AllPassNext(s.addon.stages, r.state.addon.stages, stages, charts, f, i);
      if r.outcome == Continue {
        PassIff(api, r.state, stages, charts, f, i + 1);
      }
    }
  }

  // ---------------------------------------------------------------------------------------
  // When a hook run completes
  // ---------------------------------------------------------------------------------------

  /** Both lists are built and every extra object is deleted. */
  ghost predicate CleanUpOk(inp: Inputs, annotation: Option<string>, f: Faults) {
    var extra := Extra(OldList(inp, annotation), set r | r in NewList(inp, BEFORE_CLUSTER_UPGRADE));
    f.listsOk && AllDeleted(f.clean, |extra|)
  }

  /** The run of the hook of this record goes through. */
  ghost predicate GoesThrough(inp: Inputs, a: Addon, f: Faults, hasOld: bool)
    requires |a.stages| == |StagesOf(inp, a.hook)|
  {
    && AllPass(a.stages, StagesOf(inp, a.hook), ChartsOf(inp, hasOld), f.stages, 0)
    && (a.hook == BEFORE_CLUSTER_UPGRADE ==> CleanUpOk(inp, a.annotation, f))
  }

  lemma HookRunIff(api: Api, s: State, inp: Inputs, f: Faults, hasOld: bool)
    requires var stages := StagesOf(inp, s.addon.hook); Distinct(stages) && Aligned(stages, s.addon.stages)
    ensures HookRun(api, s, inp, f, hasOld).finished.Some? <==> GoesThrough(inp, s.addon, f, hasOld)
  {
    var stages, charts := StagesOf(inp, s.addon.hook), ChartsOf(inp, hasOld);
    var r := RunStages(api, s, stages, charts, f.stages, 0);
    PassIff(api, s, stages, charts, f.stages, 0);
    RunStagesFrame(api, s, stages, charts, f.stages, 0);
    var extra := Extra(OldList(inp, s.addon.annotation), set x | x in NewList(inp, s.addon.hook));
    CleanFirstIff(api, r.state.world, extra, f.clean, |extra|);
  }

  /** Nothing ends the reconcile before the stages. */
  predicate Arrives(a: Addon, f: Faults) {
    !f.early && f.inputsOk && (a.clusterStack != "" ==> f.download == OldReady)
  }

  /** Exactly when a reconcile finishes the pending hook. */
  lemma HookFinishesIff(api: Api, inp: Inputs, s: State, f: Faults)
    requires HookPath(s.addon, inp)
    requires var stages := StagesOf(inp, s.addon.hook);
      Distinct(stages) && Aligned(stages, Prepared(s.addon, inp).stages)
    ensures Reconcile(api, s, inp, f).finished.Some?
      <==> Arrives(s.addon, f) && f.patched && GoesThrough(inp, Prepared(s.addon, inp), f, s.addon.clusterStack != "")
  {
    HookRunIff(api, s.(addon := Prepared(s.addon, inp)), inp, f, s.addon.clusterStack != "");
  }

  // ---------------------------------------------------------------------------------------
  // Upgrades within one Kubernetes version
  // ---------------------------------------------------------------------------------------

  /** Without a failure the one reconcile that such an upgrade has is enough. */
  lemma SameVersionFaultFreeFinishes(api: Api, inp: Inputs, s: State, f: Faults)
    requires SameVersionUpgrade(s.addon, inp) && FaultFree(f)
    ensures Reconcile(api, s, inp, f).finished.Some?
  {
    var s1 := s.(addon := Prepared(s.addon, inp).(hook := BEFORE_CLUSTER_UPGRADE));
    var stages, charts := StagesOf(inp, BEFORE_CLUSTER_UPGRADE), ChartsOf(inp, true);
    SameVersionRuns(api, inp, s, f);
    PassContinues(api, s1, stages, charts, f.stages, 0);
    RunStagesFrame(api, s1, stages, charts, f.stages, 0);
    var r := RunStages(api, s1, stages, charts, f.stages, 0).state;
    var extra := Extra(OldList(inp, r.addon.annotation), set x | x in NewList(inp, r.addon.hook));
    CleanFirstIff(api, r.world, extra, f.clean, |extra|);
  }

  /** The record with which the stages of such an upgrade begin. */
  function SameVersionStart(a: Addon, inp: Inputs): Addon {
    Prepared(a, inp).(hook := BEFORE_CLUSTER_UPGRADE)
  }

  ghost predicate CanStart(a: Addon, inp: Inputs) {
    var stages := StagesOf(inp, BEFORE_CLUSTER_UPGRADE);
    SameVersionUpgrade(a, inp) && Distinct(stages) && Aligned(stages, SameVersionStart(a, inp).stages)
  }

  /** A ready record without other hook can start. */
  lemma FreshCanStart(a: Addon, inp: Inputs)
    requires SameVersionUpgrade(a, inp) && FreshUpgrade(a) && Distinct(StagesOf(inp, BEFORE_CLUSTER_UPGRADE))
    ensures CanStart(a, inp)
    ensures forall i | 0 <= i < |SameVersionStart(a, inp).stages| :: SameVersionStart(a, inp).stages[i].phase == Pending
  {
  }

  /** Exactly when the first reconcile finishes the upgrade: no stage is an obstacle, and the clean-up goes through. */
  lemma SameVersionFinishesIff(api: Api, inp: Inputs, s: State, f: Faults)
    requires CanStart(s.addon, inp) && Proceeds(f)
    ensures Reconcile(api, s, inp, f).finished.Some? <==> GoesThrough(inp, SameVersionStart(s.addon, inp), f, true)
  {
    SameVersionRuns(api, inp, s, f);
    HookRunIff(api, s.(addon := SameVersionStart(s.addon, inp)), inp, f, true);
  }

  // ---------------------------------------------------------------------------------------
  // What is left behind
  // ---------------------------------------------------------------------------------------

  /** Neither a stage of this hook nor the clean-up of the release can touch the key. */
  ghost predicate Spared(api: Api, inp: Inputs, hook: string, hasOld: bool, x: Key) {
    && (forall j | 0 <= j < |StagesOf(inp, hook)| ::
          x !in StageEffect(api, ChartsOf(inp, hasOld), StagesOf(inp, hook)[j]).touched)
    && (forall annotation :: x !in CleanEffect(api, OldList(inp, annotation), NewList(inp, hook)).touched)
  }

  lemma {:induction false} CheckTouches(api: Api, s: State, stage: Stage, charts: Charts, f: StageFaults, x: Key)
    requires x !in StageEffect(api, charts, stage).touched
    ensures SameAt(s.world, Check(api, s, stage, charts, f).state.world, x)
    decreases 5 - Rank(GetPhase(s.addon.stages, stage.key))
  {
    var r := OneRound(api, s, stage, charts, f);
    RoundWrites(api, s, stage, charts, f);
    ActionFacts(api, s.world, stage, charts, f);
    OutsideIsSame(r.state.world, s.world, StageEffect(api, charts, stage).touched, x);
    if r.again {
      JumpRaisesRank(api, s, stage, charts, f);
      CheckTouches(api, r.state, stage, charts, f, x);
    }
  }

  lemma {:induction false} PassTouches(api: Api, s: State, stages: seq<Stage>, charts: Charts, f: nat -> StageFaults,
                                       i: nat, x: Key)
    requires i <= |stages| && forall j | i <= j < |stages| :: x !in StageEffect(api, charts, stages[j]).touched
    ensures SameAt(s.world, RunStages(api, s, stages, charts, f, i).state.world, x)
    decreases |stages| - i
  {
    if i < |stages| {
      if f(i).chartFound {
        CheckTouches(api, s, stages[i], charts, f(i), x);
      }
      var r := ExecuteStage(api, s, stages[i], charts, f(i));
      if r.outcome == Continue {
        PassTouches(api, r.state, stages, charts, f, i + 1, x);
      }
    }
  }

  lemma HookRunTouches(api: Api, s: State, inp: Inputs, f: Faults, hasOld: bool, x: Key)
    requires Spared(api, inp, s.addon.hook, hasOld, x)
    ensures SameAt(s.world, HookRun(api, s, inp, f, hasOld).state.world, x)
  {
    var stages, charts := StagesOf(inp, s.addon.hook), ChartsOf(inp, hasOld);
    var r := RunStages(api, s, stages, charts, f.stages, 0).state;
    PassTouches(api, s, stages, charts, f.stages, 0, x);
    var old_, new_ := OldList(inp, r.addon.annotation), NewList(inp, r.addon.hook);
    RunStagesFrame(api, s, stages, charts, f.stages, 0);
    CleanUpFacts(api, r.world, old_, new_, f.clean);
    OutsideIsSame(CleanUp(api, r.world, old_, new_, f.clean).world, r.world, CleanEffect(api, old_, new_).touched, x);
  }

  /** A multi-stage reconcile without the other hook touches no key that its release spares. */
  lemma ReconcileTouches(api: Api, s: State, inp: Inputs, f: Faults, x: Key)
    requires !inp.singleStage && s.addon.clusterStack != ""
    requires s.addon.hook == "" || s.addon.hook == BEFORE_CLUSTER_UPGRADE
    requires Spared(api, inp, BEFORE_CLUSTER_UPGRADE, true, x)
    ensures var t := Reconcile(api, s, inp, f).state;
      SameAt(s.world, t.world, x) && (t.addon.hook == "" || t.addon.hook == BEFORE_CLUSTER_UPGRADE)
  {
    var a := Prepared(s.addon, inp);
    var b := s.(addon := a.(hook := BEFORE_CLUSTER_UPGRADE));
    HookRunTouches(api, b, inp, f, true, x);
    RunStagesFrame(api, b, StagesOf(inp, BEFORE_CLUSTER_UPGRADE), ChartsOf(inp, true), f.stages, 0);
  }

  /** A record that names the class goes on naming it. */
  lemma ClassStays(api: Api, s: State, inp: Inputs, f: Faults)
    requires s.addon.clusterStack == inp.class_
    ensures Reconcile(api, s, inp, f).state.addon.clusterStack == inp.class_
  {
    if !f.early && !inp.singleStage && f.inputsOk && (s.addon.clusterStack != "" ==> f.download == OldReady) {
      var hasOld := s.addon.clusterStack != "";
      var a := Prepared(s.addon, inp);
      var b := a.(hook := BEFORE_CLUSTER_UPGRADE);
      RunStagesFrame(api, s.(addon := a), StagesOf(inp, a.hook), ChartsOf(inp, hasOld), f.stages, 0);
      RunStagesFrame(api, s.(addon := b), StagesOf(inp, b.hook), ChartsOf(inp, hasOld), f.stages, 0);
    }
  }

  /** The clean-up at the end of the stages is reached, and it deletes the key. */
  ghost predicate CleansKey(api: Api, inp: Inputs, a: Addon, f: Faults, x: Key)
    requires |a.stages| == |StagesOf(inp, BEFORE_CLUSTER_UPGRADE)|
  {
    && AllPass(a.stages, StagesOf(inp, BEFORE_CLUSTER_UPGRADE), ChartsOf(inp, true), f.stages, 0) && f.listsOk
    && var extra := Extra(OldList(inp, a.annotation), set r | r in NewList(inp, BEFORE_CLUSTER_UPGRADE));
    TookFor(api, extra, f.clean, |extra|, x)
  }

  /** Exactly when a key that no stage can touch is there after an upgrade run, finished or not. */
  lemma HookRunKeepsIff(api: Api, s: State, inp: Inputs, f: Faults, x: Key)
    requires s.addon.hook == BEFORE_CLUSTER_UPGRADE
    requires var stages := StagesOf(inp, BEFORE_CLUSTER_UPGRADE);
      && Distinct(stages) && Aligned(stages, s.addon.stages)
      && forall j | 0 <= j < |stages| :: x !in StageEffect(api, ChartsOf(inp, true), stages[j]).touched
    ensures x in HookRun(api, s, inp, f, true).state.world <==> x in s.world && !CleansKey(api, inp, s.addon, f, x)
  {
    var stages, charts := StagesOf(inp, s.addon.hook), ChartsOf(inp, true);
    var r := RunStages(api, s, stages, charts, f.stages, 0);
    PassIff(api, s, stages, charts, f.stages, 0);
    PassTouches(api, s, stages, charts, f.stages, 0, x);
    RunStagesFrame(api, s, stages, charts, f.stages, 0);
    var extra := Extra(OldList(inp, s.addon.annotation), set r | r in NewList(inp, s.addon.hook));
    CleanFirstKeepsIff(api, r.state.world, extra, f.clean, |extra|, x);
  }
}
