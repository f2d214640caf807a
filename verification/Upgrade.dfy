/**
 Complete hook runs: any number of reconciles of one hook, each with any failures, suspended and
 resumed in between, until one of them finishes the run.
 */
module Upgrade {
  import opened Results
  import opened Kube
  import opened Effects
  import opened Stages
  import opened Reconciling
  import opened StageRuns
  import opened Outcomes
  import opened Protocol

  // ---------------------------------------------------------------------------------------
  // The effect of stages on the cluster
  // ---------------------------------------------------------------------------------------

  function StageEffect(api: Api, charts: Charts, stage: Stage): (e: Effect)
    ensures e.Valid()
  {
    if stage.key.action == APPLY then ApplyEffect(api, charts.prev(stage.key.name), charts.next(stage.key.name))
    else DeleteEffect(api, charts.doomed(stage.key.name))
  }

  function Steps(api: Api, charts: Charts, stages: seq<Stage>): nat -> Effect {
    (i: nat) => if i < |stages| then StageEffect(api, charts, stages[i]) else NOTHING
  }

  /** All stages from index `m` on, then `end`. */
  function Rest(api: Api, charts: Charts, stages: seq<Stage>, end: Effect, m: nat): Effect
    requires m <= |stages|
  {
    Chain(Steps(api, charts, stages), end, m, |stages|)
  }

  lemma RestUnfolds(api: Api, charts: Charts, stages: seq<Stage>, end: Effect, m: nat)
    requires m < |stages|
    ensures Rest(api, charts, stages, end, m)
      == StageEffect(api, charts, stages[m]).Then(Rest(api, charts, stages, end, m + 1))
  {
  }

  lemma RestNext(api: Api, charts: Charts, stages: seq<Stage>, end: Effect, m: nat, w: World)
    requires m < |stages|
    ensures Rest(api, charts, stages, end, m).Run(w)
      == Rest(api, charts, stages, end, m + 1).Run(StageEffect(api, charts, stages[m]).Run(w))
    ensures StageEffect(api, charts, stages[m]).touched <= Rest(api, charts, stages, end, m).touched
    ensures Rest(api, charts, stages, end, m + 1).touched <= Rest(api, charts, stages, end, m).touched
  {
    RestUnfolds(api, charts, stages, end, m);
    ThenRuns(StageEffect(api, charts, stages[m]), Rest(api, charts, stages, end, m + 1), w);
  }

  lemma ActionFacts(api: Api, w: World, stage: Stage, charts: Charts, f: StageFaults)
    ensures var e := ActionEngine(api, w, stage, charts, f);
      && AgreeOutside(e.world, w, StageEffect(api, charts, stage).touched)
      && (Acts(e) ==> e.world == StageEffect(api, charts, stage).Run(w))
  {
    if stage.key.action == APPLY {
      ApplyNewFacts(api, w, charts.prev(stage.key.name), charts.next(stage.key.name), f.kube);
    } else {
      DeleteNewFacts(api, w, charts.doomed(stage.key.name), f.kube);
    }
  }

  /** The action has succeeded for this phase, so the cluster is not written again. */
  predicate Acted(p: Phase) {
    p == WaitingForPostCondition || p == Done
  }

  /** What one execution does to the cluster. */
  ghost predicate StageWorld(before: Phase, after: Phase, w: World, v: World, eff: Effect) {
    && AgreeOutside(v, w, eff.touched)
    && (Acted(before) ==> v == w)
    && (!Acted(before) && Acted(after) ==> v == eff.Run(w))
  }

  /** Only the action phase writes to the cluster. */
  lemma RoundWrites(api: Api, s: State, stage: Stage, charts: Charts, f: StageFaults)
    ensures var r, e := OneRound(api, s, stage, charts, f), ActionEngine(api, s.world, stage, charts, f);
      var acting := GetPhase(s.addon.stages, stage.key) == ApplyingOrDeleting && f.templated;
      r.state.world == if acting then e.world else s.world
  {
  }

  lemma PhaseWorld(before: Phase, stage: Stage, f: StageFaults, e: Engine, w: World, eff: Effect)
    requires AgreeOutside(e.world, w, eff.touched) && (Acts(e) ==> e.world == eff.Run(w))
    ensures var x := RoundPhase(before, stage, f, Acts(e), e.failed);
      var v := if before == ApplyingOrDeleting && f.templated then e.world else w;
      StageWorld(before, x.0, w, v, eff)
  {
  }

  lemma RoundWorld(api: Api, s: State, stages: seq<Stage>, i: nat, charts: Charts, f: StageFaults)
    requires Distinct(stages) && Aligned(stages, s.addon.stages) && i < |stages|
    ensures var r := OneRound(api, s, stages[i], charts, f);
      && |r.state.addon.stages| == |stages|
      && StageWorld(s.addon.stages[i].phase, r.state.addon.stages[i].phase, s.world, r.state.world,
                    StageEffect(api, charts, stages[i]))
      && (r.again && s.addon.stages[i].phase != ApplyingOrDeleting ==> r.state.world == s.world)
  {
    var e := ActionEngine(api, s.world, stages[i], charts, f);
    RoundAt(api, s, stages, i, charts, f);
    GetPhaseAt(stages, s.addon.stages, i);
    RoundWrites(api, s, stages[i], charts, f);
    ActionFacts(api, s.world, stages[i], charts, f);
    PhaseWorld(s.addon.stages[i].phase, stages[i], f, e, s.world, StageEffect(api, charts, stages[i]));
  }

  lemma {:induction false} CheckWorld(api: Api, s: State, stages: seq<Stage>, i: nat, charts: Charts, f: StageFaults)
    requires Distinct(stages) && Aligned(stages, s.addon.stages) && i < |stages|
    ensures var r := Check(api, s, stages[i], charts, f);
      && |r.state.addon.stages| == |stages|
      && StageWorld(s.addon.stages[i].phase, r.state.addon.stages[i].phase, s.world, r.state.world,
                    StageEffect(api, charts, stages[i]))
    decreases 5 - Rank(GetPhase(s.addon.stages, stages[i].key))
  {
    RoundAt(api, s, stages, i, charts, f);
    RoundWorld(api, s, stages, i, charts, f);
    var r := OneRound(api, s, stages[i], charts, f);
    AtAligned(stages, s.addon.stages, i, r.state.addon.stages[i].phase);
    if r.again {
      JumpRaisesRank(api, s, stages[i], charts, f);
      CheckWorld(api, r.state, stages, i, charts, f);
      assert Check(api, s, stages[i], charts, f) == Check(api, r.state, stages[i], charts, f);
    }
  }

  // ---------------------------------------------------------------------------------------
  // One pass over the stages
  // ---------------------------------------------------------------------------------------

  /** Index of the first stage whose action is still to come, when `k` stages are done. */
  function Ahead(list: seq<StageStatus>, k: nat): nat
    requires k <= |list|
  {
    if k < |list| && list[k].phase == WaitingForPostCondition then k + 1 else k
  }

  /** From `w` with `from` ahead to `v` with `to` ahead: part of it was done, the rest still leads to the same end. */
  ghost predicate Leads(api: Api, charts: Charts, stages: seq<Stage>, end: Effect, from: nat, to: nat, w: World,
      v: World)
    requires from <= |stages| && to <= |stages|
  {
    && AgreeOutside(v, w, Rest(api, charts, stages, end, from).touched)
    && Rest(api, charts, stages, end, to).Run(v) == Rest(api, charts, stages, end, from).Run(w)
  }

  lemma LeadsTrans(
    api: Api, charts: Charts, stages: seq<Stage>, end: Effect, from: nat, mid: nat, to: nat, w: World, v: World,
        u: World)
    requires from <= mid <= |stages| && to <= |stages|
    requires Leads(api, charts, stages, end, from, mid, w, v) && Leads(api, charts, stages, end, mid, to, v, u)
    ensures Leads(api, charts, stages, end, from, to, w, u)
  {
    RestShrinks(api, charts, stages, end, from, mid);
    AgreeMore(u, v, Rest(api, charts, stages, end, mid).touched, Rest(api, charts, stages, end, from).touched);
  }

  /** One execution of stage `k`, seen from the cluster. */
  lemma StageLeads(
    api: Api, charts: Charts, stages: seq<Stage>, end: Effect, k: nat, before: Phase, after: Phase, w: World, v: World)
    requires k < |stages| && Rank(before) <= Rank(after)
    requires StageWorld(before, after, w, v, StageEffect(api, charts, stages[k]))
    ensures Leads(api, charts, stages, end, if Acted(before) then k + 1 else k, if Acted(after) then k + 1 else k, w, v)
  {
    if !Acted(before) {
      RestNext(api, charts, stages, end, k, w);
      AgreeMore(v, w, StageEffect(api, charts, stages[k]).touched, Rest(api, charts, stages, end, k).touched);
      if !Acted(after) {
        Absorbed(Rest(api, charts, stages, end, k), v, w);
      }
    }
  }

  lemma ShapeStep(stages: seq<Stage>, list: seq<StageStatus>, k: nat, after: Phase, k': nat)
    requires Aligned(stages, list) && Shape(list, k) && k < |list| && after != NoPhase
    requires k' == if after == Done then k + 1 else k
    ensures Shape(At(list, k, after), k')
    ensures Ahead(list, k) == if Acted(list[k].phase) then k + 1 else k
    ensures Ahead(At(list, k, after), k') == if Acted(after) then k + 1 else k
  {
  }

  /** Executing the stage in progress moves the prefix by at most one and does part of what is ahead. */
  lemma StageStep(api: Api, s: State, stages: seq<Stage>, charts: Charts, end: Effect, f: StageFaults, k: nat)
    returns (k': nat)
    requires Distinct(stages) && Aligned(stages, s.addon.stages) && Shape(s.addon.stages, k) && k < |stages|
    requires f.chartFound && f.templated
    ensures var r := ExecuteStage(api, s, stages[k], charts, f);
      && Aligned(stages, r.state.addon.stages) && k' <= |stages| && Shape(r.state.addon.stages, k')
      && k' == (if r.outcome == Continue then k + 1 else k)
      && Ahead(s.addon.stages, k) <= Ahead(r.state.addon.stages, k') <= |stages|
      && Leads(api, charts, stages, end, Ahead(s.addon.stages, k), Ahead(r.state.addon.stages, k'), s.world,
               r.state.world)
  {
    var r := ExecuteStage(api, s, stages[k], charts, f);
    CheckAt(api, s, stages, k, charts, f);
    CheckWorld(api, s, stages, k, charts, f);
    k' := if r.outcome == Continue then k + 1 else k;
    var before, after := s.addon.stages[k].phase, r.state.addon.stages[k].phase;
    ShapeStep(stages, s.addon.stages, k, after, k');
    StageLeads(api, charts, stages, end, k, before, after, s.world, r.state.world);
  }

  lemma RestShrinks(api: Api, charts: Charts, stages: seq<Stage>, end: Effect, m: nat, n: nat)
    requires m <= n <= |stages|
    ensures Rest(api, charts, stages, end, n).touched <= Rest(api, charts, stages, end, m).touched
  {
    ChainShrinks(Steps(api, charts, stages), end, m, n, |stages|);
  }

  lemma LeadsSelf(api: Api, charts: Charts, stages: seq<Stage>, end: Effect, m: nat, w: World)
    requires m <= |stages|
    ensures Leads(api, charts, stages, end, m, m, w, w)
  {
  }

  /**
   A pass in which no stage is skipped keeps the prefix shape, reaches the end only with every stage
   done, and leaves what is still ahead leading to the same final cluster.
   */
  lemma {:induction false} PassKeepsShape(
    api: Api, s: State, stages: seq<Stage>, charts: Charts, end: Effect, f: nat -> StageFaults, i: nat, k: nat)
    returns (k': nat)
    requires Distinct(stages) && Aligned(stages, s.addon.stages) && Shape(s.addon.stages, k)
    requires i <= k <= |stages| && NoSkip(f, |stages|)
    ensures var r := RunStages(api, s, stages, charts, f, i);
      && Aligned(stages, r.state.addon.stages) && k <= k' <= |stages| && Shape(r.state.addon.stages, k')
      && (r.outcome == Continue ==> k' == |stages|)
      && Ahead(s.addon.stages, k) <= Ahead(r.state.addon.stages, k') <= |stages|
      && Leads(api, charts, stages, end, Ahead(s.addon.stages, k), Ahead(r.state.addon.stages, k'), s.world,
               r.state.world)
    decreases |stages| - i
  {
    if i == |stages| {
      k' := k;
      LeadsSelf(api, charts, stages, end, Ahead(s.addon.stages, k), s.world);
    } else {
      assert f(i).chartFound;
      var r := ExecuteStage(api, s, stages[i], charts, f(i));
      var k1 := k;
      if i < k {
        CheckAt(api, s, stages, i, charts, f(i));
        LeadsSelf(api, charts, stages, end, Ahead(s.addon.stages, k), s.world);
      } else {
        k1 := StageStep(api, s, stages, charts, end, f(i), k);
      }
      if r.outcome == Continue {
        k' := PassKeepsShape(api, r.state, stages, charts, end, f, i + 1, k1);
        var t := RunStages(api, r.state, stages, charts, f, i + 1).state;
        LeadsTrans(api, charts, stages, end, Ahead(s.addon.stages, k), Ahead(r.state.addon.stages, k1),
                   Ahead(t.addon.stages, k'), s.world, r.state.world, t.world);
      } else {
        k' := k1;
      }
    }
  }

  // ---------------------------------------------------------------------------------------
  // Runs
  // ---------------------------------------------------------------------------------------

  /**
   A hook of a multi-stage release is pending, and its stages run: the Kubernetes version changes, or the upgrade hook
   is pending on a record that names the class already.
   */
  predicate HookPath(a: Addon, inp: Inputs) {
    && !inp.singleStage
    && a.hook in {BEFORE_CLUSTER_UPGRADE, AFTER_CONTROL_PLANE_INITIALIZED}
    && (SameKubernetes(inp, a.clusterStack != "") ==>
          a.clusterStack == inp.class_ && a.hook == BEFORE_CLUSTER_UPGRADE)
  }

  /** Reconciles with the failures `fs[0]`, `fs[1]`, ... up to the one that finishes the run. */
  function RunHook(api: Api, s: State, inp: Inputs, fs: seq<Faults>): Exit
    decreases |fs|
  {
    if fs == [] then Exit(s, None)
    else
      var x := RunHook(api, s, inp, fs[..|fs| - 1]);
      if x.finished.Some? then x else Reconcile(api, x.state, inp, fs[|fs| - 1])
  }

  function EndEffect(api: Api, inp: Inputs, a: Addon): (e: Effect)
    ensures e.Valid()
  {
    if a.hook == BEFORE_CLUSTER_UPGRADE
    then CleanEffect(api, OldList(inp, a.annotation), NewList(inp, a.hook))
    else NOTHING
  }

  /** What the whole run amounts to: every stage once, in order, then the clean-up. */
  function WholeRun(api: Api, inp: Inputs, a: Addon): Effect {
    Rest(api, ChartsOf(inp, a.clusterStack != ""), StagesOf(inp, a.hook), EndEffect(api, inp, a), 0)
  }

  /** What a run keeps of the record it started from. */
  predicate SameRun(a: Addon, b: Addon) {
    a.hook == b.hook && a.clusterStack == b.clusterStack && a.annotation == b.annotation
  }

  /** `k` stages are done; a record that the next reconcile resets counts as none done. */
  ghost predicate Underway(a: Addon, stages: seq<Stage>, k: nat) {
    if Fresh(a) then k == 0 else Aligned(stages, a.stages) && k <= |stages| && Shape(a.stages, k)
  }

  function Position(a: Addon, k: nat): nat {
    if !Fresh(a) && k <= |a.stages| then Ahead(a.stages, k) else 0
  }

  /** Invariant of a run that started from `s0`. */
  ghost predicate RunInv(api: Api, inp: Inputs, s0: State, s: State, k: nat) {
    var stages := StagesOf(inp, s0.addon.hook);
    && SameRun(s0.addon, s.addon)
    && Underway(s.addon, stages, k)
    && Position(s.addon, k) <= |stages|
    && var charts, end := ChartsOf(inp, s0.addon.clusterStack != ""), EndEffect(api, inp, s0.addon);
    Rest(api, charts, stages, end, Position(s.addon, k)).Run(s.world) == WholeRun(api, inp, s0.addon).Run(s0.world)
  }

  ghost predicate RunPremises(inp: Inputs, s0: State, fs: seq<Faults>) {
    && HookPath(s0.addon, inp) && Fresh(s0.addon)
    && Distinct(StagesOf(inp, s0.addon.hook))
    && forall i :: 0 <= i < |fs| ==> NoSkip(fs[i].stages, |StagesOf(inp, s0.addon.hook)|)
  }

  lemma InitShape(stages: seq<Stage>)
    ensures Aligned(stages, InitStages(stages)) && Shape(InitStages(stages), 0)
  {
  }

  /** What the clean-up at the end of a hook run does. */
  lemma HookRunWorld(api: Api, s: State, inp: Inputs, f: Faults, hasOld: bool)
    requires s.addon.hook in {BEFORE_CLUSTER_UPGRADE, AFTER_CONTROL_PLANE_INITIALIZED}
    ensures var r := RunStages(api, s, StagesOf(inp, s.addon.hook), ChartsOf(inp, hasOld), f.stages, 0);
      var x, end := HookRun(api, s, inp, f, hasOld), EndEffect(api, inp, s.addon);
      && (x.finished.Some? ==> r.outcome == Continue && x.state.world == end.Run(r.state.world))
      && (x.finished.None? ==> x.state.addon == r.state.addon)
      && (r.outcome != Continue ==> x.state.world == r.state.world)
      && AgreeOutside(x.state.world, r.state.world, end.touched)
  {
    var r := RunStages(api, s, StagesOf(inp, s.addon.hook), ChartsOf(inp, hasOld), f.stages, 0);
    RunStagesFrame(api, s, StagesOf(inp, s.addon.hook), ChartsOf(inp, hasOld), f.stages, 0);
    if s.addon.hook == BEFORE_CLUSTER_UPGRADE {
      CleanUpFacts(api, r.state.world, OldList(inp, s.addon.annotation), NewList(inp, s.addon.hook), f.clean);
    }
  }

  /** A partial clean-up is absorbed by whatever is still ahead. */
  lemma CleanLeads(api: Api, charts: Charts, stages: seq<Stage>, end: Effect, from: nat, to: nat, w: World, v: World,
      u: World)
    requires from <= |stages| && to <= |stages| && Leads(api, charts, stages, end, from, to, w, v)
    requires AgreeOutside(u, v, end.touched) && (to == |stages| || u == v)
    ensures Leads(api, charts, stages, end, from, to, w, u)
    ensures Rest(api, charts, stages, end, from).Run(u) == Rest(api, charts, stages, end, from).Run(w)
  {
    var all := Rest(api, charts, stages, end, from);
    RestShrinks(api, charts, stages, end, from, |stages|);
    AgreeMore(u, v, end.touched, all.touched);
    Absorbed(all, u, w);
    if to == |stages| {
      Absorbed(end, u, v);
    }
  }

  /** How a reconcile in the middle of a run starts. */
  lemma PreparedUnderway(inp: Inputs, s0: State, a: Addon, k: nat)
    requires HookPath(s0.addon, inp) && SameRun(s0.addon, a)
    requires Underway(a, StagesOf(inp, s0.addon.hook), k)
    ensures var b, stages := Prepared(a, inp), StagesOf(inp, s0.addon.hook);
      && SameRun(s0.addon, b) && !b.ready
      && Aligned(stages, b.stages) && k <= |stages| && Shape(b.stages, k)
      && Ahead(b.stages, k) == Position(a, k)
  {
    InitShape(StagesOf(inp, s0.addon.hook));
  }

  /** A reconcile in the middle of a run: it finishes with the cluster of the whole run, or keeps the invariant. */
  lemma ReconcileStep(api: Api, inp: Inputs, s0: State, s: State, f: Faults, k: nat) returns (k': nat)
    requires HookPath(s0.addon, inp) && Distinct(StagesOf(inp, s0.addon.hook))
    requires NoSkip(f.stages, |StagesOf(inp, s0.addon.hook)|)
    requires RunInv(api, inp, s0, s, k)
    ensures var x := Reconcile(api, s, inp, f);
      if x.finished.Some? then x.state.world == WholeRun(api, inp, s0.addon).Run(s0.world)
      else RunInv(api, inp, s0, x.state, k') && k <= k'
  {
    k' := k;
    if !f.early && f.inputsOk && (s.addon.clusterStack != "" ==> f.download == OldReady) {
      var stages, hasOld := StagesOf(inp, s0.addon.hook), s0.addon.clusterStack != "";
      var charts, end := ChartsOf(inp, hasOld), EndEffect(api, inp, s0.addon);
      PreparedUnderway(inp, s0, s.addon, k);
      var s1 := s.(addon := Prepared(s.addon, inp));
      assert InMemory(api, s, inp, f) == HookRun(api, s1, inp, f, hasOld);
      k' := InMemoryStep(api, inp, s0, s1, f, k);
      if !f.patched { k' := k; }
    }
  }

  /** The in-memory part of such a reconcile. */
  lemma InMemoryStep(api: Api, inp: Inputs, s0: State, s1: State, f: Faults, k: nat) returns (k1: nat)
    requires s0.addon.hook in {BEFORE_CLUSTER_UPGRADE, AFTER_CONTROL_PLANE_INITIALIZED}
    requires SameRun(s0.addon, s1.addon) && !s1.addon.ready
    requires var stages := StagesOf(inp, s0.addon.hook);
      Distinct(stages) && NoSkip(f.stages, |stages|)
      && Aligned(stages, s1.addon.stages) && k <= |stages| && Shape(s1.addon.stages, k)
    ensures var stages := StagesOf(inp, s0.addon.hook);
      var charts, end := ChartsOf(inp, s0.addon.clusterStack != ""), EndEffect(api, inp, s0.addon);
      var x := HookRun(api, s1, inp, f, s0.addon.clusterStack != "");
      var all := Rest(api, charts, stages, end, Ahead(s1.addon.stages, k));
      && all.Run(x.state.world) == all.Run(s1.world)
      && k <= k1
      && (x.finished.Some? ==> x.state.world == all.Run(s1.world))
      && (x.finished.None? ==>
            && SameRun(s0.addon, x.state.addon) && !x.state.addon.ready
            && Aligned(stages, x.state.addon.stages) && k1 <= |stages| && Shape(x.state.addon.stages, k1)
            && Ahead(x.state.addon.stages, k1) <= |stages|
            && Rest(api, charts, stages, end, Ahead(x.state.addon.stages, k1)).Run(x.state.world) == all.Run(s1.world))
  {
    var stages, hasOld := StagesOf(inp, s0.addon.hook), s0.addon.clusterStack != "";
    var charts, end := ChartsOf(inp, hasOld), EndEffect(api, inp, s0.addon);
    k1 := PassKeepsShape(api, s1, stages, charts, end, f.stages, 0, k);
    RunStagesFrame(api, s1, stages, charts, f.stages, 0);
    HookRunWorld(api, s1, inp, f, hasOld);
    var r := RunStages(api, s1, stages, charts, f.stages, 0);
    var x := HookRun(api, s1, inp, f, hasOld);
    CleanLeads(api, charts, stages, end, Ahead(s1.addon.stages, k), Ahead(r.state.addon.stages, k1),
               s1.world, r.state.world, x.state.world);
  }

  // ---------------------------------------------------------------------------------------
  // Theorems about whole runs
  // ---------------------------------------------------------------------------------------

  lemma {:induction false} RunKeepsInvariant(api: Api, inp: Inputs, s0: State, fs: seq<Faults>) returns (k: nat)
    requires RunPremises(inp, s0, fs)
    ensures var x := RunHook(api, s0, inp, fs);
      if x.finished.Some? then x.state.world == WholeRun(api, inp, s0.addon).Run(s0.world)
      else RunInv(api, inp, s0, x.state, k)
    decreases |fs|
  {
    if fs == [] {
      k := 0;
    } else {
      var before := fs[..|fs| - 1];
      k := RunKeepsInvariant(api, inp, s0, before);
      var x := RunHook(api, s0, inp, before);
      if x.finished.None? {
        k := ReconcileStep(api, inp, s0, x.state, fs[|fs| - 1], k);
      }
    }
  }

  /** Prefix shape: in every state of a run the phases read done*, at most one in progress, Pending*. */
  lemma PrefixShapeAlways(api: Api, inp: Inputs, s0: State, fs: seq<Faults>)
    requires RunPremises(inp, s0, fs) && RunHook(api, s0, inp, fs).finished.None?
    ensures var a := RunHook(api, s0, inp, fs).state.addon;
      Fresh(a) || (Aligned(StagesOf(inp, s0.addon.hook), a.stages) && PrefixShape(a.stages))
  {
    var k := RunKeepsInvariant(api, inp, s0, fs);
  }

  /**
   Convergence: a finished run leaves the cluster as every stage run once and in order would, followed by the
   clean-up, however often it was suspended, failed half-way or lost its record.
   */
  lemma RunConverges(api: Api, inp: Inputs, s0: State, fs: seq<Faults>)
    requires RunPremises(inp, s0, fs) && RunHook(api, s0, inp, fs).finished.Some?
    ensures RunHook(api, s0, inp, fs).state.world == WholeRun(api, inp, s0.addon).Run(s0.world)
  {
    var k := RunKeepsInvariant(api, inp, s0, fs);
  }

  // ---------------------------------------------------------------------------------------
  // Bounded completion
  // ---------------------------------------------------------------------------------------

  ghost predicate StageFaultFree(f: StageFaults) {
    f.chartFound && f.pre == Matched && f.templated && f.kube.None() && f.post == Matched
  }

  ghost predicate FaultFree(f: Faults) {
    && !f.early && f.inputsOk && f.download == OldReady && f.listsOk && f.patched
    && (forall i: nat :: StageFaultFree(f.stages(i)))
    && (forall i: nat :: f.clean(i) == DeleteOk)
  }

  lemma {:induction false} CheckContinues(api: Api, s: State, stage: Stage, charts: Charts, f: StageFaults)
    requires StageFaultFree(f)
    ensures Check(api, s, stage, charts, f).outcome == Continue
    decreases 5 - Rank(GetPhase(s.addon.stages, stage.key))
  {
    ActionIff(api, s.world, stage, charts, f);
    var r := OneRound(api, s, stage, charts, f);
    if r.again {
      JumpRaisesRank(api, s, stage, charts, f);
      CheckContinues(api, r.state, stage, charts, f);
    }
  }

  lemma {:induction false} PassContinues(api: Api, s: State, stages: seq<Stage>, charts: Charts,
      f: nat -> StageFaults, i: nat)
    requires i <= |stages| && forall j: nat :: StageFaultFree(f(j))
    ensures RunStages(api, s, stages, charts, f, i).outcome == Continue
    decreases |stages| - i
  {
    if i < |stages| {
      CheckContinues(api, s, stages[i], charts, f(i));
      PassContinues(api, Check(api, s, stages[i], charts, f(i)).state, stages, charts, f, i + 1);
    }
  }

  /** From every state of a hook run, one reconcile without failures finishes it. */
  lemma FaultFreeFinishes(api: Api, inp: Inputs, s: State, f: Faults)
    requires HookPath(s.addon, inp) && FaultFree(f)
    ensures Reconcile(api, s, inp, f).finished.Some?
  {
    var hasOld := s.addon.clusterStack != "";
    var s1 := s.(addon := Prepared(s.addon, inp));
    var stages, charts := StagesOf(inp, s1.addon.hook), ChartsOf(inp, hasOld);
    PassContinues(api, s1, stages, charts, f.stages, 0);
    RunStagesFrame(api, s1, stages, charts, f.stages, 0);
    var r := RunStages(api, s1, stages, charts, f.stages, 0).state;
    var extra := Extra(OldList(inp, r.addon.annotation), set x | x in NewList(inp, r.addon.hook));
    CleanFirstIff(api, r.world, extra, f.clean, |extra|);
  }

  /** A reconcile that does not finish stays on the hook path. */
  lemma UnfinishedStays(api: Api, inp: Inputs, s: State, f: Faults)
    requires HookPath(s.addon, inp) && Reconcile(api, s, inp, f).finished.None?
    ensures SameRun(s.addon, Reconcile(api, s, inp, f).state.addon)
  {
    var hasOld := s.addon.clusterStack != "";
    var s1 := s.(addon := Prepared(s.addon, inp));
    RunStagesFrame(api, s1, StagesOf(inp, s1.addon.hook), ChartsOf(inp, hasOld), f.stages, 0);
  }

  ghost function Faulty(fs: seq<Faults>): nat {
    if fs == [] then 0 else Faulty(fs[..|fs| - 1]) + if FaultFree(fs[|fs| - 1]) then 0 else 1
  }

  lemma {:induction false} FinishedUnlessFaulty(api: Api, inp: Inputs, s: State, fs: seq<Faults>)
    requires HookPath(s.addon, inp)
    ensures var x := RunHook(api, s, inp, fs);
      x.finished.None? ==> Faulty(fs) == |fs| && SameRun(s.addon, x.state.addon)
    decreases |fs|
  {
    if fs != [] {
      var before, f := fs[..|fs| - 1], fs[|fs| - 1];
      FinishedUnlessFaulty(api, inp, s, before);
      var x := RunHook(api, s, inp, before);
      if x.finished.None? {
        if FaultFree(f) {
          FaultFreeFinishes(api, inp, x.state, f);
        } else if Reconcile(api, x.state, inp, f).finished.None? {
          UnfinishedStays(api, inp, x.state, f);
        }
      }
    }
  }

  /** Bounded completion: if at most `limit` reconciles meet any failure, `limit + 1` reconciles finish the run. */
  lemma BoundedCompletion(api: Api, inp: Inputs, s: State, fs: seq<Faults>, limit: nat)
    requires HookPath(s.addon, inp)
    requires |fs| > limit && Faulty(fs) <= limit
    ensures RunHook(api, s, inp, fs).finished.Some?
  {
    FinishedUnlessFaulty(api, inp, s, fs);
  }

  /** Until it finishes, a persisted reconcile never lets a phase fall back, whatever is missing or fails. */
  lemma PhasesNeverFallBack(api: Api, inp: Inputs, s: State, f: Faults)
    requires HookPath(s.addon, inp) && Reconcile(api, s, inp, f).finished.None?
    requires var stages := StagesOf(inp, s.addon.hook);
      Distinct(stages) && !Fresh(s.addon) && Aligned(stages, s.addon.stages)
    ensures var a := Reconcile(api, s, inp, f).state.addon;
      && Aligned(StagesOf(inp, s.addon.hook), a.stages)
      && AllAdvance(s.addon.stages, a.stages)
  {
    var hasOld := s.addon.clusterStack != "";
    var s1 := s.(addon := Prepared(s.addon, inp));
    PassAdvances(api, s1, StagesOf(inp, s1.addon.hook), ChartsOf(inp, hasOld), f.stages, 0);
  }

  // ---------------------------------------------------------------------------------------
  // Afterwards
  // ---------------------------------------------------------------------------------------

  /** The record of a finished upgrade to this class. */
  predicate AtRest(class_: string, a: Addon) {
    a.helm == True && a.ready && a.hook == "" && a.clusterStack == class_
  }

  /** The reconcile that finishes a run leaves such a record. */
  lemma FinishRests(api: Api, inp: Inputs, s: State, f: Faults)
    requires HookPath(s.addon, inp) && Reconcile(api, s, inp, f).finished.Some?
    ensures AtRest(inp.class_, Reconcile(api, s, inp, f).state.addon)
  {
    var hasOld := s.addon.clusterStack != "";
    var s1 := s.(addon := Prepared(s.addon, inp));
    RunStagesFrame(api, s1, StagesOf(inp, s1.addon.hook), ChartsOf(inp, hasOld), f.stages, 0);
  }

  /** The hook that a reconcile of a multi-stage release runs: the upgrade's if the Kubernetes version is the same. */
  function HookRunBy(a: Addon, inp: Inputs): string {
    if a.clusterStack != "" && inp.oldKubernetes == inp.kubernetes then "BeforeClusterUpgrade" else a.hook
  }

  /** The whole record that a completed hook leaves; the annotation is written once, and tells which hook came first. */
  lemma FinishedRecord(api: Api, inp: Inputs, s: State, f: Faults)
    requires !inp.singleStage && s.addon.hook in {"", "BeforeClusterUpgrade", "AfterControlPlaneInitialized"}
    requires Reconcile(api, s, inp, f).finished.Some?
    ensures var a, b, hook := s.addon, Reconcile(api, s, inp, f).state.addon, HookRunBy(s.addon, inp);
      && Reconcile(api, s, inp, f).finished == Some(HookStages(hook))
      && hook in {"BeforeClusterUpgrade", "AfterControlPlaneInitialized"}
      && b == Addon(inp.class_, inp.addonVersion, "", true, [], True, b.annotation, [])
      && b.annotation == (if a.annotation.Some? then a.annotation
                          else if hook == "BeforeClusterUpgrade" then Some("upgraded") else Some("created"))
  {
    var hasOld := s.addon.clusterStack != "";
    var a := Prepared(s.addon, inp);
    var b := a.(hook := HookRunBy(s.addon, inp));
    RunStagesFrame(api, s.(addon := b), StagesOf(inp, b.hook), ChartsOf(inp, hasOld), f.stages, 0);
    assert s.(addon := a).(addon := b) == s.(addon := b);
  }

  /** What a run that does not finish leaves of the record: class, hook and annotation; it is not ready. */
  lemma UnfinishedRecord(api: Api, inp: Inputs, s: State, f: Faults)
    requires HookPath(s.addon, inp) && Reconcile(api, s, inp, f).finished.None?
    ensures var a, b := s.addon, Reconcile(api, s, inp, f).state.addon;
      var reached := !f.early && f.inputsOk && (a.clusterStack != "" ==> f.download == OldReady);
      if reached && f.patched
      then
        b == Addon(a.clusterStack, inp.addonVersion, a.hook, false, b.stages, b.helm, a.annotation, b.resources)
        && (b.helm == True ==> a.helm == True)
      else b == a
  {
    var s1 := s.(addon := Prepared(s.addon, inp));
    RunStagesFrame(api, s1, StagesOf(inp, s1.addon.hook), ChartsOf(inp, s.addon.clusterStack != ""), f.stages, 0);
  }

  /** Within one Kubernetes version and with the same addon version nothing runs: the class is recorded as ready. */
  lemma SameAddonVersionMarks(api: Api, inp: Inputs, s: State, f: Faults)
    requires !inp.singleStage && s.addon.clusterStack != "" && s.addon.clusterStack != inp.class_
    requires inp.oldKubernetes == inp.kubernetes && s.addon.version == inp.addonVersion && Proceeds(f)
    ensures var a, x := s.addon, Reconcile(api, s, inp, f); var b := x.state.addon;
      && x.finished.None? && x.state.world == s.world
      && b == Addon(inp.class_, a.version, a.hook, true, b.stages, a.helm, a.annotation, a.resources)
      && (a.hook == "" ==> b.stages == a.stages)
  {
  }

  /** Without a pending hook an upgrade to another Kubernetes version, or an installation, waits for the hook server. */
  lemma WaitsForHook(api: Api, inp: Inputs, s: State, f: Faults)
    requires !inp.singleStage && s.addon.hook == ""
    requires s.addon.clusterStack == "" || inp.oldKubernetes != inp.kubernetes
      || (s.addon.ready && s.addon.clusterStack == inp.class_)
    ensures var x := Reconcile(api, s, inp, f);
      && x.finished.None? && x.state.world == s.world
      && x.state.addon == s.addon.(version := x.state.addon.version)
  {
  }

  /** A finished record rests: no reconcile touches the cluster, whatever releases it finds and whatever fails. */
  lemma FinishedRests(api: Api, s: State, inp: Inputs, f: Faults)
    requires AtRest(inp.class_, s.addon)
    ensures var x := Reconcile(api, s, inp, f);
      x.finished.None? && x.state.world == s.world && AtRest(inp.class_, x.state.addon)
  {
  }

  // ---------------------------------------------------------------------------------------
  // Upgrades within one Kubernetes version
  // ---------------------------------------------------------------------------------------

  /** The hook server does not act, so the reconciler runs the upgrade hook by itself. */
  predicate SameVersionUpgrade(a: Addon, inp: Inputs) {
    && !inp.singleStage && a.clusterStack != "" && a.clusterStack != inp.class_
    && inp.oldKubernetes == inp.kubernetes && a.version != inp.addonVersion
  }

  /** Nothing ends the reconcile before the stages, and the record is persisted after them. */
  predicate Proceeds(f: Faults) {
    !f.early && f.inputsOk && f.download == OldReady && f.patched
  }

  lemma SameVersionRuns(api: Api, inp: Inputs, s: State, f: Faults)
    requires SameVersionUpgrade(s.addon, inp) && Proceeds(f)
    ensures Reconcile(api, s, inp, f)
      == HookRun(api, s.(addon := Prepared(s.addon, inp).(hook := BEFORE_CLUSTER_UPGRADE)), inp, f, true)
  {
  }

  /** No stages are under way, and no other hook is pending. */
  predicate FreshUpgrade(a: Addon) {
    Fresh(a) && a.hook in {"", BEFORE_CLUSTER_UPGRADE}
  }

  /** A run of the stages from their start leads to the cluster of the whole run, and does so if it finishes. */
  lemma AttemptLeads(api: Api, inp: Inputs, s: State, f: Faults)
    requires SameVersionUpgrade(s.addon, inp) && FreshUpgrade(s.addon)
    requires var stages := StagesOf(inp, BEFORE_CLUSTER_UPGRADE); Distinct(stages) && NoSkip(f.stages, |stages|)
    ensures var all := WholeRun(api, inp, s.addon.(hook := BEFORE_CLUSTER_UPGRADE));
      var x := HookRun(api, s.(addon := Prepared(s.addon, inp).(hook := BEFORE_CLUSTER_UPGRADE)), inp, f, true);
      && all.Run(x.state.world) == all.Run(s.world)
      && (x.finished.Some? ==> x.state.world == all.Run(s.world))
  {
    var s0 := s.(addon := s.addon.(hook := BEFORE_CLUSTER_UPGRADE));
    var s1 := s.(addon := Prepared(s.addon, inp).(hook := BEFORE_CLUSTER_UPGRADE));
    InitShape(StagesOf(inp, BEFORE_CLUSTER_UPGRADE));
    var k := InMemoryStep(api, inp, s0, s1, f, 0);
  }

  /** Whatever an attempt has done that was not recorded, or not finished, the whole run absorbs. */
  lemma AttemptAbsorbed(api: Api, inp: Inputs, s: State, f: Faults)
    requires SameVersionUpgrade(s.addon, inp) && FreshUpgrade(s.addon)
    requires var stages := StagesOf(inp, BEFORE_CLUSTER_UPGRADE); Distinct(stages) && NoSkip(f.stages, |stages|)
    ensures var all := WholeRun(api, inp, s.addon.(hook := BEFORE_CLUSTER_UPGRADE));
      all.Run(Reconcile(api, s, inp, f).state.world) == all.Run(s.world)
  {
    AttemptLeads(api, inp, s, f);
  }

  /** One uninterrupted pass leaves the cluster as every stage run once and in order would, followed by the clean-up. */
  lemma SameVersionConverges(api: Api, inp: Inputs, s: State, f: Faults)
    requires SameVersionUpgrade(s.addon, inp) && Proceeds(f) && FreshUpgrade(s.addon)
    requires var stages := StagesOf(inp, BEFORE_CLUSTER_UPGRADE); Distinct(stages) && NoSkip(f.stages, |stages|)
    requires Reconcile(api, s, inp, f).finished.Some?
    ensures Reconcile(api, s, inp, f).state.world
      == WholeRun(api, inp, s.addon.(hook := BEFORE_CLUSTER_UPGRADE)).Run(s.world)
  {
    SameVersionRuns(api, inp, s, f);
    AttemptLeads(api, inp, s, f);
  }

  /**
   A suspended one is taken for done: if its first reconcile does not finish, the next one, whatever fails in it,
   touches nothing, completes no run, and yet records the new class as ready.  The hook stays pending.
   */
  lemma SuspendedIsRecordedReady(api: Api, inp: Inputs, s: State, f: Faults, g: Faults)
    requires SameVersionUpgrade(s.addon, inp) && Proceeds(f) && Proceeds(g)
    requires Reconcile(api, s, inp, f).finished.None?
    ensures var x := Reconcile(api, s, inp, f); var y := Reconcile(api, x.state, inp, g);
      && x.state.addon.clusterStack != inp.class_ && !x.state.addon.ready
      && y.finished.None? && y.state.world == x.state.world
      && y.state.addon.clusterStack == inp.class_ && y.state.addon.ready && y.state.addon.helm != True
      && y.state.addon.hook == BEFORE_CLUSTER_UPGRADE
  {
    var s1 := s.(addon := Prepared(s.addon, inp).(hook := BEFORE_CLUSTER_UPGRADE));
    SameVersionRuns(api, inp, s, f);
    RunStagesFrame(api, s1, StagesOf(inp, BEFORE_CLUSTER_UPGRADE), ChartsOf(inp, true), f.stages, 0);
  }
}
