/** One reconcile of a cluster addon, single-stage and multi-stage, as a function of the record. */
module Reconciling {
  import opened Results
  import opened Kube
  import opened Stages

  const BEFORE_CLUSTER_UPGRADE := "BeforeClusterUpgrade"
  const AFTER_CONTROL_PLANE_INITIALIZED := "AfterControlPlaneInitialized"
  const CREATED := "created"
  const UPGRADED := "upgraded"

  /** Renders the charts of one release: name and values to objects; values only where an overwrite file exists. */
  datatype Renderer = Renderer(render: (string, Option<string>) -> seq<Obj>, overwrite: string -> Option<string>)

  /** What a reconcile reads and does not change: the cluster's class, the new release and the old one. */
  datatype Inputs = Inputs(
    class_: string,
    singleStage: bool,
    kubernetes: string,
    addonVersion: string,
    config: map<string, seq<Stage>>,
    whole: seq<Obj>,
    next: Renderer,
    oldKubernetes: string,
    oldHasConfig: bool,
    oldWhole: seq<Obj>,
    prev: Renderer)

  datatype OldRelease = OldError | OldRequeue | OldReady

  /** Outcome of every external call that one reconcile can make. */
  datatype Faults = Faults(
    early: bool,                  // cluster, kubeconfig, readiness or release assets missing
    inputsOk: bool,               // chart unpacked, clusteraddon.yaml parsed
    download: OldRelease,             // download of the old release
    wholeTemplated: bool,
    whole: KubeFaults,
    stages: nat -> StageFaults,
    listsOk: bool,                // the lists of old and new objects could be built
    clean: nat -> DeleteFault,
    patched: bool)                // the record was persisted at the end

  datatype Run = WholeChart | HookStages(hook: string)

  /** State at the end of a reconcile; `finished` is the run that it completed. */
  datatype Exit = Exit(state: State, finished: Option<Run>)

  function StagesOf(inp: Inputs, hook: string): seq<Stage> {
    if hook in inp.config then inp.config[hook] else []
  }

  function ChartsOf(inp: Inputs, hasOld: bool): Charts {
    Charts(
      (name: string) => inp.next.render(name, inp.next.overwrite(name)),
      (name: string) =>
        if hasOld && inp.prev.overwrite(name).Some? then inp.prev.render(name, inp.prev.overwrite(name)) else [],
      (name: string) => inp.next.render(name, None))
  }

  /** The values in force after `n` stages: a chart without overwrite file keeps those of the stage before. */
  function Carried(r: Renderer, stages: seq<Stage>, n: nat): Option<string>
    requires n <= |stages|
  {
    if n == 0 then None
    else
      var own := r.overwrite(stages[n - 1].key.name);
      if own.Some? then own else Carried(r, stages, n - 1)
  }

  /** The resources of the first `n` stages: delete stages remove nothing from the list. */
  function ReleaseList(r: Renderer, stages: seq<Stage>, n: nat): seq<Res>
    requires n <= |stages|
  {
    if n == 0 then []
    else
      ReleaseList(r, stages, n - 1)
      + if stages[n - 1].key.action == APPLY
        then FromObjs(r.render(stages[n - 1].key.name, Carried(r, stages, n)))
        else []
  }

  function NewList(inp: Inputs, hook: string): seq<Res> {
    ReleaseList(inp.next, StagesOf(inp, hook), |StagesOf(inp, hook)|)
  }

  /** The hook whose stages the old release is enumerated with, always those of the new configuration. */
  function OldHook(annotation: Option<string>): string {
    if annotation == Some(CREATED) then AFTER_CONTROL_PLANE_INITIALIZED else BEFORE_CLUSTER_UPGRADE
  }

  function OldList(inp: Inputs, annotation: Option<string>): seq<Res> {
    if !inp.oldHasConfig then FromObjs(inp.oldWhole)
    else
      var stages := StagesOf(inp, OldHook(annotation));
      ReleaseList(inp.prev, stages, |stages|)
  }

  function Annotate(a: Addon, value: string): Addon {
    if a.annotation.None? then a.(annotation := Some(value)) else a
  }

  // ---------------------------------------------------------------------------------------
  // Single-stage flow
  // ---------------------------------------------------------------------------------------

  function ApplyWhole(api: Api, s: State, inp: Inputs, f: Faults): Executed {
    if !f.wholeTemplated then Executed(s, Error)
    else
      var e := Apply(api, s.world, inp.whole, s.addon.resources, f.whole);
      if e.failed then
        var left := Leftover(api, s.world, inp.whole, s.addon.resources, f.whole);
        Executed(s.(world := e.world, addon := s.addon.(resources := left)), Error)
      else
        var t := s.(world := e.world, addon := s.addon.(resources := e.resources));
        Executed(t, if e.requeue then Requeue else Continue)
  }

  /** What the record says once nothing is left to apply. */
  function Settled(a: Addon, inp: Inputs): Addon {
    Annotate(a, CREATED).(hook := "", clusterStack := inp.class_, ready := true)
  }

  /** After the attempt to apply a release with another addon version. */
  function AfterUpgrade(r: Executed, inp: Inputs): Exit {
    match r.outcome
    case Error => Exit(r.state.(addon := r.state.addon.(helm := False)), None)
    case Requeue =>
      var a := r.state.addon.(version := inp.addonVersion, clusterStack := inp.class_, helm := False);
      Exit(r.state.(addon := a), None)
    case Continue =>
      Exit(r.state.(addon := Settled(r.state.addon.(version := inp.addonVersion, helm := True), inp)), Some(WholeChart))
  }

  /** After the attempt to apply the present release again. */
  function AfterRetry(r: Executed, inp: Inputs): Exit {
    if r.outcome != Continue then Exit(r.state.(addon := r.state.addon.(helm := False)), None)
    else Exit(r.state.(addon := Settled(r.state.addon.(helm := True), inp)), Some(WholeChart))
  }

  function SingleStage(api: Api, s: State, inp: Inputs, f: Faults): Exit {
    var a := s.addon;
    if a.clusterStack != inp.class_ && a.version != inp.addonVersion then
      AfterUpgrade(ApplyWhole(api, s.(addon := a.(ready := false)), inp, f), inp)
    else if a.clusterStack == inp.class_ && a.helm == False then
      AfterRetry(ApplyWhole(api, s, inp, f), inp)
    else
      Exit(s.(addon := Settled(a, inp)), None)
  }

  // ---------------------------------------------------------------------------------------
  // Multi-stage flow
  // ---------------------------------------------------------------------------------------

  predicate Fresh(a: Addon) {
    a.ready || a.stages == []
  }

  function ResetForHook(a: Addon, inp: Inputs): Addon {
    if a.hook == "" then a
    else a.(stages := if Fresh(a) then InitStages(StagesOf(inp, a.hook)) else a.stages, ready := false)
  }

  predicate SameKubernetes(inp: Inputs, hasOld: bool) {
    hasOld && inp.oldKubernetes == inp.kubernetes
  }

  function ResetForSameVersion(a: Addon, inp: Inputs, hasOld: bool): Addon {
    if a.clusterStack != inp.class_ && SameKubernetes(inp, hasOld) then
      if a.version != inp.addonVersion then
        a.(stages := if Fresh(a) then InitStages(StagesOf(inp, BEFORE_CLUSTER_UPGRADE)) else a.stages,
           ready := false, helm := Absent)
      else a.(clusterStack := inp.class_, ready := true)
    else a
  }

  /** The record as the stage loop finds it. */
  function Prepared(a: Addon, inp: Inputs): Addon {
    var hasOld := a.clusterStack != "";
    ResetForSameVersion(ResetForHook(a, inp), inp, hasOld).(version := inp.addonVersion)
  }

  function Finish(a: Addon, inp: Inputs): Addon {
    var upgraded := if a.hook == BEFORE_CLUSTER_UPGRADE then Annotate(a, UPGRADED) else a;
    var named := if a.hook == BEFORE_CLUSTER_UPGRADE || a.hook == AFTER_CONTROL_PLANE_INITIALIZED
      then Annotate(upgraded, CREATED).(clusterStack := inp.class_, ready := true)
      else a;
    named.(helm := True, stages := [], resources := [], hook := "")
  }

  function HookRun(api: Api, s: State, inp: Inputs, f: Faults, hasOld: bool): Exit {
    var r := RunStages(api, s, StagesOf(inp, s.addon.hook), ChartsOf(inp, hasOld), f.stages, 0);
    if r.outcome != Continue then Exit(r.state, None)
    else if s.addon.hook == BEFORE_CLUSTER_UPGRADE then
      if !f.listsOk then Exit(r.state, None)
      else
        var old_, new_ := OldList(inp, r.state.addon.annotation), NewList(inp, r.state.addon.hook);
        var e := CleanUp(api, r.state.world, old_, new_, f.clean);
        var s1 := r.state.(world := e.world);
        if e.failed || e.requeue then Exit(s1, None)
        else Exit(s1.(addon := Finish(s1.addon, inp)), Some(HookStages(s.addon.hook)))
    else Exit(r.state.(addon := Finish(r.state.addon, inp)), Some(HookStages(s.addon.hook)))
  }

  function MultiStage(api: Api, s: State, inp: Inputs, f: Faults): Exit {
    if !f.inputsOk then Exit(s, None)
    else if s.addon.clusterStack != "" && f.download != OldReady then Exit(s, None)
    else
      var hasOld := s.addon.clusterStack != "";
      var a := Prepared(s.addon, inp);
      var s1 := s.(addon := a);
      if a.ready then Exit(s1, None)
      else if SameKubernetes(inp, hasOld) then
        HookRun(api, s1.(addon := a.(hook := BEFORE_CLUSTER_UPGRADE)), inp, f, hasOld)
      else if a.hook == "" then Exit(s1, None)
      else HookRun(api, s1, inp, f, hasOld)
  }

  /** The reconcile in memory, before the record is persisted. */
  function InMemory(api: Api, s: State, inp: Inputs, f: Faults): Exit {
    if f.early then Exit(s, None)
    else if inp.singleStage then SingleStage(api, s, inp, f)
    else MultiStage(api, s, inp, f)
  }

  /** A reconcile whose final patch fails has changed the cluster but not the record. */
  function Reconcile(api: Api, s: State, inp: Inputs, f: Faults): Exit {
    var x := InMemory(api, s, inp, f);
    if f.patched then x else Exit(x.state.(addon := s.addon), None)
  }
}
