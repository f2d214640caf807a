/**
 The stages of a hook and the phase machine that `executeStage` runs on the record of a cluster
 addon, as functions of the record, the cluster and the outcome of every external call.
 */
module Stages {
  import opened Results
  import opened Kube

  type Action = string

  const APPLY: Action := "apply"

  datatype Phase = NoPhase | Pending | WaitingForPreCondition | ApplyingOrDeleting | WaitingForPostCondition | Done

  function Rank(p: Phase): nat {
    match p
    case NoPhase => 0
    case Pending => 1
    case WaitingForPreCondition => 2
    case ApplyingOrDeleting => 3
    case WaitingForPostCondition => 4
    case Done => 5
  }

  /** What a stage is looked up by. */
  datatype StageKey = StageKey(name: string, action: Action)

  datatype StageStatus = StageStatus(key: StageKey, phase: Phase)

  /** A stage of the configuration; only whether it states a condition matters, evaluation is external. */
  datatype Stage = Stage(key: StageKey, hasPre: bool, hasPost: bool)

  function GetPhase(stages: seq<StageStatus>, key: StageKey): Phase {
    if stages == [] then NoPhase
    else if stages[0].key == key then stages[0].phase
    else GetPhase(stages[1..], key)
  }

  /** Every entry of the key gets the phase. */
  function SetPhase(stages: seq<StageStatus>, key: StageKey, phase: Phase): (r: seq<StageStatus>)
    ensures |r| == |stages|
    ensures forall i :: 0 <= i < |r| ==> r[i] == if stages[i].key == key then stages[i].(phase := phase) else stages[i]
  {
    seq(|stages|, i requires 0 <= i < |stages| =>
          if stages[i].key == key then stages[i].(phase := phase) else stages[i])
  }

  function InitStages(stages: seq<Stage>): (r: seq<StageStatus>)
    ensures |r| == |stages|
    ensures forall i :: 0 <= i < |r| ==> r[i] == StageStatus(stages[i].key, Pending)
  {
    seq(|stages|, i requires 0 <= i < |stages| => StageStatus(stages[i].key, Pending))
  }

  ghost predicate Listed(stages: seq<StageStatus>, key: StageKey) {
    exists s :: s in stages && s.key == key
  }

  lemma {:induction false} GetAfterSet(stages: seq<StageStatus>, key: StageKey, phase: Phase, other: StageKey)
    ensures GetPhase(SetPhase(stages, key, phase), other)
      == if other == key && Listed(stages, key) then phase else GetPhase(stages, other)
  {
    if stages != [] {
      GetAfterSet(stages[1..], key, phase, other);
      assert SetPhase(stages, key, phase)[1..] == SetPhase(stages[1..], key, phase);
      assert stages[0] in stages;
      assert Listed(stages[1..], key) ==> Listed(stages, key);
      assert stages[0].key != key && Listed(stages, key) ==> Listed(stages[1..], key) by {
        if stages[0].key != key && Listed(stages, key) {
          var s :| s in stages && s.key == key;
          assert s in stages[1..];
        }
      }
    }
  }

  lemma {:induction false} UnlistedHasNoPhase(stages: seq<StageStatus>, key: StageKey)
    requires !Listed(stages, key)
    ensures GetPhase(stages, key) == NoPhase
  {
    if stages != [] {
      assert stages[0] in stages;
      assert Listed(stages[1..], key) ==> Listed(stages, key);
      UnlistedHasNoPhase(stages[1..], key);
    }
  }

  // ---------------------------------------------------------------------------------------
  // The record and the outcome of the external calls
  // ---------------------------------------------------------------------------------------

  /** The HelmChartApplied condition. */
  datatype Condition = Absent | False | True

  /** The persisted record: spec, status, stage annotation. */
  datatype Addon = Addon(
    clusterStack: string,
    version: string,
    hook: string,
    ready: bool,
    stages: seq<StageStatus>,
    helm: Condition,
    annotation: Option<string>,
    resources: seq<Res>)

  /** What happened in a run, in order. */
  datatype Event =
    | PreTrue(key: StageKey)
    | Issued(key: StageKey)
    | Succeeded(key: StageKey)
    | PostTrue(key: StageKey)
    | MarkedDone(key: StageKey)

  datatype State = State(addon: Addon, world: World, log: seq<Event>)

  datatype Evaluation = Matched | NotMatched | EvalError

  /** Outcome of every external call that one execution of a stage can make. */
  datatype StageFaults = StageFaults(
    chartFound: bool,
    pre: Evaluation,
    templated: bool,
    kube: KubeFaults,
    post: Evaluation)

  /** The templates of the charts: of the new release to apply and to delete, of the old one to prune. */
  datatype Charts = Charts(next: string -> seq<Obj>, prev: string -> seq<Obj>, doomed: string -> seq<Obj>)

  datatype Outcome = Continue | Requeue | Error

  /** Result of one round of the switch: `again` is the jump back to `check`. */
  datatype Round = Round(state: State, again: bool, outcome: Outcome)

  datatype Executed = Executed(state: State, outcome: Outcome)

  function WithPhase(s: State, key: StageKey, phase: Phase): State {
    s.(addon := s.addon.(stages := SetPhase(s.addon.stages, key, phase)))
  }

  function Note(s: State, e: Event): State {
    s.(log := s.log + [e])
  }

  function PreRound(s: State, stage: Stage, f: StageFaults): Round {
    if stage.hasPre && f.pre == NotMatched then Round(WithPhase(s, stage.key, WaitingForPreCondition), false, Requeue)
    else if stage.hasPre && f.pre == EvalError then Round(s, false, Error)
    else
      var s1 := if stage.hasPre then Note(s, PreTrue(stage.key)) else s;
      Round(WithPhase(s1, stage.key, ApplyingOrDeleting), true, Continue)
  }

  function ActionEngine(api: Api, w: World, stage: Stage, charts: Charts, f: StageFaults): Engine {
    if stage.key.action == APPLY
    then ApplyNew(api, w, charts.prev(stage.key.name), charts.next(stage.key.name), f.kube)
    else DeleteNew(api, w, charts.doomed(stage.key.name), f.kube)
  }

  function ActionRound(api: Api, s: State, stage: Stage, charts: Charts, f: StageFaults): Round {
    if !f.templated then Round(s, false, Continue)
    else
      var apply := stage.key.action == APPLY;
      var e := ActionEngine(api, s.world, stage, charts, f);
      var s1 := Note(s, Issued(stage.key)).(world := e.world);
      if e.failed || e.requeue then
        Round(if apply then s1.(addon := s1.addon.(helm := False)) else s1, false, if e.failed then Error else Requeue)
      else
        var a := s1.addon.(resources := [], helm := if apply then Absent else s1.addon.helm);
        var s2 := Note(s1.(addon := a), Succeeded(stage.key));
        Round(WithPhase(s2, stage.key, WaitingForPostCondition), true, Continue)
  }

  function PostRound(s: State, stage: Stage, f: StageFaults): Round {
    if stage.hasPost && f.post == NotMatched then Round(s, false, Requeue)
    else if stage.hasPost && f.post == EvalError then Round(s, false, Error)
    else
      var s1 := if stage.hasPost then Note(s, PostTrue(stage.key)) else s;
      Round(WithPhase(Note(s1, MarkedDone(stage.key)), stage.key, Done), false, Continue)
  }

  /** One round of the switch under the label `check`. */
  function OneRound(api: Api, s: State, stage: Stage, charts: Charts, f: StageFaults): Round {
    match GetPhase(s.addon.stages, stage.key)
    case Pending => PreRound(s, stage, f)
    case WaitingForPreCondition => PreRound(s, stage, f)
    case ApplyingOrDeleting => ActionRound(api, s, stage, charts, f)
    case WaitingForPostCondition => PostRound(s, stage, f)
    case _ => Round(s, false, Continue)
  }

  /** The `goto check` loop makes progress: a jump back raises the rank of the phase. */
  lemma JumpRaisesRank(api: Api, s: State, stage: Stage, charts: Charts, f: StageFaults)
    requires OneRound(api, s, stage, charts, f).again
    ensures var after := OneRound(api, s, stage, charts, f).state.addon.stages;
      Rank(GetPhase(s.addon.stages, stage.key)) < Rank(GetPhase(after, stage.key)) <= Rank(WaitingForPostCondition)
  {
    var before := s.addon.stages;
    if !Listed(before, stage.key) {
      UnlistedHasNoPhase(before, stage.key);
    }
    GetAfterSet(before, stage.key, ApplyingOrDeleting, stage.key);
    GetAfterSet(before, stage.key, WaitingForPostCondition, stage.key);
  }

  /** The loop from `check` on. */
  function Check(api: Api, s: State, stage: Stage, charts: Charts, f: StageFaults): Executed
    decreases 5 - Rank(GetPhase(s.addon.stages, stage.key))
  {
    var r := OneRound(api, s, stage, charts, f);
    if r.again then
      JumpRaisesRank(api, s, stage, charts, f);
      Check(api, r.state, stage, charts, f)
    else Executed(r.state, r.outcome)
  }

  function ExecuteStage(api: Api, s: State, stage: Stage, charts: Charts, f: StageFaults): Executed {
    if !f.chartFound then Executed(s, Continue) else Check(api, s, stage, charts, f)
  }

  /** The loop over the stages of a hook, from index `i` on; the first requeue or error ends it. */
  function RunStages(api: Api, s: State, stages: seq<Stage>, charts: Charts, f: nat -> StageFaults, i: nat): Executed
    requires i <= |stages|
    decreases |stages| - i
  {
    if i == |stages| then Executed(s, Continue)
    else
      var r := ExecuteStage(api, s, stages[i], charts, f(i));
      if r.outcome != Continue then r else RunStages(api, r.state, stages, charts, f, i + 1)
  }
}
