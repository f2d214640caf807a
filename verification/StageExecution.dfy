/** `executeStage` in the form the operator has it: one object updated in place, a loop for the jumps to `check`. */
module StageExecution {
  import opened Stages
  import opened KubeClient
  import opened ClusterAddon

  /** One reconcile at work: the decoded addon, the client of the workload cluster, and what happened so far. */
  class Session {
    const addon: AddonObject
    const client: Client
    ghost var log: seq<Event>

    constructor (addon: AddonObject, client: Client, ghost log: seq<Event>)
      ensures this.addon == addon && this.client == client && this.log == log
    {
      this.addon, this.client := addon, client;
      this.log := log;
    }

    ghost function Now(): State
      reads this, addon, addon.resources, client
    {
      State(addon.Rec(), client.world, log)
    }

    /** Phases pending and waiting for the pre-condition. */
    method PreCondition(stage: Stage, f: StageFaults) returns (again: bool, outcome: Outcome)
      modifies this, addon
      ensures Round(Now(), again, outcome) == PreRound(old(Now()), stage, f)
    {
      if stage.hasPre {
        if f.pre == NotMatched {
          addon.SetStagePhase(stage.key, WaitingForPreCondition);
          return false, Requeue;
        }
        if f.pre == EvalError {
          return false, Error;
        }
        log := log + [PreTrue(stage.key)];
      }
      addon.SetStagePhase(stage.key, ApplyingOrDeleting);
      again, outcome := true, Continue;
    }

    /** The tracked resources of a successful action are not kept. */
    method Proceed(stage: Stage)
      modifies this, addon
      ensures var s := Note(old(Now()), Succeeded(stage.key));
        Now() == WithPhase(s.(addon := s.addon.(resources := [])), stage.key, WaitingForPostCondition)
    {
      addon.resources := [];
      log := log + [Succeeded(stage.key)];
      addon.SetStagePhase(stage.key, WaitingForPostCondition);
    }

    /** The requests of an apply action. */
    method Issue(stage: Stage, charts: Charts, f: StageFaults)
      returns (newResources: seq<Resource>, shouldRequeue: bool, failed: bool)
      requires stage.key.action == APPLY
      modifies this, client
      ensures var e := ActionEngine(client.api, old(client.world), stage, charts, f);
        && Now() == Note(old(Now()), Issued(stage.key)).(world := e.world)
        && failed == e.failed && shouldRequeue == (!e.failed && e.requeue)
    {
      log := log + [Issued(stage.key)];
      newResources, shouldRequeue, failed :=
        client.ApplyNewClusterStack(charts.prev(stage.key.name), charts.next(stage.key.name), f.kube);
    }

    /** The apply part of the phase applying-or-deleting. */
    method ApplyCharts(stage: Stage, charts: Charts, f: StageFaults) returns (again: bool, outcome: Outcome)
      requires stage.key.action == APPLY
      modifies this, addon, client
      ensures Round(Now(), again, outcome) == ActionRound(client.api, old(Now()), stage, charts, f)
    {
      if !f.templated {
        return false, Continue;
      }
      var newResources, shouldRequeue, failed := Issue(stage, charts, f);
      if failed {
        addon.helm := False;
        return false, Error;
      }
      if shouldRequeue {
        addon.helm := False;
        return false, Requeue;
      }
      addon.resources := newResources;
      addon.helm := Absent;
      Proceed(stage);
      again, outcome := true, Continue;
    }

    /** The delete part of the phase applying-or-deleting. */
    method DeleteCharts(stage: Stage, charts: Charts, f: StageFaults) returns (again: bool, outcome: Outcome)
      requires stage.key.action != APPLY
      modifies this, addon, client
      ensures Round(Now(), again, outcome) == ActionRound(client.api, old(Now()), stage, charts, f)
    {
      if !f.templated {
        return false, Continue;
      }
      log := log + [Issued(stage.key)];
      var deletedResources, shouldRequeue, failed :=
        client.DeleteNewClusterStack(charts.doomed(stage.key.name), f.kube);
      if failed {
        return false, Error;
      }
      if shouldRequeue {
        return false, Requeue;
      }
      addon.resources := deletedResources;
      Proceed(stage);
      again, outcome := true, Continue;
    }

    /** Phase waiting for the post-condition. */
    method PostCondition(stage: Stage, f: StageFaults) returns (outcome: Outcome)
      modifies this, addon
      ensures Round(Now(), false, outcome) == PostRound(old(Now()), stage, f)
    {
      if stage.hasPost {
        if f.post == NotMatched {
          return Requeue;
        }
        if f.post == EvalError {
          return Error;
        }
        log := log + [PostTrue(stage.key)];
      }
      log := log + [MarkedDone(stage.key)];
      addon.SetStagePhase(stage.key, Done);
      outcome := Continue;
    }

    /** The switch. */
    method Switch(stage: Stage, charts: Charts, f: StageFaults) returns (again: bool, outcome: Outcome)
      modifies this, addon, client
      ensures Round(Now(), again, outcome) == OneRound(client.api, old(Now()), stage, charts, f)
    {
      again, outcome := false, Continue;
      var phase := addon.GetStagePhase(stage.key);
      match phase
      case Pending => again, outcome := PreCondition(stage, f);
      case WaitingForPreCondition => again, outcome := PreCondition(stage, f);
      case ApplyingOrDeleting =>
        if stage.key.action == APPLY {
          again, outcome := ApplyCharts(stage, charts, f);
        } else {
          again, outcome := DeleteCharts(stage, charts, f);
        }
      case WaitingForPostCondition => outcome := PostCondition(stage, f);
      case _ =>
    }

    /** executeStage. */
    method Execute(stage: Stage, charts: Charts, f: StageFaults) returns (outcome: Outcome)
      modifies this, addon, client
      ensures Executed(Now(), outcome) == ExecuteStage(client.api, old(Now()), stage, charts, f)
    {
      if !f.chartFound {
        return Continue;
      }
      var again := true;
      outcome := Continue;
      while again
        invariant Check(client.api, old(Now()), stage, charts, f)
          == if again then Check(client.api, Now(), stage, charts, f) else Executed(Now(), outcome)
        decreases again, 5 - Rank(GetPhase(addon.stages, stage.key))
      {
        ghost var before := Now();
        again, outcome := Switch(stage, charts, f);
        if again {
          JumpRaisesRank(client.api, before, stage, charts, f);
        }
      }
    }

    /** The loop over the stages of a hook. */
    method ExecuteAll(stages: seq<Stage>, charts: Charts, f: nat -> StageFaults) returns (outcome: Outcome)
      modifies this, addon, client
      ensures Executed(Now(), outcome) == RunStages(client.api, old(Now()), stages, charts, f, 0)
    {
      var i := 0;
      while i < |stages|
        invariant 0 <= i <= |stages|
        invariant RunStages(client.api, old(Now()), stages, charts, f, 0)
          == RunStages(client.api, Now(), stages, charts, f, i)
      {
        outcome := Execute(stages[i], charts, f(i));
        if outcome != Continue {
          return;
        }
        i := i + 1;
      }
      outcome := Continue;
    }
  }
}
