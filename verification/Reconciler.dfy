/** `Reconcile` of a cluster addon in the form the operator has it. */
module Reconciler {
  import opened Results
  import opened Kube
  import opened Stages
  import opened Reconciling
  import opened KubeClient
  import opened ClusterAddon
  import opened StageExecution

  // ---------------------------------------------------------------------------------------
  // Lists of the objects of a release
  // ---------------------------------------------------------------------------------------

  /** GetResourcesFromHelmTemplate: a new entry for every object. */
  method ResourcesOf(objs: seq<Obj>) returns (resources: seq<Resource>)
    ensures forall r :: r in resources ==> fresh(r)
    ensures Values(resources) == FromObjs(objs)
  {
    resources := [];
    var n := 0;
    while n < |objs|
      invariant 0 <= n <= |objs|
      invariant forall r :: r in resources ==> fresh(r)
      invariant Values(resources) == FromObjs(objs[..n])
    {
      var resource := new Resource(objs[n]);
      ValuesSnoc(resources, resource);
      resources := resources + [resource];
      n := n + 1;
    }
    assert objs[..n] == objs;
  }

  /** The elements of a list that are not among the removed ones, by identity. */
  function Without(base: seq<Resource>, removed: set<Resource>): seq<Resource> {
    if base == [] then []
    else
      var last := base[|base| - 1];
      Without(base[..|base| - 1], removed) + if last in removed then [] else [last]
  }

  /** removeResourcesFromCurrentListOfObjects: compares references, not entries. */
  method RemoveResources(base: seq<Resource>, items: seq<Resource>) returns (list: seq<Resource>)
    ensures list == Without(base, set r | r in items)
  {
    var itemSet: set<Resource> := {};
    var n := 0;
    while n < |items|
      invariant 0 <= n <= |items|
      invariant itemSet == set r | r in items[..n]
    {
      assert items[..n + 1] == items[..n] + [items[n]];
      itemSet := itemSet + {items[n]};
      n := n + 1;
    }
    assert items[..n] == items;
    list := [];
    n := 0;
    while n < |base|
      invariant 0 <= n <= |base|
      invariant list == Without(base[..n], itemSet)
    {
      assert base[..n + 1][..n] == base[..n];
      if base[n] !in itemSet {
        list := list + [base[n]];
      }
      n := n + 1;
    }
    assert base[..n] == base;
  }

  /** Entries of another origin remove nothing, even if their values are the same. */
  lemma {:induction false} DisjointRemovesNothing(base: seq<Resource>, removed: set<Resource>)
    requires forall r :: r in base ==> r !in removed
    ensures Without(base, removed) == base
  {
    if base != [] {
      var front, last := base[..|base| - 1], base[|base| - 1];
      assert base == front + [last];
      DisjointRemovesNothing(front, removed);
    }
  }

  /** One stage: an apply stage adds its objects; a delete stage means to remove some, but compares references. */
  method AddStage(renderer: Renderer, stage: Stage, buildTemplate: Option<string>,
      resources: seq<Resource>) returns (list: seq<Resource>)
    ensures forall r :: r in list ==> r in resources || fresh(r)
    ensures Values(list) == Values(resources)
      + if stage.key.action == APPLY then FromObjs(renderer.render(stage.key.name, buildTemplate)) else []
  {
    var resource := ResourcesOf(renderer.render(stage.key.name, buildTemplate));
    if stage.key.action == APPLY {
      list := resources + resource;
      assert Values(list) == Values(resources) + Values(resource);
    } else {
      DisjointRemovesNothing(resources, set r | r in resource);
      list := RemoveResources(resources, resource);
    }
  }

  /** The loop of getNewReleaseObjects and getOldReleaseObjects. */
  method ReleaseObjects(renderer: Renderer, stages: seq<Stage>) returns (resources: seq<Resource>)
    ensures forall r :: r in resources ==> fresh(r)
    ensures Values(resources) == ReleaseList(renderer, stages, |stages|)
  {
    resources := [];
    var buildTemplate: Option<string> := None;
    var n := 0;
    while n < |stages|
      invariant 0 <= n <= |stages|
      invariant buildTemplate == Carried(renderer, stages, n)
      invariant forall r :: r in resources ==> fresh(r)
      invariant Values(resources) == ReleaseList(renderer, stages, n)
    {
      var overwrite := renderer.overwrite(stages[n].key.name);
      if overwrite.Some? {
        buildTemplate := overwrite;
      }
      resources := AddStage(renderer, stages[n], buildTemplate, resources);
      n := n + 1;
    }
  }

  method GetNewReleaseObjects(inp: Inputs, hook: string) returns (resources: seq<Resource>)
    ensures forall r :: r in resources ==> fresh(r)
    ensures Values(resources) == NewList(inp, hook)
  {
    resources := ReleaseObjects(inp.next, StagesOf(inp, hook));
  }

  method GetOldReleaseObjects(inp: Inputs, addon: AddonObject) returns (resources: seq<Resource>)
    ensures forall r :: r in resources ==> fresh(r)
    ensures Values(resources) == OldList(inp, addon.annotation)
  {
    if !inp.oldHasConfig {
      resources := ResourcesOf(inp.oldWhole);
      return;
    }
    var hook;
    var created := addon.HasStageAnnotation(CREATED);
    if created {
      hook := AFTER_CONTROL_PLANE_INITIALIZED;
    } else {
      hook := BEFORE_CLUSTER_UPGRADE;
    }
    resources := ReleaseObjects(inp.prev, StagesOf(inp, hook));
  }

  // ---------------------------------------------------------------------------------------
  // Single-stage flow
  // ---------------------------------------------------------------------------------------

  /** templateAndApplyClusterAddonHelmChart. */
  method TemplateAndApply(s: Session, inp: Inputs, f: Faults) returns (outcome: Outcome)
    requires Distinct(s.addon.resources)
    modifies s.addon, s.addon.resources, s.client
    ensures Executed(s.Now(), outcome) == ApplyWhole(s.client.api, old(s.Now()), inp, f)
  {
    if !f.wholeTemplated {
      return Error;
    }
    var newResources, shouldRequeue, failed := s.client.Apply(inp.whole, s.addon.resources, f.whole);
    if failed {
      return Error;
    }
    s.addon.resources := newResources;
    outcome := if shouldRequeue then Requeue else Continue;
  }

  method MarkReady(addon: AddonObject, inp: Inputs)
    modifies addon
    ensures addon.Rec() == Settled(old(addon.Rec()), inp)
  {
    addon.SetStageAnnotations(CREATED);
    addon.hook := "";
    addon.clusterStack := inp.class_;
    addon.ready := true;
  }

  method RecordUpgrade(s: Session, inp: Inputs, outcome: Outcome) returns (finished: Option<Run>)
    modifies s.addon
    ensures Exit(s.Now(), finished) == AfterUpgrade(Executed(old(s.Now()), outcome), inp)
  {
    finished := None;
    if outcome == Error {
      s.addon.helm := False;
      return;
    }
    s.addon.version := inp.addonVersion;
    if outcome == Requeue {
      s.addon.clusterStack := inp.class_;
      s.addon.helm := False;
      return;
    }
    s.addon.helm := True;
    MarkReady(s.addon, inp);
    finished := Some(WholeChart);
  }

  method RecordRetry(s: Session, inp: Inputs, outcome: Outcome) returns (finished: Option<Run>)
    modifies s.addon
    ensures Exit(s.Now(), finished) == AfterRetry(Executed(old(s.Now()), outcome), inp)
  {
    finished := None;
    if outcome != Continue {
      s.addon.helm := False;
      return;
    }
    s.addon.helm := True;
    MarkReady(s.addon, inp);
    finished := Some(WholeChart);
  }

  /** The flow without clusteraddon.yaml. */
  method RunSingleStage(s: Session, inp: Inputs, f: Faults) returns (finished: Option<Run>)
    requires Distinct(s.addon.resources)
    modifies s.addon, s.addon.resources, s.client
    ensures Exit(s.Now(), finished) == SingleStage(s.client.api, old(s.Now()), inp, f)
  {
    if s.addon.clusterStack != inp.class_ {
      if s.addon.version != inp.addonVersion {
        s.addon.ready := false;
        var outcome := TemplateAndApply(s, inp, f);
        finished := RecordUpgrade(s, inp, outcome);
        return;
      }
    } else if s.addon.helm == False {
      var outcome := TemplateAndApply(s, inp, f);
      finished := RecordRetry(s, inp, outcome);
      return;
    }
    MarkReady(s.addon, inp);
    finished := None;
  }

  // ---------------------------------------------------------------------------------------
  // Multi-stage flow
  // ---------------------------------------------------------------------------------------

  method PrepareHook(addon: AddonObject, inp: Inputs)
    modifies addon
    ensures addon.Rec() == ResetForHook(old(addon.Rec()), inp)
  {
    if addon.hook != "" {
      if addon.ready || |addon.stages| == 0 {
        addon.ResetStages(StagesOf(inp, addon.hook));
      }
      addon.ready := false;
    }
  }

  method PrepareSameVersion(addon: AddonObject, inp: Inputs, hasOld: bool)
    modifies addon
    ensures addon.Rec() == ResetForSameVersion(old(addon.Rec()), inp, hasOld)
  {
    if addon.clusterStack != inp.class_ && hasOld && inp.oldKubernetes == inp.kubernetes {
      if addon.version != inp.addonVersion {
        if addon.ready || |addon.stages| == 0 {
          addon.ResetStages(StagesOf(inp, BEFORE_CLUSTER_UPGRADE));
        }
        addon.ready := false;
        addon.helm := Absent;
      } else {
        addon.clusterStack := inp.class_;
        addon.ready := true;
      }
    }
  }

  /** The resets that precede the stages. */
  method Prepare(addon: AddonObject, inp: Inputs)
    modifies addon
    ensures addon.Rec() == Prepared(old(addon.Rec()), inp)
  {
    var hasOld := addon.clusterStack != "";
    PrepareHook(addon, inp);
    PrepareSameVersion(addon, inp, hasOld);
    addon.version := inp.addonVersion;
  }

  /** What remains to be recorded once the stages, and for an upgrade the clean-up, are through. */
  method Complete(addon: AddonObject, inp: Inputs)
    modifies addon
    ensures addon.Rec() == Finish(old(addon.Rec()), inp)
  {
    if addon.hook == AFTER_CONTROL_PLANE_INITIALIZED || addon.hook == BEFORE_CLUSTER_UPGRADE {
      if addon.hook == BEFORE_CLUSTER_UPGRADE {
        addon.SetStageAnnotations(UPGRADED);
      }
      addon.SetStageAnnotations(CREATED);
      addon.clusterStack := inp.class_;
      addon.ready := true;
    }
    addon.helm := True;
    addon.stages := [];
    addon.resources := [];
    addon.hook := "";
  }

  /** The stages of the hook, then the clean-up of an upgrade. */
  method RunStagesOfHook(s: Session, inp: Inputs, f: Faults, hasOld: bool) returns (finished: Option<Run>)
    modifies s, s.addon, s.client
    ensures Exit(s.Now(), finished) == HookRun(s.client.api, old(s.Now()), inp, f, hasOld)
  {
    finished := None;
    var hook := s.addon.hook;
    ghost var start := s.Now();
    var outcome := s.ExecuteAll(StagesOf(inp, hook), ChartsOf(inp, hasOld), f.stages);
    if outcome != Continue {
      return;
    }
    if hook == BEFORE_CLUSTER_UPGRADE {
      if !f.listsOk {
        return;
      }
      var requeue, failed := CleanUp(s, inp, f);
      if failed || requeue {
        return;
      }
    }
    Complete(s.addon, inp);
    finished := Some(HookStages(hook));
  }

  /** The lists of old and new objects, and the deletion of what only the old one has. */
  method CleanUp(s: Session, inp: Inputs, f: Faults) returns (requeue: bool, failed: bool)
    modifies s.client
    ensures var old_, new_ := OldList(inp, s.addon.annotation), NewList(inp, s.addon.hook);
      var e := Kube.CleanUp(s.client.api, old(s.client.world), old_, new_, f.clean);
      s.client.world == e.world && failed == e.failed && requeue == (!e.failed && e.requeue)
  {
    var oldList := GetOldReleaseObjects(inp, s.addon);
    var newList := GetNewReleaseObjects(inp, s.addon.hook);
    requeue, failed := s.client.CleanUpResources(oldList, newList, f.clean);
  }

  method RunMultiStage(s: Session, inp: Inputs, f: Faults) returns (finished: Option<Run>)
    modifies s, s.addon, s.client
    ensures Exit(s.Now(), finished) == MultiStage(s.client.api, old(s.Now()), inp, f)
  {
    finished := None;
    if !f.inputsOk {
      return;
    }
    var hasOld := s.addon.clusterStack != "";
    if hasOld && f.download != OldReady {
      return;
    }
    Prepare(s.addon, inp);
    if s.addon.ready {
      return;
    }
    if hasOld && inp.oldKubernetes == inp.kubernetes {
      s.addon.hook := BEFORE_CLUSTER_UPGRADE;
      finished := RunStagesOfHook(s, inp, f, hasOld);
      return;
    }
    if s.addon.hook == "" {
      return;
    }
    finished := RunStagesOfHook(s, inp, f, hasOld);
  }

  // ---------------------------------------------------------------------------------------
  // Reconcile
  // ---------------------------------------------------------------------------------------

  /** Everything between decoding the record and persisting it. */
  method RunInMemory(s: Session, inp: Inputs, f: Faults) returns (finished: Option<Run>)
    requires Distinct(s.addon.resources)
    modifies s, s.addon, s.addon.resources, s.client
    ensures Exit(s.Now(), finished) == InMemory(s.client.api, old(s.Now()), inp, f)
  {
    finished := None;
    if f.early {
      return;
    }
    if inp.singleStage {
      finished := RunSingleStage(s, inp, f);
    } else {
      finished := RunMultiStage(s, inp, f);
    }
  }

  /** The record decoded, with nothing shared. */
  method NewSession(a: Addon, client: Client, ghost log: seq<Event>) returns (s: Session)
    ensures fresh(s) && fresh(s.addon) && fresh(s.addon.resources) && s.client == client
    ensures Distinct(s.addon.resources) && s.Now() == State(a, client.world, log)
  {
    var addon := new AddonObject.Decode(a);
    s := new Session(addon, client, log);
  }

  /** The reconciler of one cluster addon; only the stored record and the cluster live on. */
  class AddonReconciler {
    const store: Store
    const client: Client
    ghost var log: seq<Event>

    constructor (store: Store, client: Client)
      ensures this.store == store && this.client == client && log == []
    {
      this.store, this.client, log := store, client, [];
    }

    ghost function Now(): State
      reads this, store, client
    {
      State(store.addon, client.world, log)
    }

    /** Reconcile: decode the record, work on the copy, and persist it on every exit if the patch succeeds. */
    method Reconcile(inp: Inputs, f: Faults) returns (finished: Option<Run>)
      modifies this, store, client
      ensures Exit(Now(), finished) == Reconciling.Reconcile(client.api, old(Now()), inp, f)
    {
      var session := NewSession(store.addon, client, log);
      finished := RunInMemory(session, inp, f);
      log := session.log;
      if f.patched {
        store.addon := session.addon.Encode();
      } else {
        finished := None;
      }
    }
  }
}
