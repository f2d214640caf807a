/** The cluster addon object in memory, and the API server that stores it. */
module ClusterAddon {
  import opened Results
  import opened Kube
  import opened Stages
  import opened KubeClient

  /** What the API server holds; controllers and the hook server work on decoded copies. */
  class Store {
    var addon: Addon

    constructor (a: Addon)
      ensures addon == a
    {
      addon := a;
    }
  }

  method DecodeResources(values: seq<Res>) returns (resources: seq<Resource>)
    ensures Values(resources) == values
    ensures Distinct(resources) && fresh(resources)
  {
    resources := [];
    var n := 0;
    while n < |values|
      invariant 0 <= n <= |values|
      invariant Values(resources) == values[..n]
      invariant Distinct(resources) && fresh(resources)
    {
      var resource := new Resource.Decode(values[n]);
      ValuesSnoc(resources, resource);
      resources := resources + [resource];
      n := n + 1;
    }
  }

  class AddonObject {
    var clusterStack: string
    var version: string
    var hook: string
    var ready: bool
    var stages: seq<StageStatus>
    var helm: Condition
    var annotation: Option<string>
    var resources: seq<Resource>

    ghost function Rec(): Addon
      reads this, resources
    {
      Addon(clusterStack, version, hook, ready, stages, helm, annotation, Values(resources))
    }

    /** A copy of the stored record, sharing nothing with other copies. */
    constructor Decode(a: Addon)
      ensures Rec() == a
      ensures Distinct(resources) && fresh(resources)
    {
      clusterStack, version, hook, ready := a.clusterStack, a.version, a.hook, a.ready;
      stages, helm, annotation, resources := a.stages, a.helm, a.annotation, [];
      new;
      resources := DecodeResources(a.resources);
    }

    /** What is persisted of the object. */
    method Encode() returns (a: Addon)
      ensures a == Rec()
    {
      a := Addon(clusterStack, version, hook, ready, stages, helm, annotation, Values(resources));
    }

    method GetStagePhase(key: StageKey) returns (phase: Phase)
      ensures phase == GetPhase(stages, key)
    {
      var i := 0;
      while i < |stages|
        invariant 0 <= i <= |stages|
        invariant GetPhase(stages, key) == GetPhase(stages[i..], key)
      {
        if stages[i].key == key {
          return stages[i].phase;
        }
        assert stages[i..][1..] == stages[i + 1..];
        i := i + 1;
      }
      phase := NoPhase;
    }

    method SetStagePhase(key: StageKey, phase: Phase)
      modifies this`stages
      ensures stages == SetPhase(old(stages), key, phase)
    {
      ghost var target := SetPhase(stages, key, phase);
      var i := 0;
      while i < |stages|
        invariant 0 <= i <= |stages| == |old(stages)|
        invariant forall j :: 0 <= j < |stages| ==> stages[j] == if j < i then target[j] else old(stages)[j]
      {
        if stages[i].key == key {
          stages := stages[i := stages[i].(phase := phase)];
        }
        i := i + 1;
      }
    }

    /** The stages of a hook, all pending. */
    method ResetStages(config: seq<Stage>)
      modifies this`stages
      ensures stages == InitStages(config)
    {
      stages := [];
      var i := 0;
      while i < |config|
        invariant 0 <= i <= |config|
        invariant stages == InitStages(config[..i])
      {
        stages := stages + [StageStatus(config[i].key, Pending)];
        i := i + 1;
      }
      assert config[..i] == config;
    }

    /** The first value written stays. */
    method SetStageAnnotations(value: string)
      modifies this`annotation
      ensures annotation == if old(annotation).None? then Some(value) else old(annotation)
    {
      if annotation.None? {
        annotation := Some(value);
      }
    }

    method HasStageAnnotation(value: string) returns (has: bool)
      ensures has <==> annotation == Some(value)
    {
      has := annotation.Some? && annotation.value == value;
    }
  }
}
