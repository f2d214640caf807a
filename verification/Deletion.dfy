/** The finalizer of a ClusterStackRelease: when the object may go. */
module Deletion {
  import opened Results
  import opened Versions
  import opened ClusterStacks
  import opened Stages

  /** What is persisted of a release object, besides its name. */
  datatype Record = Record(
    finalizer: bool,
    deleting: bool,
    assets: Condition,
    apiAvailable: Condition,
    providerReady: Condition,
    helm: Condition,
    ready: bool,
    kubernetes: string)

  datatype Assets = Broken | Missing | Present(chartsOk: bool, kubernetes: string)

  datatype ChartOutcome = Failed | Again | Complete

  /** Outcome of every external call of one reconcile. */
  datatype Calls = Calls(
    assets: Assets,
    clientOk: bool,
    used: Option<seq<string>>,     // classes of the listed clusters, none if they cannot be listed
    templated: bool,
    removal: ChartOutcome,
    provider: Option<ChartOutcome>, // none without provider object
    application: ChartOutcome,
    patched: bool)

  // ---------------------------------------------------------------------------------------
  // One reconcile as a function of the record
  // ---------------------------------------------------------------------------------------

  predicate InUse(name: string, classes: seq<string>) {
    exists i :: 0 <= i < |classes| && classes[i] == name
  }

  /** reconcileDelete went through: not in use, and the charts are deleted. */
  predicate MayGo(name: string, c: Calls) {
    && c.used.Some? && !InUse(name, c.used.value)
    && c.templated && c.removal == Complete
  }

  function Install(r: Record, c: Calls): Record
    requires c.assets.Present?
  {
    var s := r.(kubernetes := c.assets.kubernetes);
    if c.provider.Some? && c.provider.value != Complete then s
    else
      var t := s.(providerReady := True);
      if t.helm == True then t
      else
        match c.application
        case Failed => t
        case Again => t.(helm := False)
        case Complete => t.(helm := True, ready := true)
  }

  /** Up to the deferred block. */
  function Body(name: string, r: Record, c: Calls): Record {
    var s := r.(finalizer := true);
    match c.assets
    case Broken => s.(assets := False)
    case Missing => s.(assets := False, apiAvailable := if c.clientOk then True else False)
    case Present(chartsOk, _) =>
      if !chartsOk then s.(assets := False)
      else
        var t := s.(assets := True);
        if !t.deleting then Install(t, c)
        else if MayGo(name, c) then t.(finalizer := false)
        else t
  }

  /** The deferred block, in memory. */
  function Deferred(r: Record): Record {
    if r.deleting && r.assets == False then r.(finalizer := false) else r
  }

  function InMemory(name: string, r: Record, c: Calls): Record {
    Deferred(Body(name, r, c))
  }

  // ---------------------------------------------------------------------------------------
  // The controller as it is
  // ---------------------------------------------------------------------------------------

  class ClusterStackRelease {
    const name: string
    var finalizer: bool
    var deleting: bool
    var assets: Condition
    var apiAvailable: Condition
    var providerReady: Condition
    var helm: Condition
    var ready: bool
    var kubernetes: string

    function Rec(): Record
      reads this
    {
      Record(finalizer, deleting, assets, apiAvailable, providerReady, helm, ready, kubernetes)
    }

    constructor (name: string, r: Record)
      ensures this.name == name && Rec() == r
    {
      this.name := name;
      finalizer, deleting, assets, apiAvailable := r.finalizer, r.deleting, r.assets, r.apiAvailable;
      providerReady, helm, ready, kubernetes := r.providerReady, r.helm, r.ready, r.kubernetes;
    }

    /** reconcileDelete. */
    method ReconcileDelete(c: Calls)
      modifies this`finalizer
      ensures Rec() == if MayGo(name, c) then old(Rec()).(finalizer := false) else old(Rec())
    {
      if c.used.None? {
        return;
      }
      var i := 0;
      while i < |c.used.value|
        invariant 0 <= i <= |c.used.value|
        invariant !InUse(name, c.used.value[..i])
      {
        if name == c.used.value[i] {
          return;
        }
        assert c.used.value[..i + 1] == c.used.value[..i] + [c.used.value[i]];
        i := i + 1;
      }
      assert c.used.value[..i] == c.used.value;
      if !c.templated || c.removal != Complete {
        return;
      }
      finalizer := false;
    }

    /** Reconcile up to its deferred block. */
    method Undeferred(c: Calls)
      modifies this
      ensures Rec() == Body(name, old(Rec()), c)
    {
      finalizer := true;
      if c.assets.Broken? {
        assets := False;
        return;
      }
      if c.assets.Missing? {
        assets := False;
        apiAvailable := if c.clientOk then True else False;
        return;
      }
      if !c.assets.chartsOk {
        assets := False;
        return;
      }
      assets := True;
      if deleting {
        ReconcileDelete(c);
        return;
      }
      kubernetes := c.assets.kubernetes;
      if c.provider.Some? && c.provider.value != Complete {
        return;
      }
      providerReady := True;
      if helm == True || c.application == Failed {
        return;
      }
      if c.application == Again {
        helm := False;
        return;
      }
      helm := True;
      ready := true;
    }

    method Reconcile(c: Calls)
      modifies this
      ensures Rec() == InMemory(name, old(Rec()), c)
    {
      Undeferred(c);
      if deleting && assets == False {
        finalizer := false;
      }
    }
  }

  // ---------------------------------------------------------------------------------------
  // Runs
  // ---------------------------------------------------------------------------------------

  datatype Step = RequestDeletion | DoReconcile(c: Calls)

  /** An object marked for deletion is gone once it has no finalizer. */
  function Kept(r: Record): Option<Record> {
    if r.deleting && !r.finalizer then None else Some(r)
  }

  function Next(name: string, o: Option<Record>, step: Step): Option<Record> {
    if o.None? then None
    else
      match step
      case RequestDeletion => Kept(o.value.(deleting := true))
      case DoReconcile(c) => if c.patched then Kept(InMemory(name, o.value, c)) else o
  }

  function After(name: string, o: Option<Record>, steps: seq<Step>): Option<Record>
    decreases |steps|
  {
    if steps == [] then o else Next(name, After(name, o, steps[..|steps| - 1]), steps[|steps| - 1])
  }

  /**
   A reconcile removes an object exactly if it is persisted and marked, and its assets fail, or the classes of all
   clusters were listed without its name and its charts were templated and removed to the end.
   */
  lemma GoesIff(name: string, r: Record, c: Calls)
    ensures Next(name, Some(r), DoReconcile(c)).None? <==>
      && c.patched && r.deleting
      && ((c.assets.Present? ==> !c.assets.chartsOk)
          || (c.used.Some? && name !in c.used.value && c.templated && c.removal == Complete))
  {
  }

  /** The step is one that an object may go in. */
  predicate Allowed(name: string, r: Record, step: Step) {
    match step
    case RequestDeletion => !r.finalizer
    case DoReconcile(c) =>
      && c.patched && r.deleting
      && ((c.assets.Present? ==> !c.assets.chartsOk)
          || (c.used.Some? && name !in c.used.value && c.templated && c.removal == Complete))
  }

  /**
   Deletion guard: in every run at whose end the object is gone, there is one step it went in, and that was a
   deletion request before any finalizer was persisted, or a reconcile of a marked object whose asset check failed,
   or one that found its name on no listed cluster and removed the charts to the end.
   */
  lemma {:induction false} DeletionGuard(name: string, r: Record, steps: seq<Step>) returns (t: nat)
    requires After(name, Some(r), steps).None?
    ensures t < |steps| && After(name, Some(r), steps[..t]).Some? && After(name, Some(r), steps[..t + 1]).None?
    ensures Allowed(name, After(name, Some(r), steps[..t]).value, steps[t])
    decreases |steps|
  {
    t := |steps| - 1;
    assert steps[..t + 1] == steps;
    if After(name, Some(r), steps[..t]).None? {
      t := DeletionGuard(name, r, steps[..t]);
      assert steps[..|steps| - 1][..t] == steps[..t] && steps[..|steps| - 1][..t + 1] == steps[..t + 1];
    } else {
      var s := After(name, Some(r), steps[..t]).value;
      if steps[t].DoReconcile? {
        GoesIff(name, s, steps[t].c);
      }
    }
  }

  /** A persisted finalizer is lost in no other way either. */
  lemma {:induction false} FinalizerStays(name: string, r: Record, steps: seq<Step>)
    requires r.finalizer
    ensures var o := After(name, Some(r), steps); o.Some? ==> o.value.finalizer
    decreases |steps|
  {
    if steps != [] {
      FinalizerStays(name, r, steps[..|steps| - 1]);
    }
  }

  /**
   What "in use" protects: with everything else going well, a marked release on whose class some cluster is stays
   exactly if its version is stable, for cluster classes carry the dotted name.
   */
  lemma UseProtectsIffStable(cs: ClusterStack, r: Record, c: Calls)
    requires Canonical(cs) && r.deleting && r.finalizer
    requires c.patched && c.assets.Present? && c.assets.chartsOk && c.templated && c.removal == Complete
    requires c.used.Some? && ClassName(cs) in c.used.value
    requires forall u :: u in c.used.value ==> FromClass(u).Ok?
    ensures Next(ReleaseName(cs), Some(r), DoReconcile(c)).Some? <==> cs.version.channel == STABLE
  {
    GoesIff(ReleaseName(cs), r, c);
    NamesCoincideIffStable(cs);
    if cs.version.channel != STABLE {
      ReleaseIsNoClass(cs);
    }
  }

  // ---------------------------------------------------------------------------------------
  // When a release gets ready
  // ---------------------------------------------------------------------------------------

  /** A persisted reconcile of an object that is not marked, with its assets there. */
  predicate Installs(o: Option<Record>, step: Step) {
    && o.Some? && !o.value.deleting && step.DoReconcile? && step.c.patched
    && step.c.assets.Present? && step.c.assets.chartsOk
  }

  /** One that finds the provider ready, if there is one. */
  predicate ProviderReady(o: Option<Record>, step: Step) {
    Installs(o, step) && (step.c.provider.None? || step.c.provider.value == Complete)
  }

  /** What a persisted reconcile leaves of an object that stays. */
  lemma StepLeaves(name: string, r: Record, step: Step)
    requires Next(name, Some(r), step).Some?
    ensures var s := Next(name, Some(r), step).value;
      && (s.deleting <==> r.deleting || step.RequestDeletion?)
      && s.kubernetes == (if Installs(Some(r), step) then step.c.assets.kubernetes else r.kubernetes)
      && (s.providerReady == True <==> r.providerReady == True || ProviderReady(Some(r), step))
      && (s.ready <==>
            r.ready || (ProviderReady(Some(r), step) && r.helm != True && step.c.application == Complete))
      && s.helm == (if !ProviderReady(Some(r), step) || r.helm == True || step.c.application == Failed then r.helm
                    else if step.c.application == Complete then True else False)
      && (step.DoReconcile? && step.c.patched ==>
            && (s.assets == True <==> step.c.assets.Present? && step.c.assets.chartsOk)
            && (s.assets == False <==> (step.c.assets.Present? ==> !step.c.assets.chartsOk))
            && s.apiAvailable == (if !step.c.assets.Missing? then r.apiAvailable
                                  else if step.c.clientOk then True else False))
  {
  }

  /** Step `t` of a run applies the chart completely. */
  predicate CompletesAt(name: string, r: Record, steps: seq<Step>, t: nat)
    requires t < |steps|
  {
    ProviderReady(After(name, Some(r), steps[..t]), steps[t]) && steps[t].c.application == Complete
  }

  /**
   A release is ready exactly if some persisted reconcile, before it was marked for deletion, found its assets and its
   provider ready and applied its chart completely.
   */
  lemma {:induction false} ReadyIff(name: string, r: Record, steps: seq<Step>)
    requires !r.ready && r.helm != True && After(name, Some(r), steps).Some?
    ensures var s := After(name, Some(r), steps).value;
      && (s.ready <==> s.helm == True)
      && (s.ready <==> exists t: nat | t < |steps| :: CompletesAt(name, r, steps, t))
    decreases |steps|
  {
    if steps != [] {
      var n := |steps| - 1;
      var before := steps[..n];
      ReadyIff(name, r, before);
      StepLeaves(name, After(name, Some(r), before).value, steps[n]);
      forall t: nat | t < n ensures CompletesAt(name, r, steps, t) <==> CompletesAt(name, r, before, t) {
        assert steps[..t] == before[..t];
      }
      assert CompletesAt(name, r, steps, n) <==>
          ProviderReady(After(name, Some(r), before), steps[n]) && steps[n].c.application == Complete;
    }
  }

  /** The version in its status is that of the last such reconcile, if there was any. */
  lemma {:induction false} KubernetesIs(name: string, r: Record, steps: seq<Step>, t: nat)
    requires After(name, Some(r), steps).Some? && t < |steps| && Installs(After(name, Some(r), steps[..t]), steps[t])
    requires forall i | t < i < |steps| :: !Installs(After(name, Some(r), steps[..i]), steps[i])
    ensures After(name, Some(r), steps).value.kubernetes == steps[t].c.assets.kubernetes
    decreases |steps|
  {
    var n := |steps| - 1;
    var before := steps[..n];
    StepLeaves(name, After(name, Some(r), before).value, steps[n]);
    if t < n {
      assert forall i :: 0 <= i < n ==> steps[..i] == before[..i] && steps[i] == before[i];
      KubernetesIs(name, r, before, t);
    }
  }
}
