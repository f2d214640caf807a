/** What becomes of an upgrade within one Kubernetes version, over any sequence of reconciles with any failures. */
module SameVersion {
  import opened Kube
  import opened Effects
  import opened Stages
  import opened StageRuns
  import opened Outcomes
  import opened Reconciling
  import opened Protocol
  import opened Upgrade
  import opened Completion
  import opened EndState

  /** Reconciles one after the other; the old release that each finds is the one that the record names. */
  function Reconciles(api: Api, s: State, releases: string -> Inputs, fs: seq<Faults>): State
    decreases |fs|
  {
    if fs == [] then s
    else
      var before := Reconciles(api, s, releases, fs[..|fs| - 1]);
      Reconcile(api, before, releases(before.addon.clusterStack), fs[|fs| - 1]).state
  }

  lemma {:induction false} ReconcilesSplit(api: Api, s: State, releases: string -> Inputs, fs: seq<Faults>, n: nat)
    requires n <= |fs|
    ensures var before := Reconciles(api, s, releases, fs[..n]);
      Reconciles(api, s, releases, fs) == Reconciles(api, before, releases, fs[n..])
    decreases |fs| - n
  {
    if n == |fs| {
      assert fs[..n] == fs;
    } else {
      var front := fs[..|fs| - 1];
      ReconcilesSplit(api, s, releases, front, n);
      assert front[..n] == fs[..n] && fs[n..][..|fs| - n - 1] == front[n..];
    }
  }

  lemma ReconcilesNext(api: Api, s: State, releases: string -> Inputs, fs: seq<Faults>, n: nat)
    requires n < |fs|
    ensures var before := Reconciles(api, s, releases, fs[..n]);
      Reconciles(api, s, releases, fs[..n + 1])
      == Reconcile(api, before, releases(before.addon.clusterStack), fs[n]).state
  {
    assert fs[..n + 1][..n] == fs[..n];
  }

  /** Reconcile `n` is the first that proceeds. */
  ghost predicate ProceedsFirst(fs: seq<Faults>, n: nat) {
    n < |fs| && Proceeds(fs[n]) && forall j: nat | j < n :: !Proceeds(fs[j])
  }

  lemma {:induction false} SomeProceedsFirst(fs: seq<Faults>, n: nat)
    requires n < |fs| && Proceeds(fs[n])
    ensures exists k: nat :: ProceedsFirst(fs, k)
  {
    if j: nat :| j < n && Proceeds(fs[j]) {
      SomeProceedsFirst(fs, j);
    } else {
      assert ProceedsFirst(fs, n);
    }
  }

  /** How many reconciles come before the first that proceeds. */
  ghost function Lost(fs: seq<Faults>): (n: nat)
    ensures n <= |fs| && (n < |fs| ==> Proceeds(fs[n]))
    ensures forall j: nat | j < n :: !Proceeds(fs[j])
  {
    if k: nat :| ProceedsFirst(fs, k) then k
    else
      assert forall n: nat | n < |fs| :: !Proceeds(fs[n]) by {
        if n: nat :| n < |fs| && Proceeds(fs[n]) {
          SomeProceedsFirst(fs, n);
        }
      }
      |fs|
  }

  /** The state that the first proceeding reconcile leaves. */
  ghost function First(api: Api, s: State, releases: string -> Inputs, fs: seq<Faults>): State
    requires Lost(fs) < |fs|
  {
    Reconciles(api, s, releases, fs[..Lost(fs) + 1])
  }

  /** The reconciles after it. */
  ghost function Later(fs: seq<Faults>): seq<Faults>
    requires Lost(fs) < |fs|
  {
    fs[Lost(fs) + 1..]
  }

  lemma FirstThenLater(api: Api, s: State, releases: string -> Inputs, fs: seq<Faults>)
    requires Lost(fs) < |fs|
    ensures Reconciles(api, s, releases, fs) == Reconciles(api, First(api, s, releases, fs), releases, Later(fs))
  {
    ReconcilesSplit(api, s, releases, fs, Lost(fs) + 1);
  }

  /** Whatever old release is found, the new one is a multi-stage release of the class `target`. */
  ghost predicate OneTarget(releases: string -> Inputs, target: string) {
    target != "" && forall k :: releases(k).class_ == target && !releases(k).singleStage
  }

  /** An upgrade to `target` within one Kubernetes version, about to start. */
  ghost predicate Upgrading(a: Addon, releases: string -> Inputs, target: string) {
    OneTarget(releases, target) && CanStart(a, releases(a.clusterStack))
  }

  // ---------------------------------------------------------------------------------------
  // The first reconcile that proceeds
  // ---------------------------------------------------------------------------------------

  /** A reconcile that does not proceed leaves the record as it was. */
  lemma LostReconcile(api: Api, s: State, inp: Inputs, f: Faults)
    requires !inp.singleStage && s.addon.clusterStack != "" && !Proceeds(f)
    ensures var x := Reconcile(api, s, inp, f); x.finished.None? && x.state.addon == s.addon
  {
  }

  lemma {:induction false} LostReconciles(api: Api, s: State, releases: string -> Inputs, target: string,
                                          fs: seq<Faults>, n: nat)
    requires OneTarget(releases, target) && s.addon.clusterStack != "" && n <= Lost(fs)
    ensures Reconciles(api, s, releases, fs[..n]).addon == s.addon
  {
    if n > 0 {
      LostReconciles(api, s, releases, target, fs, n - 1);
      ReconcilesNext(api, s, releases, fs, n - 1);
      LostReconcile(api, Reconciles(api, s, releases, fs[..n - 1]), releases(s.addon.clusterStack), fs[n - 1]);
    }
  }

  /** The state in which the next reconcile finds the record of the start. */
  lemma LostNext(api: Api, s: State, releases: string -> Inputs, target: string, fs: seq<Faults>, n: nat)
    returns (before: State)
    requires OneTarget(releases, target) && s.addon.clusterStack != "" && n <= Lost(fs) && n < |fs|
    ensures before == Reconciles(api, s, releases, fs[..n]) && before.addon == s.addon
    ensures Reconciles(api, s, releases, fs[..n + 1])
      == Reconcile(api, before, releases(s.addon.clusterStack), fs[n]).state
  {
    before := Reconciles(api, s, releases, fs[..n]);
    LostReconciles(api, s, releases, target, fs, n);
    ReconcilesNext(api, s, releases, fs, n);
  }

  /** A run that the next reconcile takes for done. */
  predicate Suspended(a: Addon, inp: Inputs) {
    && a.clusterStack != "" && a.clusterStack != inp.class_ && inp.oldKubernetes == inp.kubernetes
    && a.version == inp.addonVersion && !inp.singleStage
    && !a.ready && a.hook == BEFORE_CLUSTER_UPGRADE && a.helm != True
  }

  /** The first reconcile that proceeds finishes exactly if the run goes through, and otherwise leaves it suspended. */
  lemma FirstDecides(api: Api, s: State, inp: Inputs, f: Faults)
    requires CanStart(s.addon, inp) && Proceeds(f)
    ensures var x, through := Reconcile(api, s, inp, f), GoesThrough(inp, SameVersionStart(s.addon, inp), f, true);
      && (x.finished.Some? <==> through)
      && if through then AtRest(inp.class_, x.state.addon)
         else
           Suspended(x.state.addon, inp)
           && x.state.addon.clusterStack == s.addon.clusterStack && x.state.addon.annotation == s.addon.annotation
  {
    SameVersionFinishesIff(api, inp, s, f);
    SameVersionRuns(api, inp, s, f);
    var s1 := s.(addon := SameVersionStart(s.addon, inp));
    RunStagesFrame(api, s1, StagesOf(inp, BEFORE_CLUSTER_UPGRADE), ChartsOf(inp, true), f.stages, 0);
  }

  /** Some reconcile proceeds, and the run of the first one that does goes through. */
  ghost predicate FirstGoesThrough(a: Addon, releases: string -> Inputs, target: string, fs: seq<Faults>)
    requires Upgrading(a, releases, target)
  {
    var inp := releases(a.clusterStack);
    Lost(fs) < |fs| && GoesThrough(inp, SameVersionStart(a, inp), fs[Lost(fs)], true)
  }

  lemma FirstLeaves(api: Api, s: State, releases: string -> Inputs, target: string, fs: seq<Faults>)
    requires Upgrading(s.addon, releases, target) && Lost(fs) < |fs|
    ensures var a := First(api, s, releases, fs).addon;
      if FirstGoesThrough(s.addon, releases, target, fs) then AtRest(target, a)
      else
        Suspended(a, releases(a.clusterStack))
        && a.clusterStack == s.addon.clusterStack && a.annotation == s.addon.annotation
  {
    var before := LostNext(api, s, releases, target, fs, Lost(fs));
    FirstDecides(api, before, releases(s.addon.clusterStack), fs[Lost(fs)]);
  }

  // ---------------------------------------------------------------------------------------
  // If it goes through
  // ---------------------------------------------------------------------------------------

  /** A record at rest stays at rest. */
  lemma {:induction false} RestStays(api: Api, s: State, releases: string -> Inputs, target: string, fs: seq<Faults>)
    requires OneTarget(releases, target) && AtRest(target, s.addon)
    ensures var t := Reconciles(api, s, releases, fs); AtRest(target, t.addon) && t.world == s.world
    decreases |fs|
  {
    if fs != [] {
      var before := Reconciles(api, s, releases, fs[..|fs| - 1]);
      RestStays(api, s, releases, target, fs[..|fs| - 1]);
      FinishedRests(api, before, releases(before.addon.clusterStack), fs[|fs| - 1]);
    }
  }

  /** The upgrade is complete, and nothing is touched any more. */
  lemma CompleteAtFirst(api: Api, s: State, releases: string -> Inputs, target: string, fs: seq<Faults>)
    requires Upgrading(s.addon, releases, target) && FirstGoesThrough(s.addon, releases, target, fs)
    ensures var t := Reconciles(api, s, releases, fs);
      AtRest(target, t.addon) && t.world == First(api, s, releases, fs).world
  {
    FirstLeaves(api, s, releases, target, fs);
    FirstThenLater(api, s, releases, fs);
    RestStays(api, First(api, s, releases, fs), releases, target, Later(fs));
  }

  /** Attempts whose record was lost are absorbed. */
  lemma {:induction false} LostAbsorbed(api: Api, s: State, releases: string -> Inputs, target: string, fs: seq<Faults>,
                                        n: nat)
    requires Upgrading(s.addon, releases, target) && FreshUpgrade(s.addon) && n <= Lost(fs)
    requires var inp := releases(s.addon.clusterStack);
      forall i | 0 <= i < n :: NoSkip(fs[i].stages, |StagesOf(inp, BEFORE_CLUSTER_UPGRADE)|)
    ensures var all := WholeRun(api, releases(s.addon.clusterStack), s.addon.(hook := BEFORE_CLUSTER_UPGRADE));
      all.Run(Reconciles(api, s, releases, fs[..n]).world) == all.Run(s.world)
  {
    if n > 0 {
      LostAbsorbed(api, s, releases, target, fs, n - 1);
      var before := LostNext(api, s, releases, target, fs, n - 1);
      AttemptAbsorbed(api, releases(s.addon.clusterStack), before, fs[n - 1]);
    }
  }

  /** The cluster is then upgraded with respect to its state before all attempts, also those whose record was lost. */
  lemma UpgradedAtFirst(api: Api, s: State, releases: string -> Inputs, target: string, fs: seq<Faults>)
    requires Upgrading(s.addon, releases, target) && FreshUpgrade(s.addon)
    requires FirstGoesThrough(s.addon, releases, target, fs)
    requires var inp := releases(s.addon.clusterStack);
      forall i | 0 <= i <= Lost(fs) :: NoSkip(fs[i].stages, |StagesOf(inp, BEFORE_CLUSTER_UPGRADE)|)
    ensures var inp, a := releases(s.addon.clusterStack), s.addon.(hook := BEFORE_CLUSTER_UPGRADE);
      Upgraded(api, inp, a, s.world, Reconciles(api, s, releases, fs).world)
  {
    var inp, n, a := releases(s.addon.clusterStack), Lost(fs), s.addon.(hook := BEFORE_CLUSTER_UPGRADE);
    CompleteAtFirst(api, s, releases, target, fs);
    var before := LostNext(api, s, releases, target, fs, n);
    LostAbsorbed(api, s, releases, target, fs, n);
    FirstDecides(api, before, inp, fs[n]);
    SameVersionConverges(api, inp, before, fs[n]);
    WholeRunUpgrades(api, inp, a, s.world);
  }

  // ---------------------------------------------------------------------------------------
  // If it does not
  // ---------------------------------------------------------------------------------------

  /** The class is recorded as ready, and the hook is still pending. */
  predicate Marked(a: Addon, target: string) {
    a.clusterStack == target && a.ready && a.hook == BEFORE_CLUSTER_UPGRADE && a.helm != True
  }

  /** A reconcile of a suspended run touches nothing; the first that proceeds records the class as ready. */
  lemma SuspendedStep(api: Api, s: State, inp: Inputs, g: Faults)
    requires Suspended(s.addon, inp)
    ensures var x := Reconcile(api, s, inp, g);
      && x.finished.None? && x.state.world == s.world
      && if Proceeds(g) then Marked(x.state.addon, inp.class_) && x.state.addon.annotation == s.addon.annotation
         else x.state == s
  {
  }

  lemma {:induction false} SuspendedWaits(api: Api, s: State, releases: string -> Inputs, fs: seq<Faults>, n: nat)
    requires Suspended(s.addon, releases(s.addon.clusterStack)) && n <= Lost(fs)
    ensures Reconciles(api, s, releases, fs[..n]) == s
  {
    if n > 0 {
      SuspendedWaits(api, s, releases, fs, n - 1);
      ReconcilesNext(api, s, releases, fs, n - 1);
      SuspendedStep(api, s, releases(s.addon.clusterStack), fs[n - 1]);
    }
  }

  /** From `s` on the reconciles `fs` run the pending hook, up to `t`; once that is finished they touch nothing more. */
  ghost predicate Runs(api: Api, inp: Inputs, s: State, fs: seq<Faults>, t: State) {
    var x := RunHook(api, s, inp, fs);
    if x.finished.None? then t == x.state && SameRun(s.addon, t.addon)
    else AtRest(inp.class_, t.addon) && t.world == x.state.world
  }

  /** The reconciles of a pending hook are its run. */
  lemma {:induction false} RunFollows(api: Api, s: State, releases: string -> Inputs, target: string, fs: seq<Faults>)
    requires OneTarget(releases, target) && HookPath(s.addon, releases(s.addon.clusterStack))
    ensures Runs(api, releases(s.addon.clusterStack), s, fs, Reconciles(api, s, releases, fs))
    decreases |fs|
  {
    if fs != [] {
      var inp, front, f := releases(s.addon.clusterStack), fs[..|fs| - 1], fs[|fs| - 1];
      RunFollows(api, s, releases, target, front);
      var x, t := RunHook(api, s, inp, front), Reconciles(api, s, releases, front);
      if x.finished.Some? {
        FinishedRests(api, t, releases(t.addon.clusterStack), f);
      } else if Reconcile(api, t, inp, f).finished.Some? {
        FinishRests(api, inp, t, f);
      } else {
        UnfinishedStays(api, inp, t, f);
      }
    }
  }

  /** What is left of a suspended run starts a run of the new release upon itself. */
  lemma MarkedRuns(api: Api, y: State, releases: string -> Inputs, target: string, fs: seq<Faults>)
    requires OneTarget(releases, target) && Marked(y.addon, target)
    ensures HookPath(y.addon, releases(target)) && Fresh(y.addon)
    ensures Runs(api, releases(target), y, fs, Reconciles(api, y, releases, fs))
  {
    RunFollows(api, y, releases, target, fs);
  }

  lemma SuspendedIsMarked(api: Api, x: State, releases: string -> Inputs, target: string, fs: seq<Faults>)
    requires OneTarget(releases, target) && Suspended(x.addon, releases(x.addon.clusterStack)) && Lost(fs) < |fs|
    ensures var y := First(api, x, releases, fs);
      Marked(y.addon, target) && y.addon.annotation == x.addon.annotation && y.world == x.world
  {
    SuspendedWaits(api, x, releases, fs, Lost(fs));
    ReconcilesNext(api, x, releases, fs, Lost(fs));
    SuspendedStep(api, x, releases(x.addon.clusterStack), fs[Lost(fs)]);
  }

  /**
   After a first run that did not go through, the next proceeding reconcile touches nothing, records the class as ready,
   and leaves the hook pending; from then on the reconciles are a run of the hook of the new release upon itself.
   */
  lemma SuspendedReruns(api: Api, x: State, releases: string -> Inputs, target: string, fs: seq<Faults>)
    requires OneTarget(releases, target) && Suspended(x.addon, releases(x.addon.clusterStack)) && Lost(fs) < |fs|
    ensures var y := First(api, x, releases, fs);
      && Marked(y.addon, target) && y.world == x.world && HookPath(y.addon, releases(target)) && Fresh(y.addon)
      && Runs(api, releases(target), y, Later(fs), Reconciles(api, x, releases, fs))
  {
    SuspendedIsMarked(api, x, releases, target, fs);
    FirstThenLater(api, x, releases, fs);
    MarkedRuns(api, First(api, x, releases, fs), releases, target, Later(fs));
  }

  /**
   So one more reconcile without failures completes a run, and a completed one leaves the cluster upgraded: by the new
   release upon itself, with respect to what the first run has left.
   */
  lemma SuspendedUpgrades(api: Api, x: State, releases: string -> Inputs, target: string, fs: seq<Faults>)
    requires OneTarget(releases, target) && Suspended(x.addon, releases(x.addon.clusterStack)) && Lost(fs) < |fs|
    requires var stages := StagesOf(releases(target), BEFORE_CLUSTER_UPGRADE);
      Distinct(stages) && forall i | 0 <= i < |Later(fs)| :: NoSkip(Later(fs)[i].stages, |stages|)
    ensures var y, t := First(api, x, releases, fs), Reconciles(api, x, releases, fs);
      && (Faulty(Later(fs)) < |Later(fs)| ==> AtRest(target, t.addon))
      && (AtRest(target, t.addon) ==> Upgraded(api, releases(target), y.addon, x.world, t.world))
  {
    SuspendedReruns(api, x, releases, target, fs);
    RunUpgrades(api, releases(target), First(api, x, releases, fs), Later(fs), Reconciles(api, x, releases, fs));
  }

  lemma RunUpgrades(api: Api, inp: Inputs, y: State, fs: seq<Faults>, t: State)
    requires Runs(api, inp, y, fs, t) && RunPremises(inp, y, fs) && y.addon.hook == BEFORE_CLUSTER_UPGRADE
    ensures Faulty(fs) < |fs| ==> AtRest(inp.class_, t.addon)
    ensures AtRest(inp.class_, t.addon) ==> Upgraded(api, inp, y.addon, y.world, t.world)
  {
    if Faulty(fs) < |fs| {
      BoundedCompletion(api, inp, y, fs, Faulty(fs));
    }
    if RunHook(api, y, inp, fs).finished.Some? {
      UpgradeEndState(api, inp, y, fs);
    }
  }

  /** After two reconciles that proceed the record names the class, whatever happened and happens. */
  lemma NamesClassAfterTwo(api: Api, s: State, releases: string -> Inputs, target: string, fs: seq<Faults>)
    requires Upgrading(s.addon, releases, target)
    requires Lost(fs) < |fs| && Lost(Later(fs)) < |Later(fs)|
    ensures Reconciles(api, s, releases, fs).addon.clusterStack == target
  {
    if FirstGoesThrough(s.addon, releases, target, fs) {
      CompleteAtFirst(api, s, releases, target, fs);
    } else {
      FirstLeaves(api, s, releases, target, fs);
      FirstThenLater(api, s, releases, fs);
      SuspendedReruns(api, First(api, s, releases, fs), releases, target, Later(fs));
    }
  }

  // ---------------------------------------------------------------------------------------
  // Exactly which reconciles complete a run
  // ---------------------------------------------------------------------------------------

  /** The entries are those of the pending hook, or the next reconcile resets them. */
  ghost predicate Tracks(a: Addon, inp: Inputs) {
    Fresh(a) || Aligned(StagesOf(inp, a.hook), a.stages)
  }

  lemma UnfinishedTracks(api: Api, inp: Inputs, s: State, f: Faults)
    requires HookPath(s.addon, inp) && Distinct(StagesOf(inp, s.addon.hook)) && Tracks(s.addon, inp)
    requires Reconcile(api, s, inp, f).finished.None?
    ensures Tracks(Reconcile(api, s, inp, f).state.addon, inp)
  {
    UnfinishedStays(api, inp, s, f);
    InitShape(StagesOf(inp, s.addon.hook));
    var s1 := s.(addon := Prepared(s.addon, inp));
    PassAdvances(api, s1, StagesOf(inp, s1.addon.hook), ChartsOf(inp, s.addon.clusterStack != ""), f.stages, 0);
  }

  lemma {:induction false} RunTracks(api: Api, inp: Inputs, s: State, fs: seq<Faults>)
    requires HookPath(s.addon, inp) && Distinct(StagesOf(inp, s.addon.hook)) && Tracks(s.addon, inp)
    ensures var x := RunHook(api, s, inp, fs);
      x.finished.None? ==> SameRun(s.addon, x.state.addon) && Tracks(x.state.addon, inp)
    decreases |fs|
  {
    if fs != [] {
      var front, f := fs[..|fs| - 1], fs[|fs| - 1];
      RunTracks(api, inp, s, front);
      var x := RunHook(api, s, inp, front);
      if x.finished.None? && Reconcile(api, x.state, inp, f).finished.None? {
        UnfinishedStays(api, inp, x.state, f);
        UnfinishedTracks(api, inp, x.state, f);
      }
    }
  }

  /** The upgrade hook is pending, and its run goes through from the phases that it has reached. */
  ghost predicate PendingGoesThrough(a: Addon, inp: Inputs, f: Faults) {
    && a.hook == BEFORE_CLUSTER_UPGRADE && |Prepared(a, inp).stages| == |StagesOf(inp, a.hook)|
    && GoesThrough(inp, Prepared(a, inp), f, true)
  }

  /** In a run of the new release upon itself: if the pending hook goes through, and never after it has. */
  lemma RerunCompletesIff(api: Api, inp: Inputs, y: State, fs: seq<Faults>, t: State, f: Faults)
    requires HookPath(y.addon, inp) && Fresh(y.addon) && y.addon.hook == BEFORE_CLUSTER_UPGRADE
    requires y.addon.clusterStack != "" && Distinct(StagesOf(inp, BEFORE_CLUSTER_UPGRADE))
    requires Runs(api, inp, y, fs, t)
    ensures Reconcile(api, t, inp, f).finished.Some? <==> Proceeds(f) && PendingGoesThrough(t.addon, inp, f)
  {
    RunTracks(api, inp, y, fs);
    if RunHook(api, y, inp, fs).finished.Some? {
      FinishedRests(api, t, inp, f);
    } else {
      InitShape(StagesOf(inp, t.addon.hook));
      HookFinishesIff(api, inp, t, f);
    }
  }

  lemma SuspendedCompletesIff(api: Api, x: State, releases: string -> Inputs, target: string, fs: seq<Faults>,
                              f: Faults)
    requires OneTarget(releases, target) && Suspended(x.addon, releases(x.addon.clusterStack))
    requires Distinct(StagesOf(releases(target), BEFORE_CLUSTER_UPGRADE))
    ensures var now := Reconciles(api, x, releases, fs);
      var next := Reconcile(api, now, releases(now.addon.clusterStack), f);
      next.finished.Some? <==> Proceeds(f) && Lost(fs) < |fs| && PendingGoesThrough(now.addon, releases(target), f)
  {
    var now := Reconciles(api, x, releases, fs);
    if Lost(fs) == |fs| {
      assert fs[..|fs|] == fs;
      SuspendedWaits(api, x, releases, fs, |fs|);
      SuspendedStep(api, now, releases(now.addon.clusterStack), f);
    } else {
      SuspendedReruns(api, x, releases, target, fs);
      RerunCompletesIff(api, releases(target), First(api, x, releases, fs), Later(fs), now, f);
    }
  }

  /** The run of a next reconcile goes through, after `fs` and from the record `now`. */
  ghost predicate NextGoesThrough(a: Addon, releases: string -> Inputs, target: string, fs: seq<Faults>, now: Addon,
                                  f: Faults)
    requires Upgrading(a, releases, target)
  {
    var inp := releases(a.clusterStack);
    if Lost(fs) == |fs| then GoesThrough(inp, SameVersionStart(a, inp), f, true)
    else
      && !FirstGoesThrough(a, releases, target, fs) && Lost(Later(fs)) < |Later(fs)|
      && PendingGoesThrough(now, releases(target), f)
  }

  /**
   Exactly which reconciles complete a run.  The first that proceeds does if the run from the old release goes through;
   if it does, none after it; otherwise the second that proceeds does not, and any later one does if the pending hook of
   the new release goes through from the phases that have been reached.
   */
  lemma CompletesIff(api: Api, s: State, releases: string -> Inputs, target: string, fs: seq<Faults>, f: Faults)
    requires Upgrading(s.addon, releases, target) && Distinct(StagesOf(releases(target), BEFORE_CLUSTER_UPGRADE))
    ensures var now := Reconciles(api, s, releases, fs);
      var next := Reconcile(api, now, releases(now.addon.clusterStack), f);
      next.finished.Some? <==> Proceeds(f) && NextGoesThrough(s.addon, releases, target, fs, now.addon, f)
  {
    var now := Reconciles(api, s, releases, fs);
    if Lost(fs) == |fs| {
      assert fs[..|fs|] == fs;
      LostReconciles(api, s, releases, target, fs, |fs|);
      if Proceeds(f) {
        FirstDecides(api, now, releases(s.addon.clusterStack), f);
      } else {
        LostReconcile(api, now, releases(s.addon.clusterStack), f);
      }
    } else if FirstGoesThrough(s.addon, releases, target, fs) {
      CompleteAtFirst(api, s, releases, target, fs);
      FinishedRests(api, now, releases(target), f);
    } else {
      FirstLeaves(api, s, releases, target, fs);
      FirstThenLater(api, s, releases, fs);
      SuspendedCompletesIff(api, First(api, s, releases, fs), releases, target, Later(fs), f);
    }
  }

  // ---------------------------------------------------------------------------------------
  // What is lost for good
  // ---------------------------------------------------------------------------------------

  /** Once the record names the class, no reconcile touches a key that the new release spares. */
  lemma {:induction false} SparedStays(api: Api, s: State, releases: string -> Inputs, target: string, fs: seq<Faults>,
                                       x: Key)
    requires OneTarget(releases, target) && s.addon.clusterStack == target
    requires s.addon.hook == "" || s.addon.hook == BEFORE_CLUSTER_UPGRADE
    requires Spared(api, releases(target), BEFORE_CLUSTER_UPGRADE, true, x)
    ensures var t := Reconciles(api, s, releases, fs);
      && SameAt(s.world, t.world, x)
      && t.addon.clusterStack == target && (t.addon.hook == "" || t.addon.hook == BEFORE_CLUSTER_UPGRADE)
    decreases |fs|
  {
    if fs != [] {
      var before := Reconciles(api, s, releases, fs[..|fs| - 1]);
      SparedStays(api, s, releases, target, fs[..|fs| - 1], x);
      ReconcileTouches(api, before, releases(target), fs[|fs| - 1], x);
      ClassStays(api, before, releases(target), fs[|fs| - 1]);
    }
  }

  lemma SuspendedSpares(api: Api, s: State, releases: string -> Inputs, target: string, fs: seq<Faults>, x: Key)
    requires OneTarget(releases, target) && Suspended(s.addon, releases(s.addon.clusterStack))
    requires Spared(api, releases(target), BEFORE_CLUSTER_UPGRADE, true, x)
    ensures SameAt(s.world, Reconciles(api, s, releases, fs).world, x)
  {
    if Lost(fs) == |fs| {
      assert fs[..|fs|] == fs;
      SuspendedWaits(api, s, releases, fs, |fs|);
    } else {
      SuspendedIsMarked(api, s, releases, target, fs);
      FirstThenLater(api, s, releases, fs);
      SparedStays(api, First(api, s, releases, fs), releases, target, Later(fs), x);
    }
  }

  /** Whatever the new release spares, no reconcile touches after the first that proceeds, finished or not. */
  lemma LeftForGood(api: Api, s: State, releases: string -> Inputs, target: string, fs: seq<Faults>, x: Key)
    requires Upgrading(s.addon, releases, target) && Lost(fs) < |fs|
    requires Spared(api, releases(target), BEFORE_CLUSTER_UPGRADE, true, x)
    ensures SameAt(First(api, s, releases, fs).world, Reconciles(api, s, releases, fs).world, x)
  {
    if FirstGoesThrough(s.addon, releases, target, fs) {
      CompleteAtFirst(api, s, releases, target, fs);
    } else {
      FirstLeaves(api, s, releases, target, fs);
      FirstThenLater(api, s, releases, fs);
      SuspendedSpares(api, First(api, s, releases, fs), releases, target, Later(fs), x);
    }
  }

  /** This reconcile attempts the run from the old release, recorded or not, and its clean-up deletes the key. */
  ghost predicate Deletes(api: Api, a: Addon, inp: Inputs, f: Faults, x: Key)
    requires CanStart(a, inp)
  {
    Arrives(a, f) && CleansKey(api, inp, SameVersionStart(a, inp), f, x)
  }

  /** One of the first `n` reconciles does. */
  ghost predicate Deleted(api: Api, a: Addon, inp: Inputs, fs: seq<Faults>, n: nat, x: Key)
    requires CanStart(a, inp) && n <= |fs|
  {
    exists k | 0 <= k < n :: Deletes(api, a, inp, fs[k], x)
  }

  lemma DeletedNext(api: Api, a: Addon, inp: Inputs, fs: seq<Faults>, n: nat, x: Key)
    requires CanStart(a, inp) && 0 < n <= |fs|
    ensures Deleted(api, a, inp, fs, n, x) <==> Deleted(api, a, inp, fs, n - 1, x) || Deletes(api, a, inp, fs[n - 1], x)
  {
  }

  /** No stage of the upgrade can touch the key. */
  ghost predicate NoStageTouches(api: Api, inp: Inputs, x: Key) {
    var stages := StagesOf(inp, BEFORE_CLUSTER_UPGRADE);
    forall j | 0 <= j < |stages| :: x !in StageEffect(api, ChartsOf(inp, true), stages[j]).touched
  }

  lemma AttemptKeepsIff(api: Api, s: State, inp: Inputs, f: Faults, x: Key)
    requires CanStart(s.addon, inp) && NoStageTouches(api, inp, x)
    ensures x in Reconcile(api, s, inp, f).state.world <==> x in s.world && !Deletes(api, s.addon, inp, f, x)
  {
    HookRunKeepsIff(api, s.(addon := SameVersionStart(s.addon, inp)), inp, f, x);
  }

  lemma {:induction false} AttemptsKeepIff(api: Api, s: State, releases: string -> Inputs, target: string,
                                           fs: seq<Faults>, n: nat, x: Key)
    requires Upgrading(s.addon, releases, target) && n <= |fs| && n <= Lost(fs) + 1
    requires NoStageTouches(api, releases(s.addon.clusterStack), x)
    ensures x in Reconciles(api, s, releases, fs[..n]).world
      <==> x in s.world && !Deleted(api, s.addon, releases(s.addon.clusterStack), fs, n, x)
  {
    if n > 0 {
      DeletedNext(api, s.addon, releases(s.addon.clusterStack), fs, n, x);
      AttemptsKeepIff(api, s, releases, target, fs, n - 1, x);
      var before := LostNext(api, s, releases, target, fs, n - 1);
      AttemptKeepsIff(api, before, releases(s.addon.clusterStack), fs[n - 1], x);
    }
  }

  /**
   Exactly which old objects stay, of those that only the clean-up of the upgrade deletes and that the new release
   spares: after any number of reconciles an object is there if and only if it was there before and no clean-up up to
   that of the first proceeding reconcile has deleted it.  A completed run of the new release does not make up for it.
   */
  lemma OldOnlyStaysIff(api: Api, s: State, releases: string -> Inputs, target: string, fs: seq<Faults>, x: Key)
    requires Upgrading(s.addon, releases, target) && Lost(fs) < |fs|
    requires NoStageTouches(api, releases(s.addon.clusterStack), x)
    requires Spared(api, releases(target), BEFORE_CLUSTER_UPGRADE, true, x)
    ensures var inp := releases(s.addon.clusterStack);
      x in Reconciles(api, s, releases, fs).world
      <==> x in s.world && !Deleted(api, s.addon, inp, fs, Lost(fs) + 1, x)
  {
    AttemptsKeepIff(api, s, releases, target, fs, Lost(fs) + 1, x);
    LeftForGood(api, s, releases, target, fs, x);
  }

  /** If the first run goes through, its clean-up deletes all that the old list has and the new one lacks. */
  lemma ThroughDeletes(api: Api, a: Addon, inp: Inputs, f: Faults, x: Key)
    requires CanStart(a, inp) && Proceeds(f) && GoesThrough(inp, SameVersionStart(a, inp), f, true)
    requires x in CleanEffect(api, OldList(inp, a.annotation), NewList(inp, BEFORE_CLUSTER_UPGRADE)).touched
    ensures Deletes(api, a, inp, f, x)
  {
    var extra := Extra(OldList(inp, a.annotation), set r | r in NewList(inp, BEFORE_CLUSTER_UPGRADE));
    var r :| r in extra && api.CleanKey(r) == x;
    var i: nat :| i < |extra| && extra[i] == r;
    assert Took(f.clean, i);
  }
}
