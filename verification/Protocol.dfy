/**
 The upgrade protocol between the reconciler, the hook server and Cluster API: any interleaving of
 reconciles, hook calls, operator restarts and class changes, with any failures in between.
 */
module Protocol {
  import opened Results
  import opened Kube
  import opened Stages
  import opened Reconciling

  // ---------------------------------------------------------------------------------------
  // Invariant of the record
  // ---------------------------------------------------------------------------------------

  /** "Applied" is only ever claimed by a ready record without a pending hook. */
  predicate RecordInv(a: Addon) {
    && (a.helm == True ==> a.ready && a.hook == "")
    && a.hook in {"", BEFORE_CLUSTER_UPGRADE, AFTER_CONTROL_PLANE_INITIALIZED}
  }

  /** The stage loop changes phases, the condition (never to True) and the tracked resources only. */
  predicate StageFrame(a: Addon, b: Addon) {
    && b == a.(stages := b.stages, helm := b.helm, resources := b.resources)
    && |b.stages| == |a.stages|
    && (b.helm == True ==> a.helm == True)
  }

  lemma {:induction false} CheckFrame(api: Api, s: State, stage: Stage, charts: Charts, f: StageFaults)
    ensures StageFrame(s.addon, Check(api, s, stage, charts, f).state.addon)
    decreases 5 - Rank(GetPhase(s.addon.stages, stage.key))
  {
    var r := OneRound(api, s, stage, charts, f);
    assert StageFrame(s.addon, r.state.addon);
    if r.again {
      JumpRaisesRank(api, s, stage, charts, f);
      CheckFrame(api, r.state, stage, charts, f);
    }
  }

  lemma {:induction false} RunStagesFrame(api: Api, s: State, stages: seq<Stage>, charts: Charts,
      f: nat -> StageFaults, i: nat)
    requires i <= |stages|
    ensures StageFrame(s.addon, RunStages(api, s, stages, charts, f, i).state.addon)
    decreases |stages| - i
  {
    if i < |stages| {
      if f(i).chartFound {
        CheckFrame(api, s, stages[i], charts, f(i));
      }
      var r := ExecuteStage(api, s, stages[i], charts, f(i));
      if r.outcome == Continue {
        RunStagesFrame(api, r.state, stages, charts, f, i + 1);
      }
    }
  }

  /** Every exit of a hook run that starts unready. */
  lemma HookRunFacts(api: Api, s: State, inp: Inputs, f: Faults, hasOld: bool)
    requires !s.addon.ready && s.addon.helm != True
    requires s.addon.hook in {BEFORE_CLUSTER_UPGRADE, AFTER_CONTROL_PLANE_INITIALIZED}
    ensures var x := HookRun(api, s, inp, f, hasOld);
      && RecordInv(x.state.addon)
      && (x.finished.Some? <==> x.state.addon.helm == True)
      && (x.finished.Some? ==> x.finished == Some(HookStages(s.addon.hook)) && x.state.addon.clusterStack == inp.class_)
      && (x.finished.None? ==> x.state.addon.hook == s.addon.hook && !x.state.addon.ready)
  {
    RunStagesFrame(api, s, StagesOf(inp, s.addon.hook), ChartsOf(inp, hasOld), f.stages, 0);
  }

  /** What an exit of a reconcile may do to the record, given what it completed. */
  predicate GoodExit(a: Addon, x: Exit, class_: string) {
    var b := x.state.addon;
    && RecordInv(b)
    && (!a.ready && b.ready ==> b.clusterStack == class_)
    && (x.finished.Some? ==> b.helm == True && b.clusterStack == class_)
    && (a.helm != True && b.helm == True ==> x.finished.Some?)
    && (x.finished == Some(HookStages(AFTER_CONTROL_PLANE_INITIALIZED)) ==> a.hook == AFTER_CONTROL_PLANE_INITIALIZED)
    && (b.hook == AFTER_CONTROL_PLANE_INITIALIZED ==> a.hook == AFTER_CONTROL_PLANE_INITIALIZED)
  }

  lemma UpgradeExit(a: Addon, r: Executed, inp: Inputs)
    requires RecordInv(a) && r.state.addon == a.(ready := false, resources := r.state.addon.resources)
    ensures GoodExit(a, AfterUpgrade(r, inp), inp.class_)
  {
  }

  lemma RetryExit(a: Addon, r: Executed, inp: Inputs)
    requires RecordInv(a) && a.helm == False && a.clusterStack == inp.class_
    requires r.state.addon == a.(resources := r.state.addon.resources)
    ensures GoodExit(a, AfterRetry(r, inp), inp.class_)
  {
  }

  lemma SingleStageExit(api: Api, s: State, inp: Inputs, f: Faults)
    requires RecordInv(s.addon)
    ensures GoodExit(s.addon, SingleStage(api, s, inp, f), inp.class_)
  {
    var a := s.addon;
    if a.clusterStack != inp.class_ && a.version != inp.addonVersion {
      UpgradeExit(a, ApplyWhole(api, s.(addon := a.(ready := false)), inp, f), inp);
    } else if a.clusterStack == inp.class_ && a.helm == False {
      RetryExit(a, ApplyWhole(api, s, inp, f), inp);
    }
  }

  lemma MultiStageExit(api: Api, s: State, inp: Inputs, f: Faults)
    requires RecordInv(s.addon)
    ensures GoodExit(s.addon, MultiStage(api, s, inp, f), inp.class_)
  {
    if f.inputsOk && (s.addon.clusterStack != "" ==> f.download == OldReady) {
      var hasOld := s.addon.clusterStack != "";
      var a := Prepared(s.addon, inp);
      assert a.helm == True ==> a.ready && a.hook == "";
      if !a.ready {
        if SameKubernetes(inp, hasOld) {
          HookRunFacts(api, s.(addon := a.(hook := BEFORE_CLUSTER_UPGRADE)), inp, f, hasOld);
        } else if a.hook != "" {
          HookRunFacts(api, s.(addon := a), inp, f, hasOld);
        }
      }
    }
  }

  /**
   Every exit of a reconcile keeps the invariant; only a completed run claims "applied"; a record
   that turns ready names the cluster's class.
   */
  lemma ReconcileFacts(api: Api, s: State, inp: Inputs, f: Faults)
    requires RecordInv(s.addon)
    ensures var x := Reconcile(api, s, inp, f);
      && RecordInv(x.state.addon)
      && (!s.addon.ready && x.state.addon.ready ==> x.state.addon.clusterStack == inp.class_)
      && (x.finished.Some? ==> x.state.addon.helm == True && x.state.addon.clusterStack == inp.class_)
      && (s.addon.helm != True && x.state.addon.helm == True ==> x.finished.Some?)
      && (x.finished == Some(HookStages(AFTER_CONTROL_PLANE_INITIALIZED)) ==>
            s.addon.hook == AFTER_CONTROL_PLANE_INITIALIZED)
      && (x.state.addon.hook == AFTER_CONTROL_PLANE_INITIALIZED ==> s.addon.hook == AFTER_CONTROL_PLANE_INITIALIZED)
  {
    SingleStageExit(api, s, inp, f);
    MultiStageExit(api, s, inp, f);
    assert GoodExit(s.addon, Reconcile(api, s, inp, f), inp.class_);
  }

  // ---------------------------------------------------------------------------------------
  // The whole system
  // ---------------------------------------------------------------------------------------

  /** What the outside observes, in order. */
  datatype Mark =
    | Patched(class_: string, persisted: bool, claimed: bool) // for this class; the record claimed "applied" or not
    | InitPatched                             // the other hook was set
    | ClassSet(class_: string)
    | Finished(run: Run, class_: string)      // a reconcile completed a run
    | Withdrawn                               // a reconcile completed none and took the claim "applied" back
    | Released(class_: string)                // Success without RetryAfterSeconds, while the cluster names this class

  /** One cluster, its addon record, the hook server's in-memory record, and the history. */
  datatype System = System(state: State, class_: string, record: map<string, string>, history: seq<Mark>)

  datatype Step =
    | UpgradeHook(found: bool, persisted: bool)
    | InitHook(found: bool, persisted: bool)
    | Restart
    | SetClass(class_: string)
    | DoReconcile(inp: Inputs, f: Faults)

  /** The key the hook server records: name/namespace/class. */
  function RecordKey(name: string, ns: string, class_: string): string {
    name + "/" + ns + "/" + class_
  }

  /** What stands before the first slash tells the rest. */
  lemma SlashSplits(a: string, x: string, b: string, y: string)
    requires '/' !in a && '/' !in b && a + "/" + x == b + "/" + y
    ensures a == b && x == y
  {
    var s := a + "/" + x;
    assert s[|a|] == '/' && s[|b|] == '/';
    assert forall j :: 0 <= j < |a| ==> s[j] == a[j] && a[j] in a;
    assert forall j :: 0 <= j < |b| ==> s[j] == b[j] && b[j] in b;
    assert s[..|a|] == a && s[..|b|] == b && s[|a| + 1..] == x && s[|b| + 1..] == y;
  }

  /** The key tells clusters and classes apart: names and namespaces contain no slash. */
  lemma KeysTellApart(name: string, ns: string, k: string, name2: string, ns2: string, k2: string)
    requires '/' !in name && '/' !in ns && '/' !in name2 && '/' !in ns2
    requires RecordKey(name, ns, k) == RecordKey(name2, ns2, k2)
    ensures name == name2 && ns == ns2 && k == k2
  {
    assert RecordKey(name, ns, k) == name + "/" + (ns + "/" + k);
    assert RecordKey(name2, ns2, k2) == name2 + "/" + (ns2 + "/" + k2);
    SlashSplits(name, ns + "/" + k, name2, ns2 + "/" + k2);
    SlashSplits(ns, k, ns2, k2);
  }

  /** The keys of one cluster tell classes apart, whatever it is called. */
  lemma KeysTellClasses(c: Cluster)
    ensures forall k, l :: c.KeyFor(k) == c.KeyFor(l) ==> k == l
  {
    forall k, l | c.KeyFor(k) == c.KeyFor(l) ensures k == l {
      var front := c.name + "/" + c.ns + "/";
      assert c.KeyFor(k)[|front|..] == k && c.KeyFor(l)[|front|..] == l;
    }
  }

  datatype Cluster = Cluster(name: string, ns: string, api: Api) {
    function KeyFor(class_: string): string {
      RecordKey(name, ns, class_)
    }
  }

  /** DoBeforeClusterUpgrade: the record to persist, whether it patched, whether it releases the upgrade. */
  function BeforeUpgrade(a: Addon, recorded: bool): (Addon, bool, bool) {
    var patches := a.hook != BEFORE_CLUSTER_UPGRADE && !recorded;
    var b := if patches then a.(hook := BEFORE_CLUSTER_UPGRADE, helm := Absent) else a;
    (b, patches, b.helm == True)
  }

  function AfterInitialized(a: Addon): Addon {
    if a.hook != AFTER_CONTROL_PLANE_INITIALIZED then a.(hook := AFTER_CONTROL_PLANE_INITIALIZED, helm := Absent) else a
  }

  function WithAddon(s: State, a: Addon): State {
    s.(addon := a)
  }

  /** What a reconcile shows: a completed run, or that the record no longer claims "applied". */
  function ReconcileMarks(a: Addon, x: Exit, class_: string): seq<Mark> {
    if x.finished.Some? then [Finished(x.finished.value, class_)]
    else if a.helm == True && x.state.addon.helm != True then [Withdrawn]
    else []
  }

  /** The hook server has recorded its patch for the present class. */
  predicate HookRecorded(c: Cluster, sys: System) {
    var key := c.KeyFor(sys.class_);
    key in sys.record && sys.record[key] == BEFORE_CLUSTER_UPGRADE
  }

  function Next(c: Cluster, sys: System, step: Step): System {
    var a := sys.state.addon;
    match step
    case UpgradeHook(found, persisted) =>
      if !found then sys
      else
        var key := c.KeyFor(sys.class_);
        var (b, patches, released) := BeforeUpgrade(a, HookRecorded(c, sys));
        System(
          WithAddon(sys.state, if patches && !persisted then a else b),
          sys.class_,
          if patches then sys.record[key := BEFORE_CLUSTER_UPGRADE] else sys.record,
          sys.history
            + (if patches then [Patched(sys.class_, persisted, a.helm == True)] else [])
            + (if released then [Released(sys.class_)] else []))
    case InitHook(found, persisted) =>
      if !found || !persisted then sys
      else sys.(state := WithAddon(sys.state, AfterInitialized(a)), history := sys.history + [InitPatched])
    case Restart => sys.(record := map[])
    case SetClass(k) => sys.(class_ := k, history := sys.history + [ClassSet(k)])
    case DoReconcile(inp, f) =>
      if inp.class_ != sys.class_ then sys
      else
        var x := Reconcile(c.api, sys.state, inp, f);
        sys.(state := x.state, history := sys.history + ReconcileMarks(a, x, sys.class_))
  }

  function After(c: Cluster, sys: System, steps: seq<Step>): System
    decreases |steps|
  {
    if steps == [] then sys else Next(c, After(c, sys, steps[..|steps| - 1]), steps[|steps| - 1])
  }

  /** A new record, before anything ran. */
  predicate Initial(sys: System) {
    && RecordInv(sys.state.addon) && sys.state.addon.helm != True
    && sys.record == map[] && sys.history == []
  }

  // ---------------------------------------------------------------------------------------
  // Blocking-hook safety
  // ---------------------------------------------------------------------------------------

  /** The run finished at `q` is the upgrade that the patch at `p` asked for. */
  predicate Fulfils(h: seq<Mark>, p: nat, q: nat)
    requires p < q < |h| && h[p].Patched?
  {
    && h[q].Finished?
    && ((forall i :: p < i < q ==> !h[i].ClassSet?) ==> h[q].class_ == h[p].class_)
    && ((forall i :: p < i < q ==> !h[i].InitPatched?) ==> h[q].run != HookStages(AFTER_CONTROL_PLANE_INITIALIZED))
  }

  ghost predicate FulfilledSince(h: seq<Mark>, p: nat)
    requires p < |h| && h[p].Patched?
  {
    exists q: nat :: p < q < |h| && Fulfils(h, p, q)
  }

  /** The patch at `p` is the last one, and no run has been completed since. */
  ghost predicate Unanswered(h: seq<Mark>, p: nat)
    requires p < |h|
  {
    h[p].Patched? && forall i :: p < i < |h| ==> !h[i].Patched? && !h[i].Finished?
  }

  /** The patch at `p` failed on a record that claimed "applied", and nothing has taken the claim back since. */
  ghost predicate ClaimStands(h: seq<Mark>, p: nat)
    requires p < |h| && h[p].Patched?
  {
    && !h[p].persisted && h[p].claimed
    && forall i :: p < i < |h| ==> !h[i].InitPatched? && !h[i].Withdrawn?
  }

  ghost predicate ClassPatched(h: seq<Mark>, class_: string) {
    exists p: nat :: p < |h| && h[p].Patched? && h[p].class_ == class_
  }

  /** Every persisted patch was followed by its run. */
  ghost predicate AllFulfilled(h: seq<Mark>) {
    forall p: nat :: p < |h| && h[p].Patched? && h[p].persisted ==> FulfilledSince(h, p)
  }

  /** The last patch was followed by a run, unless it failed on a claim that still stands. */
  ghost predicate LastAnswered(h: seq<Mark>) {
    forall p: nat :: p < |h| && Unanswered(h, p) ==> ClaimStands(h, p)
  }

  /** What holds of the history before a release at `t`. */
  ghost predicate Justified(h: seq<Mark>, t: nat)
    requires t < |h| && h[t].Released?
  {
    ClassPatched(h[..t], h[t].class_) && AllFulfilled(h[..t]) && LastAnswered(h[..t])
  }

  ghost predicate KeyPatched(c: Cluster, h: seq<Mark>, from: nat, key: string) {
    exists p: nat :: from <= p < |h| && h[p].Patched? && c.KeyFor(h[p].class_) == key
  }

  /** Every recorded key was patched, at `from` or later. */
  ghost predicate KeysPatched(c: Cluster, h: seq<Mark>, from: nat, record: map<string, string>) {
    forall k :: k in record && record[k] == BEFORE_CLUSTER_UPGRADE ==> KeyPatched(c, h, from, k)
  }

  /** While the class stays, a patch is for the present class. */
  ghost predicate ClassTracked(h: seq<Mark>, class_: string) {
    forall p: nat :: p < |h| && h[p].Patched? && (forall i :: p < i < |h| ==> !h[i].ClassSet?) ==>
      h[p].class_ == class_
  }

  /** Since the patch at `p` nothing has claimed "applied". */
  ghost predicate Awaiting(h: seq<Mark>, a: Addon, p: nat) {
    && a.helm != True
    && ((forall i :: p < i < |h| ==> !h[i].InitPatched?) ==> a.hook != AFTER_CONTROL_PLANE_INITIALIZED)
  }

  ghost predicate PatchesAnswered(h: seq<Mark>, a: Addon) {
    forall p: nat :: p < |h| && h[p].Patched? && h[p].persisted ==> FulfilledSince(h, p) || Awaiting(h, a, p)
  }

  /** Without a run since the last patch the record claims "applied" exactly if a failed patch left the claim. */
  ghost predicate ClaimTracked(h: seq<Mark>, a: Addon) {
    forall p: nat :: p < |h| && Unanswered(h, p) ==> (a.helm == True <==> ClaimStands(h, p))
  }

  ghost predicate ReleasesJustified(h: seq<Mark>) {
    forall t: nat :: t < |h| && h[t].Released? ==> Justified(h, t)
  }

  ghost predicate SystemInv(c: Cluster, sys: System) {
    && RecordInv(sys.state.addon)
    && KeysPatched(c, sys.history, 0, sys.record)
    && ClassTracked(sys.history, sys.class_)
    && PatchesAnswered(sys.history, sys.state.addon)
    && ClaimTracked(sys.history, sys.state.addon)
    && ReleasesJustified(sys.history)
  }

  lemma FulfilledMore(h: seq<Mark>, m: Mark, p: nat)
    requires p < |h| && h[p].Patched? && FulfilledSince(h, p)
    ensures FulfilledSince(h + [m], p)
  {
    var q: nat :| p < q < |h| && Fulfils(h, p, q);
    var g := h + [m];
    assert forall i :: p < i < q ==> h[i] == g[i];
    assert Fulfils(g, p, q);
  }

  lemma KeysPatchedMore(c: Cluster, h: seq<Mark>, from: nat, m: Mark, record: map<string, string>)
    requires KeysPatched(c, h, from, record) && from <= |h|
    ensures KeysPatched(c, h + [m], from, record)
    ensures m.Patched? ==> KeysPatched(c, h + [m], from, record[c.KeyFor(m.class_) := BEFORE_CLUSTER_UPGRADE])
  {
    forall k | k in record && record[k] == BEFORE_CLUSTER_UPGRADE ensures KeyPatched(c, h + [m], from, k) {
      var p: nat :| from <= p < |h| && h[p].Patched? && c.KeyFor(h[p].class_) == k;
      assert (h + [m])[p] == h[p];
    }
    if m.Patched? {
      assert (h + [m])[|h|] == m;
    }
  }

  lemma ClassTrackedMore(h: seq<Mark>, m: Mark, class_: string)
    requires ClassTracked(h, class_)
    requires m.Patched? ==> m.class_ == class_
    ensures ClassTracked(h + [m], class_)
    ensures m.ClassSet? ==> ClassTracked(h + [m], m.class_)
  {
    var g := h + [m];
    forall p: nat | p < |g| && g[p].Patched? && (forall i :: p < i < |g| ==> !g[i].ClassSet?)
      ensures g[p].class_ == class_ && !m.ClassSet?
    {
      assert g[|h|] == m;
      if p < |h| {
        forall i | p < i < |h| ensures !h[i].ClassSet? {
          assert g[i] == h[i];
        }
      }
    }
  }

  /** A mark that is no release, with the record as it is then. */
  lemma AnsweredMore(h: seq<Mark>, m: Mark, a: Addon, b: Addon)
    requires PatchesAnswered(h, a)
    requires forall p: nat :: p < |h| && h[p].Patched? && h[p].persisted && Awaiting(h, a, p) ==>
      FulfilledSince(h + [m], p) || Awaiting(h + [m], b, p)
    requires m.Patched? && m.persisted ==> Awaiting(h + [m], b, |h|)
    ensures PatchesAnswered(h + [m], b)
  {
    var g := h + [m];
    forall p: nat | p < |g| && g[p].Patched? && g[p].persisted
      ensures FulfilledSince(g, p) || Awaiting(g, b, p)
    {
      if p < |h| {
        assert g[p] == h[p];
        if FulfilledSince(h, p) {
          FulfilledMore(h, m, p);
        }
      }
    }
  }

  /** A mark, with the record before and after it. */
  lemma ClaimMore(h: seq<Mark>, m: Mark, a: Addon, b: Addon)
    requires ClaimTracked(h, a)
    requires match m
      case Patched(_, persisted, claimed) => b.helm == True <==> !persisted && claimed
      case Finished(_, _) => true
      case InitPatched => b.helm != True
      case Withdrawn => b.helm != True
      case _ => b.helm == True <==> a.helm == True
    ensures ClaimTracked(h + [m], b)
  {
    var g := h + [m];
    forall p: nat | p < |g| && Unanswered(g, p) ensures b.helm == True <==> ClaimStands(g, p) {
      assert g[|h|] == m;
      if p < |h| {
        assert forall i :: p <= i < |h| ==> g[i] == h[i];
        assert Unanswered(h, p);
        assert ClaimStands(g, p) <==> ClaimStands(h, p) && !m.InitPatched? && !m.Withdrawn?;
      }
    }
  }

  lemma JustifiedMore(h: seq<Mark>, m: Mark)
    requires ReleasesJustified(h)
    requires m.Released? ==> Justified(h + [m], |h|)
    ensures ReleasesJustified(h + [m])
  {
    var g := h + [m];
    forall t: nat | t < |g| && g[t].Released? ensures Justified(g, t) {
      if t < |h| {
        assert g[t] == h[t] && Justified(h, t);
        assert g[..t] == h[..t];
      }
    }
  }

  lemma HookCallKeepsInv(c: Cluster, sys: System, found: bool, persisted: bool)
    requires SystemInv(c, sys)
    ensures SystemInv(c, Next(c, sys, UpgradeHook(found, persisted)))
  {
    var h, a := sys.history, sys.state.addon;
    var key := c.KeyFor(sys.class_);
    var (b, patches, released) := BeforeUpgrade(a, HookRecorded(c, sys));
    if found && patches {
      var m := Patched(sys.class_, persisted, a.helm == True);
      var after := if persisted then b else a;
      KeysPatchedMore(c, h, 0, m, sys.record);
      ClassTrackedMore(h, m, sys.class_);
      JustifiedMore(h, m);
      forall p: nat | p < |h| && h[p].Patched? && h[p].persisted && Awaiting(h, a, p)
        ensures Awaiting(h + [m], after, p)
      {
        if forall i :: p < i < |h + [m]| ==> !(h + [m])[i].InitPatched? {
          forall i | p < i < |h| ensures !h[i].InitPatched? {
            assert (h + [m])[i] == h[i];
          }
        }
      }
      AnsweredMore(h, m, a, after);
      ClaimMore(h, m, a, after);
      assert Next(c, sys, UpgradeHook(found, persisted)).history == h + [m];
    } else if found && released {
      var m := Released(sys.class_);
      KeysPatchedMore(c, h, 0, m, sys.record);
      ClassTrackedMore(h, m, sys.class_);
      AnsweredMore(h, m, a, a);
      ClaimMore(h, m, a, a);
      assert KeyPatched(c, h, 0, key);
      KeysTellClasses(c);
      assert ClassPatched(h, sys.class_) && AllFulfilled(h) && LastAnswered(h);
      assert (h + [m])[..|h|] == h;
      JustifiedMore(h, m);
      assert Next(c, sys, UpgradeHook(found, persisted)).history == h + [m];
    } else if found {
      assert Next(c, sys, UpgradeHook(found, persisted)).history == h;
    }
  }

  lemma ReconcileKeepsInv(c: Cluster, sys: System, inp: Inputs, f: Faults)
    requires SystemInv(c, sys)
    ensures SystemInv(c, Next(c, sys, DoReconcile(inp, f)))
  {
    var h, a := sys.history, sys.state.addon;
    if inp.class_ == sys.class_ {
      ReconcileFacts(c.api, sys.state, inp, f);
      var x := Reconcile(c.api, sys.state, inp, f);
      if x.finished.Some? {
        var m := Finished(x.finished.value, sys.class_);
        KeysPatchedMore(c, h, 0, m, sys.record);
        ClassTrackedMore(h, m, sys.class_);
        JustifiedMore(h, m);
        forall p: nat | p < |h| && h[p].Patched? && h[p].persisted && Awaiting(h, a, p)
          ensures FulfilledSince(h + [m], p)
        {
          var g := h + [m];
          assert Fulfils(g, p, |h|) by {
            assert forall i :: p < i < |h| ==> g[i] == h[i];
          }
        }
        AnsweredMore(h, m, a, x.state.addon);
        ClaimMore(h, m, a, x.state.addon);
      } else if a.helm == True && x.state.addon.helm != True {
        WithdrawnKeepsInv(c, sys, x.state.addon);
      } else {
        assert h + [] == h;
      }
    }
  }

  /** A reconcile that takes the claim back. */
  lemma WithdrawnKeepsInv(c: Cluster, sys: System, b: Addon)
    requires SystemInv(c, sys) && sys.state.addon.helm == True && b.helm != True
    ensures var g := sys.history + [Withdrawn];
      && KeysPatched(c, g, 0, sys.record) && ClassTracked(g, sys.class_) && PatchesAnswered(g, b)
      && ClaimTracked(g, b) && ReleasesJustified(g)
  {
    var h, a, m := sys.history, sys.state.addon, Withdrawn;
    KeysPatchedMore(c, h, 0, m, sys.record);
    ClassTrackedMore(h, m, sys.class_);
    JustifiedMore(h, m);
    AnsweredMore(h, m, a, b);
    ClaimMore(h, m, a, b);
  }

  lemma StepKeepsInv(c: Cluster, sys: System, step: Step)
    requires SystemInv(c, sys)
    ensures SystemInv(c, Next(c, sys, step))
  {
    var h, a := sys.history, sys.state.addon;
    match step
    case UpgradeHook(found, persisted) => HookCallKeepsInv(c, sys, found, persisted);
    case DoReconcile(inp, f) => ReconcileKeepsInv(c, sys, inp, f);
    case Restart =>
    case SetClass(k) =>
      var m := ClassSet(k);
      KeysPatchedMore(c, h, 0, m, sys.record);
      ClassTrackedMore(h, m, sys.class_);
      JustifiedMore(h, m);
      StillAwaiting(h, m, a);
      AnsweredMore(h, m, a, a);
      ClaimMore(h, m, a, a);
    case InitHook(found, persisted) =>
      if found && persisted {
        var m := InitPatched;
        KeysPatchedMore(c, h, 0, m, sys.record);
        ClassTrackedMore(h, m, sys.class_);
        JustifiedMore(h, m);
        assert (h + [m])[|h|] == m;
        AnsweredMore(h, m, a, AfterInitialized(a));
        ClaimMore(h, m, a, AfterInitialized(a));
      }
  }

  lemma StillAwaiting(h: seq<Mark>, m: Mark, a: Addon)
    requires !m.InitPatched?
    ensures forall p: nat :: p < |h| && Awaiting(h, a, p) ==> Awaiting(h + [m], a, p)
  {
    forall p: nat | p < |h| && Awaiting(h, a, p) ensures Awaiting(h + [m], a, p) {
      if forall i :: p < i < |h + [m]| ==> !(h + [m])[i].InitPatched? {
        forall i | p < i < |h| ensures !h[i].InitPatched? {
          assert (h + [m])[i] == h[i];
        }
      }
    }
  }

  lemma {:induction false} RunKeepsInv(c: Cluster, sys: System, steps: seq<Step>)
    requires SystemInv(c, sys)
    ensures SystemInv(c, After(c, sys, steps))
    decreases |steps|
  {
    if steps != [] {
      RunKeepsInv(c, sys, steps[..|steps| - 1]);
      StepKeepsInv(c, After(c, sys, steps[..|steps| - 1]), steps[|steps| - 1]);
    }
  }

  /**
   Blocking-hook safety.  In every interleaving, at every release of the upgrade: its key was patched; every patch
   persisted before it was followed by a completed run, for the class that the patch names unless the class changed
   meanwhile, and not the run of the other hook unless that hook was set; and the last patch was followed by a run,
   unless it failed on a record that claimed "applied" and nothing took the claim back.
   */
  lemma BlockingHookSafety(c: Cluster, sys: System, steps: seq<Step>, t: nat)
    requires Initial(sys)
    requires var h := After(c, sys, steps).history; t < |h| && h[t].Released?
    ensures var h := After(c, sys, steps).history;
      && (exists p: nat :: p < t && h[p].Patched? && h[p].class_ == h[t].class_)
      && (forall p: nat :: p < t && h[p].Patched? && h[p].persisted ==> FulfilledSince(h[..t], p))
      && (forall p: nat :: p < t && Unanswered(h[..t], p) ==> ClaimStands(h[..t], p))
  {
    assert SystemInv(c, sys);
    RunKeepsInv(c, sys, steps);
    var h := After(c, sys, steps).history;
    assert Justified(h, t);
    assert ClassPatched(h[..t], h[t].class_) && AllFulfilled(h[..t]);
  }

  /**
   Exactly when a release lacks a run since the last patch.  In every reachable state without such a run, a call that
   finds its key recorded releases if and only if the patch failed, the record claimed "applied" when it failed, and
   neither the other hook nor a reconcile has taken the claim back.
   */
  lemma ReleaseWithoutRunIff(c: Cluster, sys: System, steps: seq<Step>, p: nat, persisted: bool)
    requires Initial(sys)
    requires var now := After(c, sys, steps);
      && p < |now.history| && Unanswered(now.history, p)
      && HookRecorded(c, now)
    ensures var now := After(c, sys, steps);
      var released := now.history + [Released(now.class_)];
      Next(c, now, UpgradeHook(true, persisted)).history == released <==> ClaimStands(now.history, p)
  {
    assert SystemInv(c, sys);
    RunKeepsInv(c, sys, steps);
  }

  lemma {:induction false} RecordedSince(c: Cluster, sys: System, steps: seq<Step>)
    requires sys.record == map[]
    ensures var now := After(c, sys, steps);
      |sys.history| <= |now.history| && KeysPatched(c, now.history, |sys.history|, now.record)
    decreases |steps|
  {
    if steps != [] {
      var before, step := After(c, sys, steps[..|steps| - 1]), steps[|steps| - 1];
      var h := before.history;
      RecordedSince(c, sys, steps[..|steps| - 1]);
      var now := Next(c, before, step);
      assert now.history == h || now.history == h + [now.history[|h|]];
      if now.history != h {
        KeysPatchedMore(c, h, |sys.history|, now.history[|h|], before.record);
      }
    }
  }

  /**
   A call for a class that was not patched since the operator last started does not release the upgrade of a record
   without pending upgrade hook, whatever was patched for other classes: it patches for this one.
   */
  lemma UnpatchedNeverReleases(c: Cluster, sys: System, steps: seq<Step>, persisted: bool)
    requires sys.record == map[]
    requires var now := After(c, sys, steps);
      && now.state.addon.hook != BEFORE_CLUSTER_UPGRADE
      && forall p | |sys.history| <= p < |now.history| ::
          now.history[p].Patched? ==> now.history[p].class_ != now.class_
    ensures var now := After(c, sys, steps);
      Next(c, now, UpgradeHook(true, persisted)).history
      == now.history + [Patched(now.class_, persisted, now.state.addon.helm == True)]
  {
    RecordedSince(c, sys, steps);
    KeysTellClasses(c);
  }

  /** In every reachable state "applied" implies ready without hook. */
  lemma RecordInvAlways(c: Cluster, sys: System, steps: seq<Step>)
    requires Initial(sys)
    ensures RecordInv(After(c, sys, steps).state.addon)
  {
    assert SystemInv(c, sys);
    RunKeepsInv(c, sys, steps);
  }

  /** Every step of every run that turns the record ready leaves it naming the cluster's class. */
  lemma ReadyNamesTheClass(c: Cluster, sys: System, steps: seq<Step>, step: Step)
    requires Initial(sys)
    ensures var before, after := After(c, sys, steps), Next(c, After(c, sys, steps), step);
      !before.state.addon.ready && after.state.addon.ready ==> after.state.addon.clusterStack == after.class_
  {
    RecordInvAlways(c, sys, steps);
    var before := After(c, sys, steps);
    if step.DoReconcile? && step.inp.class_ == before.class_ {
      ReconcileFacts(c.api, before.state, step.inp, step.f);
    }
  }

  /**
   The premise on the patch is needed: the hook is recorded even if its patch failed, and from a record
   that claims "applied" for the release before, the next call releases the upgrade without any run.
   */
  lemma FailedPatchReleases(c: Cluster, sys: System)
    requires sys.state.addon.helm == True && sys.state.addon.hook == "" && c.KeyFor(sys.class_) !in sys.record
    ensures After(c, sys, [UpgradeHook(true, false), UpgradeHook(true, true)]).history
      == sys.history + [Patched(sys.class_, false, true), Released(sys.class_)]
  {
    var one, two := UpgradeHook(true, false), UpgradeHook(true, true);
    assert [one, two][..1] == [one] && [one][..0] == [];
    assert After(c, sys, []) == sys;
    assert After(c, sys, [one]) == Next(c, sys, one);
  }

  /**
   The call before an upgrade patches exactly if the hook is not pending and its key is not recorded; then it records
   the key, also if the patch fails, and never releases; otherwise it releases exactly if the condition is true.
   */
  lemma UpgradeHookSets(c: Cluster, sys: System, found: bool, persisted: bool)
    ensures var next, a := Next(c, sys, UpgradeHook(found, persisted)), sys.state.addon;
      var key := c.name + "/" + c.ns + "/" + sys.class_;
      var patches := found && a.hook != "BeforeClusterUpgrade"
          && !(key in sys.record && sys.record[key] == "BeforeClusterUpgrade");
      && next.class_ == sys.class_ && next.state.world == sys.state.world && next.state.log == sys.state.log
      && next.state.addon
        == (if patches && persisted then a.(hook := "BeforeClusterUpgrade", helm := Absent) else a)
      && next.record == (if patches then sys.record[key := "BeforeClusterUpgrade"] else sys.record)
      && next.history
        == sys.history + (if patches then [Patched(sys.class_, persisted, a.helm == True)]
                          else if found && a.helm == True then [Released(sys.class_)] else [])
  {
  }

  /** A reconcile of the present class steps the record and the cluster; it shows every run that it completes. */
  lemma ReconcileShows(c: Cluster, sys: System, inp: Inputs, f: Faults)
    ensures var next, x := Next(c, sys, DoReconcile(inp, f)), Reconcile(c.api, sys.state, inp, f);
      && next.class_ == sys.class_ && next.record == sys.record
      && next.state == (if inp.class_ == sys.class_ then x.state else sys.state)
      && (inp.class_ == sys.class_ && x.finished.Some? ==>
            next.history == sys.history + [Finished(x.finished.value, sys.class_)])
      && (inp.class_ != sys.class_ || x.finished.None? ==>
            next.history == sys.history || next.history == sys.history + [Withdrawn])
      && (next.history == sys.history + [Withdrawn] <==>
            inp.class_ == sys.class_ && x.finished.None?
            && sys.state.addon.helm == True && x.state.addon.helm != True)
  {
    var h := sys.history;
    assert |h + [Withdrawn]| == |h| + 1 && (h + [Withdrawn])[|h|] == Withdrawn;
  }

  /** The call after control plane initialisation sets its hook, withdraws the condition if so, and releases nothing. */
  lemma InitHookSets(c: Cluster, sys: System, found: bool, persisted: bool)
    ensures var next, a := Next(c, sys, InitHook(found, persisted)), sys.state.addon;
      && next.class_ == sys.class_ && next.record == sys.record
      && next.state.world == sys.state.world && next.state.log == sys.state.log
      && next.state.addon
        == (if found && persisted && a.hook != "AfterControlPlaneInitialized"
            then a.(hook := "AfterControlPlaneInitialized", helm := Absent) else a)
      && next.history == sys.history + (if found && persisted then [InitPatched] else [])
  {
  }

  // ---------------------------------------------------------------------------------------
  // An upgrade that is never released
  // ---------------------------------------------------------------------------------------

  /** Reconciles of a single-stage release with this addon version; no class change. */
  predicate Unchanged(step: Step, version: string) {
    match step
    case DoReconcile(inp, _) => inp.singleStage && inp.addonVersion == version
    case SetClass(_) => false
    case _ => true
  }

  /**
   A single-stage upgrade to a release with the same addon version blocks for good: once the hook has
   removed the condition, no sequence of reconciles, hook calls and restarts brings it back.
   */
  lemma {:induction false} SameAddonVersionBlocks(c: Cluster, sys: System, steps: seq<Step>)
    requires sys.state.addon.helm == Absent
    requires forall i :: 0 <= i < |steps| ==> Unchanged(steps[i], sys.state.addon.version)
    ensures var end := After(c, sys, steps);
      && end.state.addon.helm == Absent
      && end.state.addon.version == sys.state.addon.version
      && (forall t :: |sys.history| <= t < |end.history| ==> !end.history[t].Released?)
      && |sys.history| <= |end.history|
    decreases |steps|
  {
    if steps != [] {
      var before := steps[..|steps| - 1];
      SameAddonVersionBlocks(c, sys, before);
      assert Unchanged(steps[|steps| - 1], sys.state.addon.version);
    }
  }

  /** Exactly when a single-stage reconcile without failures completes a run after the hook removed the condition. */
  lemma SingleStageCompletesIff(api: Api, s: State, inp: Inputs, f: Faults)
    requires s.addon.helm == Absent && inp.singleStage
    requires !f.early && f.wholeTemplated && f.patched
    requires var e := Apply(api, s.world, inp.whole, s.addon.resources, f.whole); !e.failed && !e.requeue
    ensures Reconcile(api, s, inp, f).state.addon.helm == True
      <==> s.addon.clusterStack != inp.class_ && s.addon.version != inp.addonVersion
  {
  }
}
