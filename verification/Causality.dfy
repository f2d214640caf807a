/** The order of observations and actions within one hook run whose records were all persisted. */
module Causality {
  import opened Kube
  import opened Stages
  import opened Reconciling
  import opened StageRuns
  import opened Outcomes
  import opened Protocol
  import opened Upgrade

  function Count(log: seq<Event>, e: Event): nat {
    if log == [] then 0 else Count(log[..|log| - 1], e) + if log[|log| - 1] == e then 1 else 0
  }

  lemma CountSnoc(log: seq<Event>, x: Event, e: Event)
    ensures Count(log + [x], e) == Count(log, e) + if x == e then 1 else 0
  {
    assert (log + [x])[..|log|] == log;
  }

  /** No action before its pre-condition was observed true. */
  ghost predicate ActsAfterPre(log: seq<Event>, stage: Stage) {
    forall p :: 0 <= p < |log| && log[p] == Issued(stage.key) && stage.hasPre ==> PreTrue(stage.key) in log[..p]
  }

  /** No stage done before its action succeeded and, after that, its post-condition was observed true. */
  ghost predicate DoneAfterSuccess(log: seq<Event>, stage: Stage) {
    forall p :: 0 <= p < |log| && log[p] == MarkedDone(stage.key) ==> SuccessThenPost(log, stage, p)
  }

  ghost predicate SuccessThenPost(log: seq<Event>, stage: Stage, p: nat)
    requires p <= |log|
  {
    exists q :: 0 <= q < p && log[q] == Succeeded(stage.key) && (stage.hasPost ==> PostTrue(stage.key) in log[q..p])
  }

  ghost predicate Causal(log: seq<Event>, stage: Stage) {
    ActsAfterPre(log, stage) && DoneAfterSuccess(log, stage)
  }

  /** The log of a stage agrees with its phase. */
  ghost predicate Tracks(log: seq<Event>, stage: Stage, phase: Phase) {
    && Causal(log, stage)
    && (stage.hasPre && Rank(phase) >= Rank(ApplyingOrDeleting) ==> PreTrue(stage.key) in log)
    && Count(log, Succeeded(stage.key)) == (if Acted(phase) then 1 else 0)
    && Count(log, MarkedDone(stage.key)) == (if phase == Done then 1 else 0)
    && (Acted(phase) ==> Succeeded(stage.key) in log)
  }

  /** An event that is neither an action nor a completion of this stage cannot break its order. */
  lemma CausalMore(log: seq<Event>, stage: Stage, e: Event)
    requires Causal(log, stage)
    requires e == Issued(stage.key) && stage.hasPre ==> PreTrue(stage.key) in log
    requires e == MarkedDone(stage.key) ==> SuccessThenPost(log, stage, |log|)
    ensures Causal(log + [e], stage)
  {
    var g := log + [e];
    forall p | 0 <= p < |g| && g[p] == Issued(stage.key) && stage.hasPre ensures PreTrue(stage.key) in g[..p] {
      assert g[..p] == log[..p];
    }
    forall p | 0 <= p < |g| && g[p] == MarkedDone(stage.key) ensures SuccessThenPost(g, stage, p) {
      assert SuccessThenPost(log, stage, p);
      var q :| 0 <= q < p && log[q] == Succeeded(stage.key) && (stage.hasPost ==> PostTrue(stage.key) in log[q..p]);
      assert g[q] == log[q] && g[q..p] == log[q..p];
    }
  }

  lemma TracksOther(log: seq<Event>, stage: Stage, phase: Phase, e: Event)
    requires Tracks(log, stage, phase) && e.key != stage.key
    ensures Tracks(log + [e], stage, phase)
  {
    CausalMore(log, stage, e);
    CountSnoc(log, e, Succeeded(stage.key));
    CountSnoc(log, e, MarkedDone(stage.key));
  }

  /** The events of one round, for the stage itself. */
  lemma RoundTracks(api: Api, s: State, stages: seq<Stage>, i: nat, charts: Charts, f: StageFaults)
    requires Distinct(stages) && Aligned(stages, s.addon.stages) && i < |stages|
    requires Tracks(s.log, stages[i], s.addon.stages[i].phase)
    ensures var r := OneRound(api, s, stages[i], charts, f);
      && |r.state.addon.stages| == |stages|
      && Tracks(r.state.log, stages[i], r.state.addon.stages[i].phase)
  {
    var stage, log, key := stages[i], s.log, stages[i].key;
    RoundAt(api, s, stages, i, charts, f);
    GetPhaseAt(stages, s.addon.stages, i);
    var r := OneRound(api, s, stage, charts, f);
    match s.addon.stages[i].phase
    case Pending => PreTracks(s, stage, f, Pending);
    case WaitingForPreCondition => PreTracks(s, stage, f, WaitingForPreCondition);
    case ApplyingOrDeleting =>
      ActionTracks(api, s, stage, charts, f);
      ActionAt(api, s, stage, charts, f);
    case WaitingForPostCondition => PostTracks(s, stage, f);
    case _ =>
  }

  lemma PreTracks(s: State, stage: Stage, f: StageFaults, phase: Phase)
    requires Tracks(s.log, stage, phase) && (phase == Pending || phase == WaitingForPreCondition)
    ensures var r := PreRound(s, stage, f);
      Tracks(r.state.log, stage, RoundPhase(phase, stage, f, false, false).0)
  {
    var e := PreTrue(stage.key);
    CausalMore(s.log, stage, e);
    CountSnoc(s.log, e, Succeeded(stage.key));
    CountSnoc(s.log, e, MarkedDone(stage.key));
  }

  lemma IssuedTracks(log: seq<Event>, stage: Stage)
    requires Tracks(log, stage, ApplyingOrDeleting)
    ensures Tracks(log + [Issued(stage.key)], stage, ApplyingOrDeleting)
  {
    CausalMore(log, stage, Issued(stage.key));
    CountSnoc(log, Issued(stage.key), Succeeded(stage.key));
    CountSnoc(log, Issued(stage.key), MarkedDone(stage.key));
  }

  lemma SucceededTracks(log: seq<Event>, stage: Stage)
    requires Tracks(log, stage, ApplyingOrDeleting)
    ensures Tracks(log + [Succeeded(stage.key)], stage, WaitingForPostCondition)
  {
    CausalMore(log, stage, Succeeded(stage.key));
    CountSnoc(log, Succeeded(stage.key), Succeeded(stage.key));
    CountSnoc(log, Succeeded(stage.key), MarkedDone(stage.key));
  }

  /** What an action adds to the log. */
  lemma ActionLog(api: Api, s: State, stage: Stage, charts: Charts, f: StageFaults)
    ensures var r := ActionRound(api, s, stage, charts, f);
      var issued := s.log + [Issued(stage.key)];
      if r.again then r.state.log == issued + [Succeeded(stage.key)] else r.state.log == s.log || r.state.log == issued
  {
  }

  lemma ActionTracks(api: Api, s: State, stage: Stage, charts: Charts, f: StageFaults)
    requires Tracks(s.log, stage, ApplyingOrDeleting)
    ensures var r := ActionRound(api, s, stage, charts, f);
      Tracks(r.state.log, stage, if r.again then WaitingForPostCondition else ApplyingOrDeleting)
  {
    IssuedTracks(s.log, stage);
    SucceededTracks(s.log + [Issued(stage.key)], stage);
    ActionLog(api, s, stage, charts, f);
  }

  /** After the action, the post-condition observed. */
  lemma PostSeen(log: seq<Event>, stage: Stage)
    requires Tracks(log, stage, WaitingForPostCondition)
    ensures var log1 := if stage.hasPost then log + [PostTrue(stage.key)] else log;
      Tracks(log1, stage, WaitingForPostCondition) && SuccessThenPost(log1, stage, |log1|)
  {
    var post := PostTrue(stage.key);
    var log1 := if stage.hasPost then log + [post] else log;
    CausalMore(log, stage, post);
    CountSnoc(log, post, Succeeded(stage.key));
    CountSnoc(log, post, MarkedDone(stage.key));
    var q :| 0 <= q < |log| && log[q] == Succeeded(stage.key);
    assert log1[q] == log[q];
    assert stage.hasPost ==> log1[q..|log1|] == log[q..] + [post];
  }

  lemma DoneTracks(log: seq<Event>, stage: Stage)
    requires Tracks(log, stage, WaitingForPostCondition) && SuccessThenPost(log, stage, |log|)
    ensures Tracks(log + [MarkedDone(stage.key)], stage, Done)
  {
    var done := MarkedDone(stage.key);
    CausalMore(log, stage, done);
    CountSnoc(log, done, Succeeded(stage.key));
    CountSnoc(log, done, done);
  }

  lemma PostTracks(s: State, stage: Stage, f: StageFaults)
    requires Tracks(s.log, stage, WaitingForPostCondition)
    ensures var r := PostRound(s, stage, f);
      Tracks(r.state.log, stage, RoundPhase(WaitingForPostCondition, stage, f, false, false).0)
  {
    PostSeen(s.log, stage);
    DoneTracks(if stage.hasPost then s.log + [PostTrue(stage.key)] else s.log, stage);
  }

  /** The events of one round all belong to its stage. */
  lemma RoundEvents(api: Api, s: State, stage: Stage, charts: Charts, f: StageFaults, other: Stage, phase: Phase)
    requires Tracks(s.log, other, phase) && other.key != stage.key
    ensures Tracks(OneRound(api, s, stage, charts, f).state.log, other, phase)
  {
    match GetPhase(s.addon.stages, stage.key)
    case ApplyingOrDeleting =>
      ActionLog(api, s, stage, charts, f);
      TracksOther(s.log, other, phase, Issued(stage.key));
      TracksOther(s.log + [Issued(stage.key)], other, phase, Succeeded(stage.key));
    case WaitingForPostCondition =>
      var log1 := if stage.hasPost then s.log + [PostTrue(stage.key)] else s.log;
      TracksOther(s.log, other, phase, PostTrue(stage.key));
      TracksOther(log1, other, phase, MarkedDone(stage.key));
    case _ =>
      TracksOther(s.log, other, phase, PreTrue(stage.key));
  }

  ghost predicate AllTracked(stages: seq<Stage>, s: State) {
    && Aligned(stages, s.addon.stages)
    && forall i :: 0 <= i < |stages| ==> Tracks(s.log, stages[i], s.addon.stages[i].phase)
  }

  lemma {:induction false} CheckTracks(api: Api, s: State, stages: seq<Stage>, i: nat, charts: Charts, f: StageFaults)
    requires Distinct(stages) && AllTracked(stages, s) && i < |stages|
    ensures AllTracked(stages, Check(api, s, stages[i], charts, f).state)
    decreases 5 - Rank(GetPhase(s.addon.stages, stages[i].key))
  {
    RoundAt(api, s, stages, i, charts, f);
    var r := OneRound(api, s, stages[i], charts, f);
    AtAligned(stages, s.addon.stages, i, r.state.addon.stages[i].phase);
    forall j | 0 <= j < |stages| ensures Tracks(r.state.log, stages[j], r.state.addon.stages[j].phase) {
      if j == i {
        RoundTracks(api, s, stages, i, charts, f);
      } else {
        assert stages[j].key != stages[i].key by {
          if i < j { assert stages[i].key != stages[j].key; }
        }
        RoundEvents(api, s, stages[i], charts, f, stages[j], s.addon.stages[j].phase);
      }
    }
    if r.again {
      JumpRaisesRank(api, s, stages[i], charts, f);
      CheckTracks(api, r.state, stages, i, charts, f);
      assert Check(api, s, stages[i], charts, f) == Check(api, r.state, stages[i], charts, f);
    }
  }

  lemma {:induction false} PassTracks(api: Api, s: State, stages: seq<Stage>, charts: Charts, f: nat -> StageFaults,
      i: nat)
    requires Distinct(stages) && AllTracked(stages, s) && i <= |stages|
    ensures AllTracked(stages, RunStages(api, s, stages, charts, f, i).state)
    decreases |stages| - i
  {
    if i < |stages| {
      if f(i).chartFound {
        CheckTracks(api, s, stages, i, charts, f(i));
      }
      var r := ExecuteStage(api, s, stages[i], charts, f(i));
      if r.outcome == Continue {
        PassTracks(api, r.state, stages, charts, f, i + 1);
      }
    }
  }

  /** What the log shows of each stage; after a run without skipped stages each succeeded and was done once. */
  ghost predicate Orderly(log: seq<Event>, stages: seq<Stage>, complete: bool) {
    forall i :: 0 <= i < |stages| ==>
      && Causal(log, stages[i])
      && Count(log, Succeeded(stages[i].key)) <= 1 && Count(log, MarkedDone(stages[i].key)) <= 1
      && (complete ==> Count(log, Succeeded(stages[i].key)) == 1 && Count(log, MarkedDone(stages[i].key)) == 1)
  }

  /** A record and log in the middle of a run. */
  ghost predicate LogInv(stages: seq<Stage>, s: State) {
    if Fresh(s.addon) then s.log == [] else AllTracked(stages, s)
  }

  lemma FreshTracked(stages: seq<Stage>, s: State)
    requires s.log == [] && s.addon.stages == InitStages(stages)
    ensures AllTracked(stages, s)
  {
  }

  lemma TrackedIsOrderly(stages: seq<Stage>, s: State, complete: bool)
    requires AllTracked(stages, s)
    requires complete ==> forall j :: 0 <= j < |stages| ==> s.addon.stages[j].phase == Done
    ensures Orderly(s.log, stages, complete)
  {
  }

  /** Every entry has a phase. */
  predicate NonePhaseless(list: seq<StageStatus>) {
    forall j :: 0 <= j < |list| ==> list[j].phase != NoPhase
  }

  /** A pass keeps the log in order and, if it gets to its end without skipping, leaves every stage done. */
  lemma PassOrderly(api: Api, s: State, stages: seq<Stage>, charts: Charts, f: nat -> StageFaults)
    requires Distinct(stages) && AllTracked(stages, s)
    ensures var r := RunStages(api, s, stages, charts, f, 0);
      && AllTracked(stages, r.state)
      && Orderly(r.state.log, stages,
                 r.outcome == Continue && NoSkip(f, |stages|) && NonePhaseless(s.addon.stages))
  {
    PassTracks(api, s, stages, charts, f, 0);
    var r := RunStages(api, s, stages, charts, f, 0);
    var complete := r.outcome == Continue && NoSkip(f, |stages|) && NonePhaseless(s.addon.stages);
    if complete {
      forall j | 0 <= j < |stages| ensures r.state.addon.stages[j].phase == Done {
        DoneAfterPassIff(api, s, stages, charts, f, 0, j);
      }
    }
    TrackedIsOrderly(stages, r.state, complete);
  }

  /** What of a hook run the log shows. */
  lemma HookRunLog(api: Api, s: State, inp: Inputs, f: Faults, hasOld: bool)
    ensures var r := RunStages(api, s, StagesOf(inp, s.addon.hook), ChartsOf(inp, hasOld), f.stages, 0);
      var x := HookRun(api, s, inp, f, hasOld);
      && x.state.log == r.state.log
      && (x.finished.Some? ==> r.outcome == Continue)
      && (x.finished.None? ==> x.state.addon == r.state.addon)
  {
  }

  /** On the hook path a reconcile that gets as far as the stages is a hook run. */
  lemma HookPathRuns(api: Api, inp: Inputs, s: State, f: Faults)
    requires HookPath(s.addon, inp)
    requires !f.early && f.inputsOk && (s.addon.clusterStack != "" ==> f.download == OldReady)
    ensures InMemory(api, s, inp, f)
      == HookRun(api, s.(addon := Prepared(s.addon, inp)), inp, f, s.addon.clusterStack != "")
  {
  }

  /** A hook run that starts with a tracked list. */
  lemma HookRunOrderly(api: Api, s: State, inp: Inputs, f: Faults, hasOld: bool)
    requires var stages := StagesOf(inp, s.addon.hook);
      Distinct(stages) && AllTracked(stages, s) && !s.addon.ready
    ensures var x, stages := HookRun(api, s, inp, f, hasOld), StagesOf(inp, s.addon.hook);
      && Orderly(x.state.log, stages,
                 x.finished.Some? && NoSkip(f.stages, |stages|) && NonePhaseless(s.addon.stages))
      && (x.finished.None? ==> AllTracked(stages, x.state) && SameRun(s.addon, x.state.addon) && !x.state.addon.ready)
  {
    var stages := StagesOf(inp, s.addon.hook);
    PassOrderly(api, s, stages, ChartsOf(inp, hasOld), f.stages);
    HookRunLog(api, s, inp, f, hasOld);
    RunStagesFrame(api, s, stages, ChartsOf(inp, hasOld), f.stages, 0);
  }

  /** The record with which the stages begin is tracked, and has phaseless entries only if it had some before. */
  lemma PreparedTracked(inp: Inputs, s: State)
    requires HookPath(s.addon, inp) && LogInv(StagesOf(inp, s.addon.hook), s)
    ensures var a := Prepared(s.addon, inp);
      && AllTracked(StagesOf(inp, s.addon.hook), s.(addon := a)) && !a.ready && SameRun(s.addon, a)
      && (!Stuck(s.addon) ==> NonePhaseless(a.stages))
  {
    if Fresh(s.addon) {
      FreshTracked(StagesOf(inp, s.addon.hook), s.(addon := Prepared(s.addon, inp)));
    }
  }

  lemma ReconcileOrderly(api: Api, inp: Inputs, s: State, f: Faults)
    requires HookPath(s.addon, inp) && Distinct(StagesOf(inp, s.addon.hook))
    requires f.patched && LogInv(StagesOf(inp, s.addon.hook), s)
    ensures var x, stages := Reconcile(api, s, inp, f), StagesOf(inp, s.addon.hook);
      && Orderly(x.state.log, stages, x.finished.Some? && NoSkip(f.stages, |stages|) && !Stuck(s.addon))
      && (x.finished.None? ==> LogInv(stages, x.state) && SameRun(s.addon, x.state.addon))
  {
    var stages, hasOld := StagesOf(inp, s.addon.hook), s.addon.clusterStack != "";
    if !f.early && f.inputsOk && (hasOld ==> f.download == OldReady) {
      var s1 := s.(addon := Prepared(s.addon, inp));
      HookPathRuns(api, inp, s, f);
      PreparedTracked(inp, s);
      HookRunOrderly(api, s1, inp, f, hasOld);
    } else if Fresh(s.addon) {
      assert Reconcile(api, s, inp, f).state == s;
    } else {
      TrackedIsOrderly(stages, s, false);
    }
  }

  /** An entry without phase; initialised lists have none. */
  predicate Stuck(a: Addon) {
    !Fresh(a) && exists i :: 0 <= i < |a.stages| && a.stages[i].phase == NoPhase
  }

  /** Phases are never lost in a run. */
  lemma ReconcileNeverStuck(api: Api, inp: Inputs, s: State, f: Faults)
    requires HookPath(s.addon, inp) && Distinct(StagesOf(inp, s.addon.hook)) && f.patched
    requires LogInv(StagesOf(inp, s.addon.hook), s) && !Stuck(s.addon)
    requires Reconcile(api, s, inp, f).finished.None?
    ensures !Stuck(Reconcile(api, s, inp, f).state.addon)
  {
    var stages := StagesOf(inp, s.addon.hook);
    if !f.early && f.inputsOk && (s.addon.clusterStack != "" ==> f.download == OldReady) {
      var hasOld := s.addon.clusterStack != "";
      var s1 := s.(addon := Prepared(s.addon, inp));
      HookPathRuns(api, inp, s, f);
      PreparedTracked(inp, s);
      HookRunLog(api, s1, inp, f, hasOld);
      PassAdvances(api, s1, stages, ChartsOf(inp, hasOld), f.stages, 0);
    }
  }

  /**
   Stage causality.  In every run whose records were persisted, whatever fails or is missing: no action is
   issued before its pre-condition was observed true; no stage is done before its action succeeded and then
   its post-condition was observed true; no action succeeds twice.  A run that finishes without ever having
   skipped a stage shows every stage's success exactly once.
   */
  lemma StageCausality(api: Api, inp: Inputs, s0: State, fs: seq<Faults>)
    requires HookPath(s0.addon, inp) && Fresh(s0.addon) && s0.log == []
    requires Distinct(StagesOf(inp, s0.addon.hook))
    requires forall i :: 0 <= i < |fs| ==> fs[i].patched
    ensures var x, stages := RunHook(api, s0, inp, fs), StagesOf(inp, s0.addon.hook);
      && Orderly(x.state.log, stages, false)
      && ((forall i :: 0 <= i < |fs| ==> NoSkip(fs[i].stages, |stages|)) ==>
            Orderly(x.state.log, stages, x.finished.Some?))
  {
    RunOrderly(api, inp, s0, fs);
  }

  lemma {:induction false} RunOrderly(api: Api, inp: Inputs, s0: State, fs: seq<Faults>)
    requires HookPath(s0.addon, inp) && Fresh(s0.addon) && s0.log == []
    requires Distinct(StagesOf(inp, s0.addon.hook))
    requires forall i :: 0 <= i < |fs| ==> fs[i].patched
    ensures var x, stages := RunHook(api, s0, inp, fs), StagesOf(inp, s0.addon.hook);
      && Orderly(x.state.log, stages, false)
      && ((forall i :: 0 <= i < |fs| ==> NoSkip(fs[i].stages, |stages|)) ==>
            Orderly(x.state.log, stages, x.finished.Some?))
      && (x.finished.None? ==> LogInv(stages, x.state) && SameRun(s0.addon, x.state.addon) && !Stuck(x.state.addon))
    decreases |fs|
  {
    if fs != [] {
      var before, f := fs[..|fs| - 1], fs[|fs| - 1];
      var stages := StagesOf(inp, s0.addon.hook);
      RunOrderly(api, inp, s0, before);
      var x := RunHook(api, s0, inp, before);
      if x.finished.None? {
        ReconcileOrderly(api, inp, x.state, f);
        if Reconcile(api, x.state, inp, f).finished.None? {
          ReconcileNeverStuck(api, inp, x.state, f);
        }
      }
      if forall i :: 0 <= i < |fs| ==> NoSkip(fs[i].stages, |stages|) {
        assert NoSkip(fs[|fs| - 1].stages, |stages|);
        forall i | 0 <= i < |before| ensures NoSkip(before[i].stages, |stages|) {
          assert before[i] == fs[i];
        }
      }
    }
  }

  /**
   Completion does not need the stages: with all charts of a hook missing, a fresh run finishes in one
   otherwise fault-free reconcile without having issued any action.
   */
  lemma MissingChartsComplete(api: Api, inp: Inputs, s: State, f: Faults)
    requires HookPath(s.addon, inp) && s.log == []
    requires !f.early && f.inputsOk && f.download == OldReady && f.listsOk && f.patched
    requires (forall i: nat :: !f.stages(i).chartFound) && (forall i: nat :: f.clean(i) == DeleteOk)
    ensures var x := Reconcile(api, s, inp, f); x.finished.Some? && x.state.log == [] && x.state.addon.helm == True
  {
    var s1 := s.(addon := Prepared(s.addon, inp));
    AllSkipped(api, s1, StagesOf(inp, s1.addon.hook), ChartsOf(inp, s.addon.clusterStack != ""), f.stages, 0);
    var extra := Extra(OldList(inp, s1.addon.annotation), set x | x in NewList(inp, s1.addon.hook));
    CleanFirstIff(api, s1.world, extra, f.clean, |extra|);
  }

  lemma {:induction false} AllSkipped(api: Api, s: State, stages: seq<Stage>, charts: Charts, f: nat -> StageFaults,
      i: nat)
    requires i <= |stages| && forall j: nat :: !f(j).chartFound
    ensures RunStages(api, s, stages, charts, f, i) == Executed(s, Continue)
    decreases |stages| - i
  {
    if i < |stages| {
      AllSkipped(api, s, stages, charts, f, i + 1);
    }
  }
}
