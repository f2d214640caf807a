/** What one pass over the stages of a hook does to the list of phases. */
module StageRuns {
  import opened Kube
  import opened Stages

  ghost predicate Distinct(stages: seq<Stage>) {
    forall i, j :: 0 <= i < j < |stages| ==> stages[i].key != stages[j].key
  }

  /** The status list was made from these stages. */
  ghost predicate Aligned(stages: seq<Stage>, list: seq<StageStatus>) {
    |list| == |stages| && forall i :: 0 <= i < |list| ==> list[i].key == stages[i].key
  }

  /** done*, then at most one stage in progress, then Pending*; `k` stages are done. */
  ghost predicate Shape(list: seq<StageStatus>, k: nat) {
    && k <= |list|
    && (forall i :: 0 <= i < k ==> list[i].phase == Done)
    && (forall i :: k < i < |list| ==> list[i].phase == Pending)
    && (k < |list| ==> list[k].phase != Done && list[k].phase != NoPhase)
  }

  ghost predicate PrefixShape(list: seq<StageStatus>) {
    exists k: nat :: Shape(list, k)
  }

  /** No stage is passed over: its chart exists and can be templated. */
  ghost predicate NoSkip(f: nat -> StageFaults, n: nat) {
    forall i: nat :: i < n ==> f(i).chartFound && f(i).templated
  }

  /** The list with the phase of entry `i` replaced. */
  function At(list: seq<StageStatus>, i: nat, phase: Phase): seq<StageStatus>
    requires i < |list|
  {
    list[i := list[i].(phase := phase)]
  }

  lemma {:induction false} GetPhaseAt(stages: seq<Stage>, list: seq<StageStatus>, i: nat)
    requires Distinct(stages) && Aligned(stages, list) && i < |list|
    ensures GetPhase(list, stages[i].key) == list[i].phase
    ensures Listed(list, stages[i].key)
  {
    assert list[i] in list;
    if i > 0 {
      assert list[0].key == stages[0].key != stages[i].key;
      assert stages[1..][i - 1] == stages[i];
      GetPhaseAt(stages[1..], list[1..], i - 1);
    }
  }

  lemma SetPhaseAt(stages: seq<Stage>, list: seq<StageStatus>, i: nat, phase: Phase)
    requires Distinct(stages) && Aligned(stages, list) && i < |list|
    ensures SetPhase(list, stages[i].key, phase) == At(list, i, phase)
    ensures Aligned(stages, At(list, i, phase))
  {
    forall j | 0 <= j < |list| && j != i ensures list[j].key != stages[i].key {
      if i < j { assert stages[i].key != stages[j].key; } else { assert stages[j].key != stages[i].key; }
    }
  }

  /** The phase after one round, whether it jumps back, and the outcome; `acted` is the action's success. */
  function RoundPhase(before: Phase, stage: Stage, f: StageFaults, acted: bool, failed: bool): (Phase, bool, Outcome) {
    match before
    case ApplyingOrDeleting =>
      if !f.templated then (before, false, Continue)
      else if acted then (WaitingForPostCondition, true, Continue)
      else (before, false, if failed then Error else Requeue)
    case WaitingForPostCondition =>
      if stage.hasPost && f.post == NotMatched then (before, false, Requeue)
      else if stage.hasPost && f.post == EvalError then (before, false, Error)
      else (Done, false, Continue)
    case Done => (before, false, Continue)
    case NoPhase => (before, false, Continue)
    case _ =>
      if stage.hasPre && f.pre == NotMatched then (WaitingForPreCondition, false, Requeue)
      else if stage.hasPre && f.pre == EvalError then (before, false, Error)
      else (ApplyingOrDeleting, true, Continue)
  }

  predicate Acts(e: Engine) {
    !e.failed && !e.requeue
  }

  /** One round, given that the list answers and is updated at entry `i` for this key. */
  lemma RoundAtEntry(api: Api, s: State, stage: Stage, i: nat, charts: Charts, f: StageFaults)
    requires i < |s.addon.stages| && GetPhase(s.addon.stages, stage.key) == s.addon.stages[i].phase
    requires SetPhase(s.addon.stages, stage.key, WaitingForPreCondition)
      == At(s.addon.stages, i, WaitingForPreCondition)
    requires SetPhase(s.addon.stages, stage.key, ApplyingOrDeleting) == At(s.addon.stages, i, ApplyingOrDeleting)
    requires SetPhase(s.addon.stages, stage.key, WaitingForPostCondition)
      == At(s.addon.stages, i, WaitingForPostCondition)
    requires SetPhase(s.addon.stages, stage.key, Done) == At(s.addon.stages, i, Done)
    ensures var r := OneRound(api, s, stage, charts, f);
      var e := ActionEngine(api, s.world, stage, charts, f);
      var x := RoundPhase(s.addon.stages[i].phase, stage, f, Acts(e), e.failed);
      && r.state.addon.stages == At(s.addon.stages, i, x.0) && r.again == x.1 && r.outcome == x.2
      && (s.addon.stages[i].phase == Done ==> r.state == s)
  {
    var list := s.addon.stages;
    assert At(list, i, list[i].phase) == list;
    match list[i].phase
    case ApplyingOrDeleting => ActionAt(api, s, stage, charts, f);
    case _ =>
  }

  /** One round on stage `i` moves the phase of that entry, and no other, as the phase machine says. */
  lemma RoundAt(api: Api, s: State, stages: seq<Stage>, i: nat, charts: Charts, f: StageFaults)
    requires Distinct(stages) && Aligned(stages, s.addon.stages) && i < |stages|
    ensures var r := OneRound(api, s, stages[i], charts, f);
      var e := ActionEngine(api, s.world, stages[i], charts, f);
      var x := RoundPhase(s.addon.stages[i].phase, stages[i], f, Acts(e), e.failed);
      && r.state.addon.stages == At(s.addon.stages, i, x.0) && r.again == x.1 && r.outcome == x.2
      && (s.addon.stages[i].phase == Done ==> r.state == s)
  {
    var list := s.addon.stages;
    GetPhaseAt(stages, list, i);
    SetPhaseAt(stages, list, i, WaitingForPreCondition);
    SetPhaseAt(stages, list, i, ApplyingOrDeleting);
    SetPhaseAt(stages, list, i, WaitingForPostCondition);
    SetPhaseAt(stages, list, i, Done);
    RoundAtEntry(api, s, stages[i], i, charts, f);
  }

  lemma AtAligned(stages: seq<Stage>, list: seq<StageStatus>, i: nat, phase: Phase)
    requires Aligned(stages, list) && i < |list|
    ensures Aligned(stages, At(list, i, phase))
  {
  }

  lemma ActionAt(api: Api, s: State, stage: Stage, charts: Charts, f: StageFaults)
    ensures var r := ActionRound(api, s, stage, charts, f);
      var e := ActionEngine(api, s.world, stage, charts, f);
      var x := RoundPhase(ApplyingOrDeleting, stage, f, Acts(e), e.failed);
      && r.again == x.1 && r.outcome == x.2
      && r.state.addon.stages == if x.1 then SetPhase(s.addon.stages, stage.key, x.0) else s.addon.stages
  {
  }

  /** Where the phase of a stage can be after one execution. */
  predicate Advances(before: Phase, after: Phase, outcome: Outcome, templated: bool) {
    && Rank(before) <= Rank(after)
    && (before == NoPhase <==> after == NoPhase)
    && (before == Done ==> outcome == Continue)
    && (outcome != Continue ==> after != Done)
    && (outcome == Continue && before != NoPhase ==>
          (after == Done <==> templated || before == Done || before == WaitingForPostCondition))
  }

  lemma RoundAdvances(before: Phase, stage: Stage, f: StageFaults, acted: bool, failed: bool)
    ensures var x := RoundPhase(before, stage, f, acted, failed);
      && (!x.1 ==> Advances(before, x.0, x.2, f.templated))
      && (x.1 ==> before != Done && forall after, outcome ::
            Advances(x.0, after, outcome, f.templated) ==> Advances(before, after, outcome, f.templated))
  {
  }

  /** One execution of stage `i` moves the phase of that entry, and no other. */
  lemma {:induction false} CheckAt(api: Api, s: State, stages: seq<Stage>, i: nat, charts: Charts, f: StageFaults)
    requires Distinct(stages) && Aligned(stages, s.addon.stages) && i < |stages|
    ensures var r := Check(api, s, stages[i], charts, f);
      && Aligned(stages, r.state.addon.stages)
      && r.state.addon.stages == At(s.addon.stages, i, r.state.addon.stages[i].phase)
      && Advances(s.addon.stages[i].phase, r.state.addon.stages[i].phase, r.outcome, f.templated)
      && (s.addon.stages[i].phase == Done ==> r == Executed(s, Continue))
    decreases 5 - Rank(GetPhase(s.addon.stages, stages[i].key))
  {
    RoundAt(api, s, stages, i, charts, f);
    var r, e := OneRound(api, s, stages[i], charts, f), ActionEngine(api, s.world, stages[i], charts, f);
    RoundAdvances(s.addon.stages[i].phase, stages[i], f, Acts(e), e.failed);
    AtAligned(stages, s.addon.stages, i, r.state.addon.stages[i].phase);
    if r.again {
      JumpRaisesRank(api, s, stages[i], charts, f);
      CheckAt(api, r.state, stages, i, charts, f);
    }
  }

  /** Phases of a whole pass only advance. */
  ghost predicate AllAdvance(list: seq<StageStatus>, after: seq<StageStatus>) {
    |after| == |list| && forall i :: 0 <= i < |list| ==> Rank(list[i].phase) <= Rank(after[i].phase)
  }

  /** Any pass keeps the alignment and lets phases only advance, whatever is missing or fails. */
  lemma {:induction false} PassAdvances(
    api: Api, s: State, stages: seq<Stage>, charts: Charts, f: nat -> StageFaults, i: nat)
    requires Distinct(stages) && Aligned(stages, s.addon.stages) && i <= |stages|
    ensures var r := RunStages(api, s, stages, charts, f, i);
      && Aligned(stages, r.state.addon.stages)
      && AllAdvance(s.addon.stages, r.state.addon.stages)
      && (forall j :: 0 <= j < i ==> r.state.addon.stages[j] == s.addon.stages[j])
    decreases |stages| - i
  {
    if i < |stages| {
      if f(i).chartFound {
        CheckAt(api, s, stages, i, charts, f(i));
      }
      var r := ExecuteStage(api, s, stages[i], charts, f(i));
      if r.outcome == Continue {
        PassAdvances(api, r.state, stages, charts, f, i + 1);
      }
    }
  }

  /**
   A pass that gets to its end leaves a stage done exactly if it was, or if its chart was found and,
   unless its action had succeeded before, templated.  So a missing chart lets the hook complete.
   */
  lemma {:induction false} DoneAfterPassIff(
    api: Api, s: State, stages: seq<Stage>, charts: Charts, f: nat -> StageFaults, i: nat, j: nat)
    requires Distinct(stages) && Aligned(stages, s.addon.stages) && i <= j < |stages|
    requires s.addon.stages[j].phase != NoPhase
    requires RunStages(api, s, stages, charts, f, i).outcome == Continue
    ensures var before := s.addon.stages[j].phase;
      var list := RunStages(api, s, stages, charts, f, i).state.addon.stages;
      |list| == |stages| &&
      (list[j].phase == Done
      <==> before == Done || (f(j).chartFound && (f(j).templated || before == WaitingForPostCondition)))
    decreases |stages| - i
  {
    if f(i).chartFound {
      CheckAt(api, s, stages, i, charts, f(i));
    }
    var r := ExecuteStage(api, s, stages[i], charts, f(i));
    PassAdvances(api, r.state, stages, charts, f, i + 1);
    if i < j {
      DoneAfterPassIff(api, r.state, stages, charts, f, i + 1, j);
    }
  }

  // ---------------------------------------------------------------------------------------
  // Duplicate keys
  // ---------------------------------------------------------------------------------------

  /** Entries with equal key have one phase: first-match Get then cannot tell them apart. */
  ghost predicate SharePhase(list: seq<StageStatus>) {
    forall i, j :: 0 <= i < |list| && 0 <= j < |list| && list[i].key == list[j].key ==> list[i].phase == list[j].phase
  }

  function PhaseMap(list: seq<StageStatus>): map<StageKey, Phase> {
    map s | s in list :: s.key := GetPhase(list, s.key)
  }

  lemma {:induction false} GetPhaseShared(list: seq<StageStatus>, i: nat)
    requires SharePhase(list) && i < |list|
    ensures GetPhase(list, list[i].key) == list[i].phase
  {
    if i > 0 && list[0].key != list[i].key {
      assert forall j :: 0 <= j < |list| - 1 ==> list[1..][j] == list[j + 1];
      GetPhaseShared(list[1..], i - 1);
    }
  }

  lemma GetIsLookup(list: seq<StageStatus>, key: StageKey)
    ensures key in PhaseMap(list) <==> Listed(list, key)
    ensures GetPhase(list, key) == if key in PhaseMap(list) then PhaseMap(list)[key] else NoPhase
  {
    if !Listed(list, key) {
      UnlistedHasNoPhase(list, key);
    }
  }

  lemma SetKeepsListed(list: seq<StageStatus>, key: StageKey, phase: Phase, other: StageKey)
    ensures Listed(SetPhase(list, key, phase), other) <==> Listed(list, other)
  {
    var after := SetPhase(list, key, phase);
    if Listed(list, other) {
      var i :| 0 <= i < |list| && list[i].key == other;
      assert after[i] in after;
    }
    if Listed(after, other) {
      var i :| 0 <= i < |after| && after[i].key == other;
      assert list[i] in list;
    }
  }

  /** Initialised lists share phases, updates keep that, and then every entry has the phase that Get answers. */
  lemma SharedPhases(stages: seq<Stage>, list: seq<StageStatus>, key: StageKey, phase: Phase)
    ensures SharePhase(InitStages(stages))
    ensures SharePhase(list) ==> SharePhase(SetPhase(list, key, phase))
    ensures SharePhase(list) ==> forall i :: 0 <= i < |list| ==> GetPhase(list, list[i].key) == list[i].phase
  {
    if SharePhase(list) {
      forall i | 0 <= i < |list| ensures GetPhase(list, list[i].key) == list[i].phase {
        GetPhaseShared(list, i);
      }
    }
  }

  /** First-match Get and update-all Set are lookup and update of a plain map. */
  lemma ListRefinesMap(list: seq<StageStatus>, key: StageKey, phase: Phase)
    ensures GetPhase(list, key) == if key in PhaseMap(list) then PhaseMap(list)[key] else NoPhase
    ensures PhaseMap(SetPhase(list, key, phase))
      == if key in PhaseMap(list) then PhaseMap(list)[key := phase] else PhaseMap(list)
  {
    GetIsLookup(list, key);
    forall k ensures SetAt(PhaseMap(list), PhaseMap(SetPhase(list, key, phase)), key, phase, k) {
      SetAgrees(list, key, phase, k);
    }
    MapsAgree(PhaseMap(list), PhaseMap(SetPhase(list, key, phase)), key, phase);
  }

  /** At `k` the map `r` is the map `m` with `key` set, if it was there. */
  ghost predicate SetAt(m: map<StageKey, Phase>, r: map<StageKey, Phase>, key: StageKey, phase: Phase, k: StageKey) {
    (k in r <==> k in m) && (k in m ==> r[k] == if k == key then phase else m[k])
  }

  lemma MapsAgree(m: map<StageKey, Phase>, r: map<StageKey, Phase>, key: StageKey, phase: Phase)
    requires forall k :: SetAt(m, r, key, phase, k)
    ensures r == if key in m then m[key := phase] else m
  {
    var target := if key in m then m[key := phase] else m;
    assert SetAt(m, r, key, phase, key);
    forall k ensures (k in r <==> k in target) && (k in r ==> r[k] == target[k]) {
      assert SetAt(m, r, key, phase, k);
    }
    assert r.Keys == target.Keys;
  }

  lemma SetAgrees(list: seq<StageStatus>, key: StageKey, phase: Phase, k: StageKey)
    ensures SetAt(PhaseMap(list), PhaseMap(SetPhase(list, key, phase)), key, phase, k)
  {
    GetIsLookup(SetPhase(list, key, phase), k);
    GetIsLookup(list, k);
    SetKeepsListed(list, key, phase, k);
    GetAfterSet(list, key, phase, k);
  }

  // ---------------------------------------------------------------------------------------
  // What an execution leaves of the condition and of the tracked resources
  // ---------------------------------------------------------------------------------------

  /** In this phase the action is reached, and there is something to apply or delete. */
  ghost predicate ReachesAction(phase: Phase, stage: Stage, f: StageFaults) {
    && f.templated
    && (phase == ApplyingOrDeleting
        || (phase in {Pending, WaitingForPreCondition} && (stage.hasPre ==> f.pre == Matched)))
  }

  /** What one attempt of the action leaves of the record. */
  ghost predicate ActionRecord(api: Api, s: State, stage: Stage, charts: Charts, f: StageFaults, b: Addon) {
    var a, e, apply := s.addon, ActionEngine(api, s.world, stage, charts, f), stage.key.action == "apply";
    if e.failed || e.requeue then b == a.(stages := b.stages, helm := if apply then False else a.helm)
    else b == a.(stages := b.stages, helm := if apply then Absent else a.helm, resources := [])
  }

  lemma RoundLeaves(api: Api, s: State, stage: Stage, charts: Charts, f: StageFaults)
    ensures var phase, t := GetPhase(s.addon.stages, stage.key), OneRound(api, s, stage, charts, f).state;
      if phase == ApplyingOrDeleting && f.templated then ActionRecord(api, s, stage, charts, f, t.addon)
      else t.world == s.world && t.addon == s.addon.(stages := t.addon.stages)
  {
  }

  lemma RoundJumps(api: Api, s: State, stage: Stage, charts: Charts, f: StageFaults)
    ensures var phase, r := GetPhase(s.addon.stages, stage.key), OneRound(api, s, stage, charts, f);
      var next := GetPhase(r.state.addon.stages, stage.key);
      && (r.again ==> next == if phase == ApplyingOrDeleting then WaitingForPostCondition else ApplyingOrDeleting)
      && (phase in {Pending, WaitingForPreCondition} ==> (r.again <==> (stage.hasPre ==> f.pre == Matched)))
      && (r.again ==> phase in {Pending, WaitingForPreCondition, ApplyingOrDeleting})
  {
    var before := s.addon.stages;
    if !Listed(before, stage.key) {
      UnlistedHasNoPhase(before, stage.key);
    }
    GetAfterSet(before, stage.key, ApplyingOrDeleting, stage.key);
    GetAfterSet(before, stage.key, WaitingForPostCondition, stage.key);
  }

  /**
   An apply that is refused turns the condition false, one that succeeds removes it; a delete leaves it.  A successful
   action forgets the tracked resources.  Nothing else touches either.
   */
  lemma {:induction false} CheckLeaves(api: Api, s: State, stage: Stage, charts: Charts, f: StageFaults)
    ensures var a, b := s.addon, Check(api, s, stage, charts, f).state.addon;
      if ReachesAction(GetPhase(a.stages, stage.key), stage, f) then ActionRecord(api, s, stage, charts, f, b)
      else b == a.(stages := b.stages)
    decreases 5 - Rank(GetPhase(s.addon.stages, stage.key))
  {
    RoundLeaves(api, s, stage, charts, f);
    RoundJumps(api, s, stage, charts, f);
    var r := OneRound(api, s, stage, charts, f);
    if r.again {
      JumpRaisesRank(api, s, stage, charts, f);
      CheckLeaves(api, r.state, stage, charts, f);
    }
  }
}
