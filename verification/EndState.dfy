/** What the workload cluster contains once a BeforeClusterUpgrade run has finished. */
module EndState {
  import opened Results
  import opened Kube
  import opened Effects
  import opened Stages
  import opened Reconciling
  import opened StageRuns
  import opened Upgrade
  import opened Completion

  /** Everything that is ever rendered from the charts of this name. */
  function Objects(charts: Charts, name: string): seq<Obj> {
    charts.next(name) + charts.prev(name) + charts.doomed(name)
  }

  /** The keys of charts are disjoint, across old and new, and so are those of the objects of one template. */
  ghost predicate Apart(api: Api, charts: Charts, stages: seq<Stage>) {
    && (forall i, j, o, p |
          && 0 <= i < |stages| && 0 <= j < |stages|
          && o in Objects(charts, stages[i].key.name) && p in Objects(charts, stages[j].key.name)
          && api.KeyOf(o) == api.KeyOf(p)
          :: stages[i].key.name == stages[j].key.name && NameOf(o) == NameOf(p))
    && (forall i, o, p |
          && 0 <= i < |stages|
          && o in charts.next(stages[i].key.name) && p in charts.next(stages[i].key.name)
          && api.KeyOf(o) == api.KeyOf(p)
          :: o == p)
  }

  lemma {:induction false} UntouchedLater(api: Api, charts: Charts, stages: seq<Stage>, end: Effect, m: nat, x: Key)
    requires m <= |stages| && x !in end.touched
    requires forall j :: m <= j < |stages| ==> x !in StageEffect(api, charts, stages[j]).touched
    ensures x !in Rest(api, charts, stages, end, m).touched
    decreases |stages| - m
  {
    if m < |stages| {
      UntouchedLater(api, charts, stages, end, m + 1, x);
    }
  }

  /** What stage `i` puts stays unless something after it touches the key. */
  lemma {:induction false} PutSurvives(
    api: Api, charts: Charts, stages: seq<Stage>, end: Effect, m: nat, i: nat, w: World, x: Key)
    requires m <= i < |stages| && end.Valid()
    requires x in StageEffect(api, charts, stages[i]).put && x !in Rest(api, charts, stages, end, i + 1).touched
    ensures var v := Rest(api, charts, stages, end, m).Run(w);
      x in v && v[x] == StageEffect(api, charts, stages[i]).put[x]
    decreases i - m
  {
    RestNext(api, charts, stages, end, m, w);
    var v := StageEffect(api, charts, stages[m]).Run(w);
    if m < i {
      PutSurvives(api, charts, stages, end, m + 1, i, v, x);
    } else {
      RestFrameAt(api, charts, stages, end, m + 1, v, x);
    }
  }

  /** A key that the rest does not touch keeps what it had. */
  lemma {:induction false} RestFrameAt(api: Api, charts: Charts, stages: seq<Stage>, end: Effect, m: nat, w: World,
      x: Key)
    requires m <= |stages| && end.Valid() && x !in Rest(api, charts, stages, end, m).touched
    ensures SameAt(w, Rest(api, charts, stages, end, m).Run(w), x)
    decreases |stages| - m
  {
    if m < |stages| {
      var eff := StageEffect(api, charts, stages[m]);
      RestNext(api, charts, stages, end, m, w);
      assert SameAt(w, eff.Run(w), x);
      RestFrameAt(api, charts, stages, end, m + 1, eff.Run(w), x);
    }
  }

  /** What the clean-up deletes is gone at the end. */
  lemma CleanedAtEnd(api: Api, charts: Charts, stages: seq<Stage>, end: Effect, m: nat, w: World)
    requires m <= |stages| && end.put == map[]
    ensures forall x :: x in end.touched ==> x !in Rest(api, charts, stages, end, m).Run(w)
  {
    forall x | x in end.touched ensures x !in Rest(api, charts, stages, end, m).Run(w) {
      ChainEndRemoves(Steps(api, charts, stages), end, m, |stages|, w, x);
    }
  }

  /** In consistent charts nothing after apply stage `i` touches its objects, but a delete stage of its chart. */
  lemma AppliedUntouched(api: Api, charts: Charts, stages: seq<Stage>, i: nat, j: nat, o: Obj)
    requires Apart(api, charts, stages) && Distinct(stages)
    requires i < j < |stages| && stages[i].key.action == "apply" && o in charts.next(stages[i].key.name)
    requires stages[j].key.action != "apply" ==> stages[j].key.name != stages[i].key.name
    ensures api.KeyOf(o) !in StageEffect(api, charts, stages[j]).touched
  {
    var a, b := stages[i].key.name, stages[j].key.name;
    assert o in Objects(charts, a);
    assert stages[i].key != stages[j].key;
    assert a != b;
    forall p | p in Objects(charts, b) ensures api.KeyOf(p) != api.KeyOf(o) {
    }
  }

  /** An apply stage puts every object of its new template. */
  lemma AppliedPut(api: Api, charts: Charts, stages: seq<Stage>, i: nat, o: Obj)
    requires Apart(api, charts, stages)
    requires i < |stages| && stages[i].key.action == "apply" && o in charts.next(stages[i].key.name)
    ensures var put := StageEffect(api, charts, stages[i]).put;
      api.KeyOf(o) in put && put[api.KeyOf(o)] == Owned(o)
  {
    var name := stages[i].key.name;
    var next, prev := charts.next(name), charts.prev(name);
    PutAllHas(api, next, o);
    var gone := Pruned(prev, Names(next));
    forall p | p in gone ensures api.KeyOf(p) != api.KeyOf(o) {
      assert p in Objects(charts, name) && o in Objects(charts, name);
      assert NameOf(o) in Names(next);
    }
  }

  ghost predicate Rendered(api: Api, charts: Charts, stages: seq<Stage>, x: Key) {
    exists i :: 0 <= i < |stages| && x in api.KeysOf(Objects(charts, stages[i].key.name))
  }

  lemma UnrenderedUntouched(api: Api, charts: Charts, stages: seq<Stage>, end: Effect, x: Key)
    requires x !in end.touched && !Rendered(api, charts, stages, x)
    ensures x !in Rest(api, charts, stages, end, 0).touched
  {
    forall j | 0 <= j < |stages| ensures x !in StageEffect(api, charts, stages[j]).touched {
      var name := stages[j].key.name;
      assert x !in api.KeysOf(Objects(charts, name));
      assert forall o :: o in charts.next(name) || o in charts.prev(name) || o in charts.doomed(name) ==>
          o in Objects(charts, name);
    }
    UntouchedLater(api, charts, stages, end, 0, x);
  }

  lemma AppliedStays(api: Api, charts: Charts, stages: seq<Stage>, end: Effect, i: nat, o: Obj, w: World)
    requires Apart(api, charts, stages) && Distinct(stages) && end.Valid()
    requires i < |stages| && LastApply(stages, i) && o in charts.next(stages[i].key.name)
      && api.KeyOf(o) !in end.touched
    ensures var v := Rest(api, charts, stages, end, 0).Run(w); api.KeyOf(o) in v && v[api.KeyOf(o)] == Owned(o)
  {
    AppliedPut(api, charts, stages, i, o);
    forall j | i < j < |stages| ensures api.KeyOf(o) !in StageEffect(api, charts, stages[j]).touched {
      AppliedUntouched(api, charts, stages, i, j, o);
    }
    UntouchedLater(api, charts, stages, end, i + 1, api.KeyOf(o));
    PutSurvives(api, charts, stages, end, 0, i, w, api.KeyOf(o));
  }

  /** What stage `i` removes stays away unless something after it puts it. */
  lemma {:induction false} GoneSurvives(api: Api, charts: Charts, stages: seq<Stage>, end: Effect, m: nat, i: nat,
                                        w: World, x: Key)
    requires m <= i < |stages| && end.Valid() && x !in end.put
    requires x in StageEffect(api, charts, stages[i]).touched
    requires forall j | i <= j < |stages| :: x !in StageEffect(api, charts, stages[j]).put
    ensures x !in Rest(api, charts, stages, end, m).Run(w)
    decreases i - m
  {
    RestNext(api, charts, stages, end, m, w);
    var v := StageEffect(api, charts, stages[m]).Run(w);
    if m < i {
      GoneSurvives(api, charts, stages, end, m + 1, i, v, x);
    } else {
      PutsNothing(StageEffect(api, charts, stages[m]), w, x);
      AbsentStays(api, charts, stages, end, m + 1, v, x);
    }
  }

  lemma {:induction false} AbsentStays(api: Api, charts: Charts, stages: seq<Stage>, end: Effect, m: nat, w: World,
                                       x: Key)
    requires m <= |stages| && end.Valid() && x !in end.put && x !in w
    requires forall j | m <= j < |stages| :: x !in StageEffect(api, charts, stages[j]).put
    ensures x !in Rest(api, charts, stages, end, m).Run(w)
    decreases |stages| - m
  {
    if m < |stages| {
      RestNext(api, charts, stages, end, m, w);
      PutsNothing(StageEffect(api, charts, stages[m]), w, x);
      AbsentStays(api, charts, stages, end, m + 1, StageEffect(api, charts, stages[m]).Run(w), x);
    }
  }

  lemma PutsNothing(e: Effect, w: World, x: Key)
    requires x !in e.put && (x in e.touched || x !in w)
    ensures x !in e.Run(w)
  {
  }

  /** Charts of other names put none of this object's keys. */
  lemma OthersPutNothing(api: Api, charts: Charts, stages: seq<Stage>, i: nat, j: nat, o: Obj)
    requires Apart(api, charts, stages) && i < |stages| && j < |stages|
    requires o in Objects(charts, stages[i].key.name) && stages[j].key.name != stages[i].key.name
    ensures api.KeyOf(o) !in StageEffect(api, charts, stages[j]).put
  {
    forall p | p in charts.next(stages[j].key.name) ensures api.KeyOf(p) != api.KeyOf(o) {
      assert p in Objects(charts, stages[j].key.name);
    }
  }

  lemma OldObjectAtEnd(api: Api, charts: Charts, stages: seq<Stage>, clean: Effect, w: World, i: nat, o: Obj)
    requires Apart(api, charts, stages) && Distinct(stages) && clean.put == map[] && clean.Valid()
    requires i < |stages| && stages[i].key.action == "apply" && o in charts.prev(stages[i].key.name)
    requires NameOf(o) !in Names(charts.next(stages[i].key.name))
    ensures api.KeyOf(o) !in Rest(api, charts, stages, clean, 0).Run(w)
  {
    var name := stages[i].key.name;
    assert o in Objects(charts, name) && o in Pruned(charts.prev(name), Names(charts.next(name)));
    forall j | i <= j < |stages| ensures api.KeyOf(o) !in StageEffect(api, charts, stages[j]).put {
      if stages[j].key.name != name {
        OthersPutNothing(api, charts, stages, i, j, o);
      } else if j > i {
        assert stages[i].key != stages[j].key;
      }
    }
    GoneSurvives(api, charts, stages, clean, 0, i, w, api.KeyOf(o));
  }

  lemma DoomedObjectAtEnd(api: Api, charts: Charts, stages: seq<Stage>, clean: Effect, w: World, i: nat, o: Obj)
    requires Apart(api, charts, stages) && clean.put == map[] && clean.Valid()
    requires i < |stages| && LastDelete(stages, i) && o in charts.doomed(stages[i].key.name)
    ensures api.KeyOf(o) !in Rest(api, charts, stages, clean, 0).Run(w)
  {
    var name := stages[i].key.name;
    assert o in Objects(charts, name);
    forall j | i <= j < |stages| ensures api.KeyOf(o) !in StageEffect(api, charts, stages[j]).put {
      if stages[j].key.name != name {
        OthersPutNothing(api, charts, stages, i, j, o);
      }
    }
    GoneSurvives(api, charts, stages, clean, 0, i, w, api.KeyOf(o));
  }

  // ---------------------------------------------------------------------------------------
  // The end state, in terms of the releases
  // ---------------------------------------------------------------------------------------

  /** The object is in the new chart as an apply stage renders it. */
  ghost predicate InNewChart(inp: Inputs, name: string, o: Obj) {
    o in inp.next.render(name, inp.next.overwrite(name))
  }

  /** It is in the old chart, which is looked at only where it has an overwrite file. */
  ghost predicate InOldChart(inp: Inputs, hasOld: bool, name: string, o: Obj) {
    hasOld && inp.prev.overwrite(name).Some? && o in inp.prev.render(name, inp.prev.overwrite(name))
  }

  /** It is in the new chart as a delete stage renders it. */
  ghost predicate InDoomedChart(inp: Inputs, name: string, o: Obj) {
    o in inp.next.render(name, None)
  }

  ghost predicate InChart(inp: Inputs, hasOld: bool, name: string, o: Obj) {
    InNewChart(inp, name, o) || InOldChart(inp, hasOld, name, o) || InDoomedChart(inp, name, o)
  }

  /** An entry of the status for this object. */
  predicate EntryFor(o: Obj, r: Res) {
    r == Res(o.group, o.version, o.kind, o.ns, o.name, Unset, "")
  }

  /** Two objects are one to the API server: groups, kinds and names count, versions and stated namespaces do not. */
  predicate SameObject(o: Obj, p: Obj) {
    o.group == p.group && o.kind == p.kind && o.name == p.name
  }

  lemma SameObjectIff(api: Api, o: Obj, p: Obj)
    ensures api.KeyOf(o) == api.KeyOf(p) <==> SameObject(o, p)
  {
  }

  /** The object is at its key: of its kind and name, in the namespace of the client if its kind has namespaces. */
  predicate KeyIs(api: Api, o: Obj, x: Key) {
    x == Key(o.group, o.kind, if api.namespaced(o.group, o.kind) then api.ns else "", o.name)
  }

  /** Charts are disjoint, old and new; an object keeps its namespace spelling; a template states an object once. */
  ghost predicate Consistent(inp: Inputs, hasOld: bool, stages: seq<Stage>) {
    && (forall i, j, o, p |
          && 0 <= i < |stages| && 0 <= j < |stages|
          && InChart(inp, hasOld, stages[i].key.name, o) && InChart(inp, hasOld, stages[j].key.name, p)
          && SameObject(o, p)
          :: stages[i].key.name == stages[j].key.name && o.ns == p.ns)
    && (forall i, o, p |
          && 0 <= i < |stages|
          && InNewChart(inp, stages[i].key.name, o) && InNewChart(inp, stages[i].key.name, p) && SameObject(o, p)
          :: o == p)
  }

  lemma ObjectsAre(inp: Inputs, hasOld: bool, name: string, o: Obj)
    ensures o in Objects(ChartsOf(inp, hasOld), name) <==> InChart(inp, hasOld, name, o)
  {
  }

  lemma ConsistentIsApart(api: Api, inp: Inputs, hasOld: bool, stages: seq<Stage>)
    requires Consistent(inp, hasOld, stages)
    ensures Apart(api, ChartsOf(inp, hasOld), stages)
  {
    var charts := ChartsOf(inp, hasOld);
    forall i, j, o, p | && 0 <= i < |stages| && 0 <= j < |stages|
        && o in Objects(charts, stages[i].key.name) && p in Objects(charts, stages[j].key.name)
        && api.KeyOf(o) == api.KeyOf(p)
      ensures stages[i].key.name == stages[j].key.name && NameOf(o) == NameOf(p)
    {
      ObjectsAre(inp, hasOld, stages[i].key.name, o);
      ObjectsAre(inp, hasOld, stages[j].key.name, p);
    }
    forall i, o, p | && 0 <= i < |stages|
        && o in charts.next(stages[i].key.name) && p in charts.next(stages[i].key.name)
        && api.KeyOf(o) == api.KeyOf(p)
      ensures o == p
    {
      assert InNewChart(inp, stages[i].key.name, o) && InNewChart(inp, stages[i].key.name, p) && SameObject(o, p);
    }
  }

  /** The stages of this hook in the configuration of the new release. */
  ghost predicate Configured(inp: Inputs, hook: string, stages: seq<Stage>) {
    if hook in inp.config then inp.config[hook] == stages else stages == []
  }

  /** The old release lists the entry: by the stages of its installation if it was created so, else by its upgrade. */
  ghost predicate OldListed(inp: Inputs, annotation: Option<string>, r: Res) {
    if !inp.oldHasConfig then exists o :: o in inp.oldWhole && EntryFor(o, r)
    else
      var hook := if annotation == Some("created") then "AfterControlPlaneInitialized" else "BeforeClusterUpgrade";
      hook in inp.config && ListedBy(inp.prev, inp.config[hook], |inp.config[hook]|, r)
  }

  ghost predicate NewListed(inp: Inputs, r: Res) {
    var hook := "BeforeClusterUpgrade";
    hook in inp.config && ListedBy(inp.next, inp.config[hook], |inp.config[hook]|, r)
  }

  /** The key that the clean-up deletes an entry under: in its own namespace, or in "kube-system" if it states none. */
  predicate CleanedAt(api: Api, r: Res, x: Key) {
    var ns := if !api.namespaced(r.group, r.kind) then "" else if r.ns == "" then "kube-system" else r.ns;
    x == Key(r.group, r.kind, ns, r.name)
  }

  /** The old release lists an entry there that the new one does not list, API version included. */
  ghost predicate Superseded(api: Api, inp: Inputs, annotation: Option<string>, x: Key) {
    exists r :: OldListed(inp, annotation, r) && !NewListed(inp, r) && CleanedAt(api, r, x)
  }

  /** An apply stage whose chart has no later delete stage. */
  predicate LastApply(stages: seq<Stage>, i: nat)
    requires i < |stages|
  {
    && stages[i].key.action == "apply"
    && forall j :: i < j < |stages| && stages[j].key.action != "apply" ==> stages[j].key.name != stages[i].key.name
  }

  /** A delete stage whose chart has no later apply stage. */
  predicate LastDelete(stages: seq<Stage>, i: nat)
    requires i < |stages|
  {
    && stages[i].key.action != "apply"
    && forall j :: i < j < |stages| && stages[j].key.action == "apply" ==> stages[j].key.name != stages[i].key.name
  }

  /** The object is there as rendered and labelled, or cleaned up. */
  ghost predicate Placed(cleaned: iset<Key>, end: World, x: Key, o: Obj) {
    if x in cleaned then x !in end else x in end && end[x] == o.(owned := true)
  }

  /** The objects of last apply stages are there as rendered and labelled, if the clean-up spares them. */
  ghost predicate NewPlaced(api: Api, inp: Inputs, stages: seq<Stage>, cleaned: iset<Key>, end: World) {
    forall i, o, x | 0 <= i < |stages| && LastApply(stages, i)
        && InNewChart(inp, stages[i].key.name, o) && KeyIs(api, o, x) ::
      Placed(cleaned, end, x, o)
  }

  /** The new chart has an object of this namespace and name. */
  ghost predicate NamedAnew(inp: Inputs, name: string, o: Obj) {
    exists p :: InNewChart(inp, name, p) && p.ns == o.ns && p.name == o.name
  }

  /** The objects of the old charts of apply stages that the new charts do not name are gone. */
  ghost predicate OldPruned(api: Api, inp: Inputs, hasOld: bool, stages: seq<Stage>, end: World) {
    forall i, o, x | 0 <= i < |stages| && stages[i].key.action == "apply"
        && InOldChart(inp, hasOld, stages[i].key.name, o) && KeyIs(api, o, x) ::
      NamedAnew(inp, stages[i].key.name, o) || x !in end
  }

  /** The objects of last delete stages are gone. */
  ghost predicate DoomedGone(api: Api, inp: Inputs, stages: seq<Stage>, end: World) {
    forall i, o, x | 0 <= i < |stages| && LastDelete(stages, i)
        && InDoomedChart(inp, stages[i].key.name, o) && KeyIs(api, o, x) :: x !in end
  }

  /** Some stage renders an object at the key, or rendered one. */
  ghost predicate RendersAt(api: Api, inp: Inputs, hasOld: bool, stages: seq<Stage>, x: Key) {
    exists i, o :: 0 <= i < |stages| && InChart(inp, hasOld, stages[i].key.name, o) && KeyIs(api, o, x)
  }

  /** What the stages of a run leave, next to a clean-up of the keys `cleaned`; what no chart renders is as before. */
  ghost predicate Staged(api: Api, inp: Inputs, hasOld: bool, stages: seq<Stage>, cleaned: iset<Key>, start: World,
                         end: World) {
    && (Consistent(inp, hasOld, stages) ==>
          && NewPlaced(api, inp, stages, cleaned, end)
          && OldPruned(api, inp, hasOld, stages, end)
          && DoomedGone(api, inp, stages, end))
    && (forall x | x !in cleaned && !RendersAt(api, inp, hasOld, stages, x) :: SameAt(start, end, x))
  }

  lemma NewObjectStaged(api: Api, inp: Inputs, hasOld: bool, stages: seq<Stage>, clean: Effect, cleaned: iset<Key>,
                        w: World, i: nat, o: Obj, x: Key)
    requires x in clean.touched <==> x in cleaned
    requires KeyIs(api, o, x)
    requires Consistent(inp, hasOld, stages) && Distinct(stages) && clean.put == map[] && clean.Valid()
    requires i < |stages| && LastApply(stages, i) && InNewChart(inp, stages[i].key.name, o)
    ensures Placed(cleaned, Rest(api, ChartsOf(inp, hasOld), stages, clean, 0).Run(w), x, o)
  {
    ConsistentIsApart(api, inp, hasOld, stages);
    if api.KeyOf(o) in clean.touched {
      CleanedAtEnd(api, ChartsOf(inp, hasOld), stages, clean, 0, w);
    } else {
      AppliedStays(api, ChartsOf(inp, hasOld), stages, clean, i, o, w);
    }
  }

  lemma OldObjectStaged(api: Api, inp: Inputs, hasOld: bool, stages: seq<Stage>, clean: Effect, w: World, i: nat,
                        o: Obj)
    requires Consistent(inp, hasOld, stages) && Distinct(stages) && clean.put == map[] && clean.Valid()
    requires i < |stages| && stages[i].key.action == "apply" && InOldChart(inp, hasOld, stages[i].key.name, o)
    requires !NamedAnew(inp, stages[i].key.name, o)
    ensures api.KeyOf(o) !in Rest(api, ChartsOf(inp, hasOld), stages, clean, 0).Run(w)
  {
    ConsistentIsApart(api, inp, hasOld, stages);
    var charts, name := ChartsOf(inp, hasOld), stages[i].key.name;
    forall p | p in charts.next(name) ensures NameOf(p) != NameOf(o) {
      assert InNewChart(inp, name, p);
    }
    OldObjectAtEnd(api, charts, stages, clean, w, i, o);
  }

  lemma OthersStaged(api: Api, inp: Inputs, hasOld: bool, stages: seq<Stage>, clean: Effect, w: World, x: Key)
    requires clean.Valid() && x !in clean.touched && !RendersAt(api, inp, hasOld, stages, x)
    ensures SameAt(w, Rest(api, ChartsOf(inp, hasOld), stages, clean, 0).Run(w), x)
  {
    var charts := ChartsOf(inp, hasOld);
    forall i | 0 <= i < |stages| ensures x !in api.KeysOf(Objects(charts, stages[i].key.name)) {
      forall o | o in Objects(charts, stages[i].key.name) ensures api.KeyOf(o) != x {
        ObjectsAre(inp, hasOld, stages[i].key.name, o);
        assert KeyIs(api, o, api.KeyOf(o));
      }
    }
    UnrenderedUntouched(api, charts, stages, clean, x);
    RestFrameAt(api, charts, stages, clean, 0, w, x);
  }

  lemma StagedAtEnd(api: Api, inp: Inputs, hasOld: bool, stages: seq<Stage>, clean: Effect, cleaned: iset<Key>,
                    w: World)
    requires Distinct(stages) && clean.put == map[] && clean.Valid()
    requires forall x :: x in clean.touched <==> x in cleaned
    ensures Staged(api, inp, hasOld, stages, cleaned, w, Rest(api, ChartsOf(inp, hasOld), stages, clean, 0).Run(w))
  {
    var v := Rest(api, ChartsOf(inp, hasOld), stages, clean, 0).Run(w);
    if Consistent(inp, hasOld, stages) {
      AllNewPlaced(api, inp, hasOld, stages, clean, cleaned, w);
      AllOldPruned(api, inp, hasOld, stages, clean, w);
      AllDoomedGone(api, inp, hasOld, stages, clean, w);
    }
    forall x | x !in cleaned && !RendersAt(api, inp, hasOld, stages, x) ensures SameAt(w, v, x) {
      OthersStaged(api, inp, hasOld, stages, clean, w, x);
    }
  }

  lemma AllNewPlaced(api: Api, inp: Inputs, hasOld: bool, stages: seq<Stage>, clean: Effect, cleaned: iset<Key>,
                     w: World)
    requires Consistent(inp, hasOld, stages) && Distinct(stages) && clean.put == map[] && clean.Valid()
    requires forall x :: x in clean.touched <==> x in cleaned
    ensures NewPlaced(api, inp, stages, cleaned, Rest(api, ChartsOf(inp, hasOld), stages, clean, 0).Run(w))
  {
    var v := Rest(api, ChartsOf(inp, hasOld), stages, clean, 0).Run(w);
    forall i, o, x | 0 <= i < |stages| && LastApply(stages, i) && InNewChart(inp, stages[i].key.name, o)
        && KeyIs(api, o, x)
      ensures Placed(cleaned, v, x, o)
    {
      NewObjectStaged(api, inp, hasOld, stages, clean, cleaned, w, i, o, x);
    }
  }

  lemma AllOldPruned(api: Api, inp: Inputs, hasOld: bool, stages: seq<Stage>, clean: Effect, w: World)
    requires Consistent(inp, hasOld, stages) && Distinct(stages) && clean.put == map[] && clean.Valid()
    ensures OldPruned(api, inp, hasOld, stages, Rest(api, ChartsOf(inp, hasOld), stages, clean, 0).Run(w))
  {
    var v := Rest(api, ChartsOf(inp, hasOld), stages, clean, 0).Run(w);
    forall i, o, x | 0 <= i < |stages| && stages[i].key.action == "apply"
        && InOldChart(inp, hasOld, stages[i].key.name, o) && KeyIs(api, o, x)
      ensures NamedAnew(inp, stages[i].key.name, o) || x !in v
    {
      if !NamedAnew(inp, stages[i].key.name, o) {
        OldObjectStaged(api, inp, hasOld, stages, clean, w, i, o);
      }
    }
  }

  lemma AllDoomedGone(api: Api, inp: Inputs, hasOld: bool, stages: seq<Stage>, clean: Effect, w: World)
    requires Consistent(inp, hasOld, stages) && clean.put == map[] && clean.Valid()
    ensures DoomedGone(api, inp, stages, Rest(api, ChartsOf(inp, hasOld), stages, clean, 0).Run(w))
  {
    var v := Rest(api, ChartsOf(inp, hasOld), stages, clean, 0).Run(w);
    ConsistentIsApart(api, inp, hasOld, stages);
    forall i, o, x | 0 <= i < |stages| && LastDelete(stages, i) && InDoomedChart(inp, stages[i].key.name, o)
        && KeyIs(api, o, x)
      ensures x !in v
    {
      DoomedObjectAtEnd(api, ChartsOf(inp, hasOld), stages, clean, w, i, o);
    }
  }

  /** The cluster `end` is `start` upgraded: the stages are run, and what the new release supersedes is gone. */
  ghost predicate Upgraded(api: Api, inp: Inputs, a: Addon, start: World, end: World) {
    var superseded := iset x | Superseded(api, inp, a.annotation, x);
    && (forall stages | Configured(inp, "BeforeClusterUpgrade", stages) ::
          Staged(api, inp, a.clusterStack != "", stages, superseded, start, end))
    && (forall x | x in superseded :: x !in end)
  }

  /** The cluster `end` is `start` with the release installed: the stages are run, and nothing else. */
  ghost predicate Installed(api: Api, inp: Inputs, a: Addon, start: World, end: World) {
    forall stages | Configured(inp, "AfterControlPlaneInitialized", stages) ::
      Staged(api, inp, a.clusterStack != "", stages, iset{}, start, end)
  }

  lemma OldListedIff(inp: Inputs, annotation: Option<string>, r: Res)
    ensures r in OldList(inp, annotation) <==> OldListed(inp, annotation, r)
  {
    if inp.oldHasConfig {
      var stages := StagesOf(inp, OldHook(annotation));
      ListedIff(inp.prev, stages, |stages|, r);
    } else {
      EntriesAre(inp.oldWhole, r);
    }
  }

  lemma NewListedIff(inp: Inputs, r: Res)
    ensures r in NewList(inp, BEFORE_CLUSTER_UPGRADE) <==> NewListed(inp, r)
  {
    var stages := StagesOf(inp, BEFORE_CLUSTER_UPGRADE);
    ListedIff(inp.next, stages, |stages|, r);
  }

  /** Exactly the superseded keys are deleted by the clean-up. */
  lemma SupersededIff(api: Api, inp: Inputs, annotation: Option<string>, x: Key)
    ensures x in CleanEffect(api, OldList(inp, annotation), NewList(inp, BEFORE_CLUSTER_UPGRADE)).touched
      <==> Superseded(api, inp, annotation, x)
  {
    var old_, new_ := OldList(inp, annotation), NewList(inp, BEFORE_CLUSTER_UPGRADE);
    forall r ensures r in Extra(old_, set y | y in new_) <==> OldListed(inp, annotation, r) && !NewListed(inp, r) {
      OldListedIff(inp, annotation, r);
      NewListedIff(inp, r);
    }
    assert forall r :: CleanedAt(api, r, x) <==> api.CleanKey(r) == x;
  }

  lemma WholeRunUpgrades(api: Api, inp: Inputs, a: Addon, w: World)
    requires a.hook == BEFORE_CLUSTER_UPGRADE && Distinct(StagesOf(inp, BEFORE_CLUSTER_UPGRADE))
    ensures Upgraded(api, inp, a, w, WholeRun(api, inp, a).Run(w))
  {
    var hasOld, stages, clean := a.clusterStack != "", StagesOf(inp, BEFORE_CLUSTER_UPGRADE), EndEffect(api, inp, a);
    var superseded := iset x | Superseded(api, inp, a.annotation, x);
    assert WholeRun(api, inp, a) == Rest(api, ChartsOf(inp, hasOld), stages, clean, 0);
    forall x ensures x in clean.touched <==> x in superseded {
      SupersededIff(api, inp, a.annotation, x);
    }
    StagedAtEnd(api, inp, hasOld, stages, clean, superseded, w);
    CleanedAtEnd(api, ChartsOf(inp, hasOld), stages, clean, 0, w);
  }

  lemma WholeRunInstalls(api: Api, inp: Inputs, a: Addon, w: World)
    requires a.hook == AFTER_CONTROL_PLANE_INITIALIZED && Distinct(StagesOf(inp, AFTER_CONTROL_PLANE_INITIALIZED))
    ensures Installed(api, inp, a, w, WholeRun(api, inp, a).Run(w))
  {
    StagedAtEnd(api, inp, a.clusterStack != "", StagesOf(inp, AFTER_CONTROL_PLANE_INITIALIZED), NOTHING, iset{}, w);
  }

  /**
   Upgrade end state.  Once a run has finished, however it got there, the new objects are in place, the old
   ones that the new release lacks are gone, and everything else is as it was before the run.
   */
  lemma UpgradeEndState(api: Api, inp: Inputs, s0: State, fs: seq<Faults>)
    requires RunPremises(inp, s0, fs) && s0.addon.hook == BEFORE_CLUSTER_UPGRADE
    requires RunHook(api, s0, inp, fs).finished.Some?
    ensures Upgraded(api, inp, s0.addon, s0.world, RunHook(api, s0, inp, fs).state.world)
  {
    RunConverges(api, inp, s0, fs);
    WholeRunUpgrades(api, inp, s0.addon, s0.world);
  }

  /** The whole record at the end of a run. */
  lemma {:induction false} RunRecord(api: Api, inp: Inputs, s0: State, fs: seq<Faults>)
    requires HookPath(s0.addon, inp)
    ensures var x, a := RunHook(api, s0, inp, fs), s0.addon;
      if x.finished.None? then SameRun(a, x.state.addon)
      else
        && x.finished == Some(HookStages(a.hook))
        && x.state.addon == Addon(inp.class_, inp.addonVersion, "", true, [], True, x.state.addon.annotation, [])
        && x.state.addon.annotation
          == (if a.annotation.Some? then a.annotation
              else if a.hook == "BeforeClusterUpgrade" then Some("upgraded") else Some("created"))
    decreases |fs|
  {
    if fs != [] {
      var front, f := fs[..|fs| - 1], fs[|fs| - 1];
      RunRecord(api, inp, s0, front);
      var x := RunHook(api, s0, inp, front);
      if x.finished.None? {
        if Reconcile(api, x.state, inp, f).finished.Some? {
          FinishedRecord(api, inp, x.state, f);
        } else {
          UnfinishedStays(api, inp, x.state, f);
        }
      }
    }
  }

  /**
   What an upgrade of a cluster that was installed by this operator takes for the old release: a finished installation
   leaves the annotation "created", so the later upgrade cleans up what the stages of the installation list.
   */
  lemma InstallationIsListed(api: Api, inp: Inputs, s0: State, fs: seq<Faults>, up: Inputs, x: Key)
    requires RunPremises(inp, s0, fs) && s0.addon.hook == AFTER_CONTROL_PLANE_INITIALIZED && s0.addon.annotation.None?
    requires RunHook(api, s0, inp, fs).finished.Some?
    requires up.oldHasConfig && "AfterControlPlaneInitialized" in up.config
    ensures Superseded(api, up, RunHook(api, s0, inp, fs).state.addon.annotation, x) <==>
      var stages := up.config["AfterControlPlaneInitialized"];
      exists r :: ListedBy(up.prev, stages, |stages|, r) && !NewListed(up, r) && CleanedAt(api, r, x)
  {
    RunRecord(api, inp, s0, fs);
    assert forall r :: OldListed(up, Some("created"), r) <==>
        ListedBy(up.prev, up.config["AfterControlPlaneInitialized"], |up.config["AfterControlPlaneInitialized"]|, r);
  }

  /** The same for the installation: a finished run of the other hook has installed the release, and cleaned nothing. */
  lemma InstallEndState(api: Api, inp: Inputs, s0: State, fs: seq<Faults>)
    requires RunPremises(inp, s0, fs) && s0.addon.hook == AFTER_CONTROL_PLANE_INITIALIZED
    requires RunHook(api, s0, inp, fs).finished.Some?
    ensures Installed(api, inp, s0.addon, s0.world, RunHook(api, s0, inp, fs).state.world)
  {
    RunConverges(api, inp, s0, fs);
    WholeRunInstalls(api, inp, s0.addon, s0.world);
  }

  /**
   The same for an upgrade within one Kubernetes version.  Its first reconcile, the only one that can, finishes it
   exactly if no stage is an obstacle and the clean-up goes through, and then leaves the cluster upgraded.
   */
  lemma SameVersionEndState(api: Api, inp: Inputs, s: State, f: Faults)
    requires SameVersionUpgrade(s.addon, inp) && Proceeds(f) && FreshUpgrade(s.addon)
    requires var stages := StagesOf(inp, BEFORE_CLUSTER_UPGRADE); Distinct(stages) && NoSkip(f.stages, |stages|)
    ensures var x, through := Reconcile(api, s, inp, f), GoesThrough(inp, SameVersionStart(s.addon, inp), f, true);
      && (x.finished.Some? <==> through)
      && (through ==> Upgraded(api, inp, s.addon.(hook := BEFORE_CLUSTER_UPGRADE), s.world, x.state.world))
  {
    FreshCanStart(s.addon, inp);
    SameVersionFinishesIff(api, inp, s, f);
    if Reconcile(api, s, inp, f).finished.Some? {
      SameVersionConverges(api, inp, s, f);
      WholeRunUpgrades(api, inp, s.addon.(hook := BEFORE_CLUSTER_UPGRADE), s.world);
    }
  }

  // ---------------------------------------------------------------------------------------
  // When the clean-up spares the new objects
  // ---------------------------------------------------------------------------------------

  /** The values in force after `n` stages: those of the last one with an overwrite file, none before the first. */
  ghost predicate InForce(r: Renderer, stages: seq<Stage>, n: nat, values: Option<string>)
    requires n <= |stages|
  {
    if values.None? then forall i | 0 <= i < n :: r.overwrite(stages[i].key.name).None?
    else
      exists j | 0 <= j < n ::
        && r.overwrite(stages[j].key.name) == values
        && forall i | j < i < n :: r.overwrite(stages[i].key.name).None?
  }

  lemma {:induction false} InForceIff(r: Renderer, stages: seq<Stage>, n: nat, values: Option<string>)
    requires n <= |stages|
    ensures InForce(r, stages, n, values) <==> values == Carried(r, stages, n)
  {
    if n > 0 {
      InForceIff(r, stages, n - 1, values);
      if values.Some? && InForce(r, stages, n - 1, values) {
        var j :| 0 <= j < n - 1 && r.overwrite(stages[j].key.name) == values
          && forall i | j < i < n - 1 :: r.overwrite(stages[i].key.name).None?;
        if r.overwrite(stages[n - 1].key.name).None? {
          assert forall i | j < i < n :: r.overwrite(stages[i].key.name).None?;
        }
      }
    }
  }

  /** Apply stage `j` renders the object of this entry, with the values in force there. */
  ghost predicate Lists(r: Renderer, stages: seq<Stage>, j: nat, values: Option<string>, o: Obj, x: Res)
    requires j < |stages|
  {
    && InForce(r, stages, j + 1, values)
    && stages[j].key.action == "apply" && o in r.render(stages[j].key.name, values) && EntryFor(o, x)
  }

  /** One of the first `n` stages does. */
  ghost predicate ListedBy(r: Renderer, stages: seq<Stage>, n: nat, x: Res)
    requires n <= |stages|
  {
    exists j: nat, values, o | j < n :: Lists(r, stages, j, values, o, x)
  }

  lemma EntriesAre(objs: seq<Obj>, x: Res)
    ensures x in FromObjs(objs) <==> exists o :: o in objs && EntryFor(o, x)
  {
    if x in FromObjs(objs) {
      var i :| 0 <= i < |objs| && FromObjs(objs)[i] == x;
      assert objs[i] in objs && EntryFor(objs[i], x);
    }
    if o :| o in objs && EntryFor(o, x) {
      var i :| 0 <= i < |objs| && objs[i] == o;
      assert FromObjs(objs)[i] == x;
    }
  }

  /** Stage `n - 1` renders the entry with carried values. */
  ghost predicate ListedAt(r: Renderer, stages: seq<Stage>, n: nat, x: Res)
    requires 0 < n <= |stages|
  {
    stages[n - 1].key.action == APPLY && x in FromObjs(r.render(stages[n - 1].key.name, Carried(r, stages, n)))
  }

  lemma ListedByNext(r: Renderer, stages: seq<Stage>, n: nat, x: Res)
    requires 0 < n <= |stages|
    ensures ListedBy(r, stages, n, x) <==> ListedBy(r, stages, n - 1, x) || ListedAt(r, stages, n, x)
  {
    var values, name := Carried(r, stages, n), stages[n - 1].key.name;
    InForceIff(r, stages, n, values);
    EntriesAre(r.render(name, values), x);
    if ListedBy(r, stages, n, x) && !ListedBy(r, stages, n - 1, x) {
      var j: nat, v, o :| j < n && Lists(r, stages, j, v, o, x);
      assert j == n - 1;
      InForceIff(r, stages, n, v);
    }
    if ListedAt(r, stages, n, x) {
      var o :| o in r.render(name, values) && EntryFor(o, x);
      assert Lists(r, stages, n - 1, values, o, x);
    }
  }

  /** What the list of a release holds: the entries of the apply stages, with carried values, and nothing else. */
  lemma {:induction false} ListedIff(r: Renderer, stages: seq<Stage>, n: nat, x: Res)
    requires n <= |stages|
    ensures x in ReleaseList(r, stages, n) <==> ListedBy(r, stages, n, x)
  {
    if n > 0 {
      ListedIff(r, stages, n - 1, x);
      ListedByNext(r, stages, n, x);
    }
  }

  /**
   The clean-up spares an object of a new apply stage if the stage has an overwrite file, or none before it has, and an
   old resource under the key of the object is the same resource, API version included.
   */
  lemma CleanUpSparesNewObjects(api: Api, inp: Inputs, annotation: Option<string>, stages: seq<Stage>, i: nat, o: Obj,
                                x: Key)
    requires "BeforeClusterUpgrade" in inp.config && stages == inp.config["BeforeClusterUpgrade"]
    requires i < |stages| && stages[i].key.action == "apply"
    requires InNewChart(inp, stages[i].key.name, o) && KeyIs(api, o, x)
    requires InForce(inp.next, stages, i + 1, inp.next.overwrite(stages[i].key.name))
    requires forall r :: OldListed(inp, annotation, r) && CleanedAt(api, r, x) ==> EntryFor(o, r)
    ensures !Superseded(api, inp, annotation, x)
  {
    forall r | EntryFor(o, r) ensures NewListed(inp, r) {
      assert Lists(inp.next, stages, i, inp.next.overwrite(stages[i].key.name), o, r);
    }
  }

  /**
   Exactly when the clean-up deletes an object that the old release has rendered as well, under the same key and no
   other resource with it: if no apply stage renders it with the values carried to it.
   */
  lemma CleanUpDeletesIff(api: Api, inp: Inputs, annotation: Option<string>, o: Obj, r: Res, x: Key)
    requires EntryFor(o, r) && OldListed(inp, annotation, r) && CleanedAt(api, r, x) && KeyIs(api, o, x)
    requires forall q :: OldListed(inp, annotation, q) && CleanedAt(api, q, x) ==> q == r
    ensures Superseded(api, inp, annotation, x) <==> !NewListed(inp, r)
  {
  }

  /**
   Hence an object that a finished upgrade has applied can be gone at its end: the stages alone would leave it in place,
   but the clean-up deletes it.
   */
  lemma AppliedButDeleted(api: Api, inp: Inputs, s0: State, fs: seq<Faults>, stages: seq<Stage>, i: nat, o: Obj, r: Res,
                          x: Key)
    requires RunPremises(inp, s0, fs) && s0.addon.hook == BEFORE_CLUSTER_UPGRADE
    requires RunHook(api, s0, inp, fs).finished.Some?
    requires Configured(inp, "BeforeClusterUpgrade", stages) && Consistent(inp, s0.addon.clusterStack != "", stages)
    requires i < |stages| && LastApply(stages, i) && InNewChart(inp, stages[i].key.name, o) && KeyIs(api, o, x)
    requires EntryFor(o, r) && OldListed(inp, s0.addon.annotation, r) && !NewListed(inp, r) && CleanedAt(api, r, x)
    ensures var applied := Rest(api, ChartsOf(inp, s0.addon.clusterStack != ""), stages, NOTHING, 0).Run(s0.world);
      x in applied && applied[x] == o.(owned := true)
    ensures x !in RunHook(api, s0, inp, fs).state.world
  {
    var hasOld := s0.addon.clusterStack != "";
    ConsistentIsApart(api, inp, hasOld, stages);
    AppliedStays(api, ChartsOf(inp, hasOld), stages, NOTHING, i, o, s0.world);
    UpgradeEndState(api, inp, s0, fs);
    assert Superseded(api, inp, s0.addon.annotation, x);
  }

  /** The object of the second chart below, rendered without values, and its entry. */
  const PLAIN := Obj("", "v1", "ConfigMap", "kube-system", "plain", "", false)
  const PLAIN_ENTRY := Res("", "v1", "ConfigMap", "kube-system", "plain", Unset, "")

  const TWO_STAGES := [Stage(StageKey("first", APPLY), false, false), Stage(StageKey("second", APPLY), false, false)]

  /** The second of two charts has no overwrite file, and an object only without values; the first has a file or not. */
  function TwoCharts(first: Option<string>): Renderer {
    Renderer(
      (name: string, values: Option<string>) => if name == "second" && values.None? then [PLAIN] else [],
      (name: string) => if name == "first" then first else None)
  }

  /** An upgrade with which the first chart gets its overwrite file. */
  function GainsValues(): Inputs {
    Inputs("new", false, "1.28", "v2", map[BEFORE_CLUSTER_UPGRADE := TWO_STAGES], [], TwoCharts(Some("values")), "1.27",
           true, [], TwoCharts(None))
  }

  /** The object is applied, and it is not listed, though the old release lists it. */
  lemma CarriedValuesHide()
    ensures ListedBy(TwoCharts(None), TWO_STAGES, 2, PLAIN_ENTRY)
    ensures InNewChart(GainsValues(), "second", PLAIN)
    ensures !ListedBy(TwoCharts(Some("values")), TWO_STAGES, 2, PLAIN_ENTRY)
  {
    var r, s := TwoCharts(None), TwoCharts(Some("values"));
    assert Lists(r, TWO_STAGES, 1, None, PLAIN, PLAIN_ENTRY);
    forall j: nat, values, o | j < 2 ensures !Lists(s, TWO_STAGES, j, values, o, PLAIN_ENTRY) {
      assert s.overwrite(TWO_STAGES[0].key.name) == Some("values");
    }
  }

  /** Its charts are consistent. */
  lemma GainsValuesConsistent()
    ensures Consistent(GainsValues(), true, TWO_STAGES)
  {
    var inp := GainsValues();
    forall i, o | 0 <= i < 2 && InChart(inp, true, TWO_STAGES[i].key.name, o) ensures i == 1 && o == PLAIN {
      assert i == 0 || i == 1;
    }
    forall i, o | 0 <= i < 2 && InNewChart(inp, TWO_STAGES[i].key.name, o) ensures o == PLAIN {
      assert InChart(inp, true, TWO_STAGES[i].key.name, o);
    }
  }

  lemma OneReconcileFinishes(api: Api, inp: Inputs, s0: State, f: Faults)
    requires HookPath(s0.addon, inp) && Fresh(s0.addon) && Distinct(StagesOf(inp, s0.addon.hook)) && FaultFree(f)
    ensures RunPremises(inp, s0, [f]) && RunHook(api, s0, inp, [f]).finished.Some?
  {
    assert Faulty([f]) == 0;
    BoundedCompletion(api, inp, s0, [f], 0);
  }

  /** What the upgrade has and lists. */
  lemma GainsValuesFacts(a: Addon)
    requires a.hook == BEFORE_CLUSTER_UPGRADE && a.clusterStack != "" && a.annotation != Some("created")
    ensures var inp := GainsValues();
      && Configured(inp, "BeforeClusterUpgrade", TWO_STAGES) && Distinct(TWO_STAGES) && HookPath(a, inp)
      && LastApply(TWO_STAGES, 1)
      && OldListed(inp, a.annotation, PLAIN_ENTRY) && !NewListed(inp, PLAIN_ENTRY)
  {
    CarriedValuesHide();
  }

  /** From every cluster and without any failure, this upgrade finishes in one reconcile and loses the object. */
  lemma ObjectLost(api: Api, s0: State, f: Faults)
    requires api.ns == "kube-system" && FaultFree(f) && Fresh(s0.addon)
    requires s0.addon.hook == BEFORE_CLUSTER_UPGRADE && s0.addon.clusterStack != ""
    requires s0.addon.annotation != Some("created")
    ensures var x := RunHook(api, s0, GainsValues(), [f]);
      && x.finished.Some? && LastApply(TWO_STAGES, 1) && InNewChart(GainsValues(), TWO_STAGES[1].key.name, PLAIN)
      && forall k :: KeyIs(api, PLAIN, k) ==> k !in x.state.world
  {
    GainsValuesFacts(s0.addon);
    CarriedValuesHide();
    GainsValuesConsistent();
    OneReconcileFinishes(api, GainsValues(), s0, f);
    forall k | KeyIs(api, PLAIN, k) ensures k !in RunHook(api, s0, GainsValues(), [f]).state.world {
      AppliedButDeleted(api, GainsValues(), s0, [f], TWO_STAGES, 1, PLAIN, PLAIN_ENTRY, k);
    }
  }
}
