/** Runs of the single-stage flow: one chart applied with tracked entries, again until a reconcile finishes. */
module SingleStageRuns {
  import opened Results
  import opened Kube
  import opened Effects
  import opened KubeFacts
  import opened Applied
  import opened Stages
  import opened Reconciling
  import opened Upgrade

  // ---------------------------------------------------------------------------------------
  // One reconcile
  // ---------------------------------------------------------------------------------------

  /** The chart is to be applied: the class and the addon version are new, or an attempt for this class has failed. */
  predicate Attempting(a: Addon, inp: Inputs) {
    && inp.singleStage
    && if a.clusterStack != inp.class_ then a.version != inp.addonVersion else a.helm == False
  }

  /** Nothing ends the reconcile before the objects are applied. */
  predicate Reached(f: Faults) {
    !f.early && f.wholeTemplated
  }

  /**
   What a reconcile makes of an attempt: it finishes exactly if the chart is templated and applied without error and
   requeue, and the record is persisted; and if it does not, the next reconcile attempts again.
   */
  lemma AttemptOutcome(api: Api, inp: Inputs, s: State, f: Faults)
    requires Attempting(s.addon, inp)
    ensures var a, x := s.addon, Reconcile(api, s, inp, f);
      var e := Apply(api, s.world, inp.whole, a.resources, f.whole);
      var b, same := x.state.addon, a.clusterStack == inp.class_;
      && x.state.world == (if Reached(f) then e.world else s.world)
      && (x.finished.Some? <==> Reached(f) && f.patched && !e.failed && !e.requeue)
      && (x.finished.Some? ==>
            && x.finished == Some(WholeChart)
            && b == Addon(inp.class_, if same then a.version else inp.addonVersion, "", true, a.stages, True,
                          if a.annotation.Some? then a.annotation else Some("created"), e.resources))
      && (x.finished.None? ==>
            Attempting(b, inp) && b.hook == a.hook && b.stages == a.stages && b.annotation == a.annotation)
      && (x.finished.None? && (f.early || !f.patched) ==> b == a)
      && (x.finished.None? && !f.early && f.patched ==>
            && b.helm == False && b.ready == (same && a.ready)
            && b.resources == (if !f.wholeTemplated then a.resources
                               else if e.failed then Leftover(api, s.world, inp.whole, a.resources, f.whole)
                               else e.resources)
            && b.clusterStack == (if f.wholeTemplated && !e.failed then inp.class_ else a.clusterStack)
            && b.version == (if f.wholeTemplated && !e.failed && !same then inp.addonVersion else a.version))
  {
  }

  /** Nothing to apply: the record is marked ready for the class, and the condition stays what it is. */
  lemma NothingToApply(api: Api, inp: Inputs, s: State, f: Faults)
    requires inp.singleStage && !Attempting(s.addon, inp) && !f.early && f.patched
    ensures var x, a := Reconcile(api, s, inp, f), s.addon;
      && x.finished.None? && x.state.world == s.world
      && x.state.addon == Addon(inp.class_, a.version, "", true, a.stages, a.helm,
                                if a.annotation.Some? then a.annotation else Some("created"), a.resources)
  {
  }

  // ---------------------------------------------------------------------------------------
  // One call of Apply in the middle of a run
  // ---------------------------------------------------------------------------------------

  ghost predicate UniqueKeys(api: Api, objs: seq<Obj>) {
    forall o, p :: o in objs && p in objs && api.KeyOf(o) == api.KeyOf(p) ==> o == p
  }

  ghost predicate KeysApart(api: Api, objs: seq<Obj>) {
    forall i, j :: 0 <= i < j < |objs| ==> api.KeyOf(objs[j]) != api.KeyOf(objs[i])
  }

  /** No entry to prune stands for an object to write. */
  ghost predicate NoOverlap(api: Api, objs: seq<Obj>, rs: seq<Res>) {
    forall o, r | o in objs && !Recorded(rs, NameOf(o)) && r in Obsolete(rs, Names(objs)) ::
      api.KeyOf(o) != api.ResKey(r)
  }

  /** An object that is applied without failure is in place after the loop. */
  lemma {:induction false} SyncFirstPlaces(api: Api, w: World, objs: seq<Obj>, prev: seq<Res>,
                                           faults: nat -> ApplyFault, n: nat, i: nat)
    requires i < n <= |objs| && KeysApart(api, objs)
    requires !Recorded(prev, NameOf(objs[i])) && faults(i) == ApplyOk
    requires !SyncFirst(api, w, objs, prev, faults, n).failed
    ensures var v, x := SyncFirst(api, w, objs, prev, faults, n).world, api.KeyOf(objs[i]);
      x in v && v[x] == Owned(objs[i])
  {
    if i < n - 1 {
      SyncFirstPlaces(api, w, objs, prev, faults, n - 1, i);
      SyncOneElsewhere(api, SyncFirst(api, w, objs, prev, faults, n - 1), prev, objs[n - 1], faults(n - 1), objs[i]);
    }
  }

  lemma SyncOneElsewhere(api: Api, e: Engine, prev: seq<Res>, o: Obj, fault: ApplyFault, p: Obj)
    requires api.KeyOf(o) != api.KeyOf(p)
    ensures SameAt(e.world, SyncOne(api, e, prev, o, fault).world, api.KeyOf(p))
  {
  }

  /** Pruning removes a key or leaves it as it is. */
  lemma {:induction false} PruneRemovesOrKeeps(api: Api, start: Engine, rs: seq<Res>, faults: nat -> DeleteFault,
                                               n: nat, x: Key)
    requires n <= |rs|
    ensures var v := PruneFirst(api, start, rs, faults, n).world; x !in v || SameAt(start.world, v, x)
  {
    if n > 0 {
      PruneRemovesOrKeeps(api, start, rs, faults, n - 1, x);
    }
  }

  /** Pruning that gets to its end, with no delete refused, removes all of the keys. */
  lemma {:induction false} PruneRemovesAll(api: Api, start: Engine, rs: seq<Res>, faults: nat -> DeleteFault, n: nat,
                                           x: Key)
    requires n <= |rs| && x in ResKeys(api, rs[..n])
    requires !PruneFirst(api, start, rs, faults, n).failed && forall i: nat :: !faults(i).DeleteFailed?
    ensures x !in PruneFirst(api, start, rs, faults, n).world
  {
    if x in ResKeys(api, rs[..n - 1]) {
      PruneRemovesAll(api, start, rs, faults, n - 1, x);
    } else {
      var r :| r in rs[..n] && api.ResKey(r) == x;
      assert r !in rs[..n - 1];
      assert rs[..n] == rs[..n - 1] + [rs[n - 1]];
    }
  }

  /** What a call newly records is in place. */
  lemma NewlyRecorded(api: Api, w: World, objs: seq<Obj>, rs: seq<Res>, f: KubeFaults, o: Obj)
    requires UniqueNames(objs) && UniqueKeys(api, objs) && NoOverlap(api, objs, rs)
    requires var e := Apply(api, w, objs, rs, f); !e.failed && Recorded(e.resources, NameOf(o))
    requires o in objs && !Recorded(rs, NameOf(o))
    ensures var v, x := Apply(api, w, objs, rs, f).world, api.KeyOf(o); x in v && v[x] == Owned(o)
  {
    var i :| 0 <= i < |objs| && objs[i] == o;
    var gone, e0 := Obsolete(rs, Names(objs)), SyncFirst(api, w, objs, rs, f.apply, |objs|);
    ApplyRecordsExactly(api, w, objs, rs, f, i);
    PruneFirstFacts(api, e0, gone, f.delete, |gone|);
    forall j, k | 0 <= j < k < |objs| ensures api.KeyOf(objs[k]) != api.KeyOf(objs[j]) {
      assert NameOf(objs[j]) != NameOf(objs[k]);
    }
    SyncFirstPlaces(api, w, objs, rs, f.apply, |objs|, i);
    OutsideIsSame(Apply(api, w, objs, rs, f).world, e0.world, ResKeys(api, gone), api.KeyOf(o));
  }

  /** What a call makes of the keys to prune: gone or as they were, and all gone if it ends with no delete refused. */
  lemma PrunedOrKept(api: Api, w: World, objs: seq<Obj>, rs: seq<Res>, f: KubeFaults, x: Key)
    requires NoOverlap(api, objs, rs) && x in ResKeys(api, Obsolete(rs, Names(objs)))
    ensures var e := Apply(api, w, objs, rs, f);
      && (x !in e.world || SameAt(w, e.world, x))
      && (!e.failed && (forall i: nat :: !f.delete(i).DeleteFailed?) ==> x !in e.world)
  {
    if f.parsed {
      var gone, e0 := Obsolete(rs, Names(objs)), SyncFirst(api, w, objs, rs, f.apply, |objs|);
      SyncFirstEffect(api, w, objs, rs, f.apply, |objs|);
      OutsideIsSame(e0.world, w, api.KeysOf(ToWrite(objs, rs)), x);
      if !e0.failed {
        var e := PruneFirst(api, e0, gone, f.delete, |gone|);
        PruneRemovesOrKeeps(api, e0, gone, f.delete, |gone|, x);
        assert gone[..|gone|] == gone;
        if !e.failed && forall i: nat :: !f.delete(i).DeleteFailed? {
          PruneRemovesAll(api, e0, gone, f.delete, |gone|, x);
        }
      }
    }
  }

  // ---------------------------------------------------------------------------------------
  // The run
  // ---------------------------------------------------------------------------------------

  /** The keys to prune when the list is `rs`. */
  function GoneKeys(api: Api, objs: seq<Obj>, rs: seq<Res>): set<Key> {
    ResKeys(api, Obsolete(rs, Names(objs)))
  }

  /**
   In the middle of a run from `w0` and `rs0`: what was recorded is, what was not to prune is not, whatever is neither
   to write nor to prune is as it was, what has been recorded since is in place, and what is to prune is as it was or
   gone.
   */
  ghost predicate Midway(api: Api, objs: seq<Obj>, w0: World, rs0: seq<Res>, w: World, rs: seq<Res>) {
    && (forall o :: o in objs && Recorded(rs0, NameOf(o)) ==> Recorded(rs, NameOf(o)))
    && GoneKeys(api, objs, rs) <= GoneKeys(api, objs, rs0)
    && AgreeOutside(w, w0, TrackedEffect(api, objs, rs0).touched)
    && (forall o :: o in objs && !Recorded(rs0, NameOf(o)) && Recorded(rs, NameOf(o)) ==>
          api.KeyOf(o) in w && w[api.KeyOf(o)] == Owned(o))
    && (forall x | x in GoneKeys(api, objs, rs0) :: x !in w || SameAt(w0, w, x))
  }

  /** Nothing to prune has been forgotten: it is gone, or still listed. */
  ghost predicate Unforgotten(api: Api, objs: seq<Obj>, rs0: seq<Res>, w: World, rs: seq<Res>) {
    forall x | x in GoneKeys(api, objs, rs0) :: x !in w || x in GoneKeys(api, objs, rs)
  }

  lemma MidwayNoOverlap(api: Api, objs: seq<Obj>, w0: World, rs0: seq<Res>, w: World, rs: seq<Res>)
    requires NoOverlap(api, objs, rs0) && Midway(api, objs, w0, rs0, w, rs)
    ensures NoOverlap(api, objs, rs)
  {
    forall o, r | o in objs && !Recorded(rs, NameOf(o)) && r in Obsolete(rs, Names(objs))
      ensures api.KeyOf(o) != api.ResKey(r)
    {
      assert api.ResKey(r) in GoneKeys(api, objs, rs0);
      var q :| q in Obsolete(rs0, Names(objs)) && api.ResKey(q) == api.ResKey(r);
    }
  }

  /** A call, whatever it records, keeps the cluster midway; `rs2` is a list that records no less. */
  lemma CallStaysMidway(api: Api, objs: seq<Obj>, w0: World, rs0: seq<Res>, w: World, rs: seq<Res>, f: KubeFaults,
                        rs2: seq<Res>)
    requires UniqueNames(objs) && UniqueKeys(api, objs) && NoOverlap(api, objs, rs0)
    requires Midway(api, objs, w0, rs0, w, rs)
    requires forall o :: o in objs && Recorded(rs, NameOf(o)) ==> Recorded(rs2, NameOf(o))
    requires GoneKeys(api, objs, rs2) <= GoneKeys(api, objs, rs)
    requires var e := Apply(api, w, objs, rs, f);
      forall o :: o in objs && !Recorded(rs, NameOf(o)) && Recorded(rs2, NameOf(o)) ==>
        !e.failed && Recorded(e.resources, NameOf(o))
    ensures Midway(api, objs, w0, rs0, Apply(api, w, objs, rs, f).world, rs2)
  {
    var e := Apply(api, w, objs, rs, f);
    var eff0, eff := TrackedEffect(api, objs, rs0), TrackedEffect(api, objs, rs);
    MidwayNoOverlap(api, objs, w0, rs0, w, rs);
    ApplyFacts(api, w, objs, rs, f);
    assert eff.touched <= eff0.touched;
    AgreeMore(e.world, w, eff.touched, eff0.touched);
    forall o | o in objs && !Recorded(rs0, NameOf(o)) && Recorded(rs2, NameOf(o))
      ensures api.KeyOf(o) in e.world && e.world[api.KeyOf(o)] == Owned(o)
    {
      if Recorded(rs, NameOf(o)) {
        RecordedUntouched(api, objs, rs0, rs, o);
        OutsideIsSame(e.world, w, eff.touched, api.KeyOf(o));
      } else {
        NewlyRecorded(api, w, objs, rs, f, o);
      }
    }
    forall x | x in GoneKeys(api, objs, rs0) ensures x !in e.world || SameAt(w0, e.world, x) {
      GoneOrKept(api, objs, w0, rs0, w, rs, f, x);
    }
  }

  /** What has been recorded since the start no further call touches. */
  lemma RecordedUntouched(api: Api, objs: seq<Obj>, rs0: seq<Res>, rs: seq<Res>, o: Obj)
    requires UniqueKeys(api, objs) && NoOverlap(api, objs, rs0)
    requires GoneKeys(api, objs, rs) <= GoneKeys(api, objs, rs0)
    requires o in objs && !Recorded(rs0, NameOf(o)) && Recorded(rs, NameOf(o))
    ensures api.KeyOf(o) !in TrackedEffect(api, objs, rs).touched
  {
    assert api.KeyOf(o) !in GoneKeys(api, objs, rs0);
    forall p | p in ToWrite(objs, rs) ensures api.KeyOf(p) != api.KeyOf(o) {
    }
  }

  lemma GoneOrKept(api: Api, objs: seq<Obj>, w0: World, rs0: seq<Res>, w: World, rs: seq<Res>, f: KubeFaults, x: Key)
    requires NoOverlap(api, objs, rs0) && Midway(api, objs, w0, rs0, w, rs) && x in GoneKeys(api, objs, rs0)
    ensures var v := Apply(api, w, objs, rs, f).world; (x !in v || SameAt(w0, v, x)) && (x !in w ==> x !in v)
  {
    MidwayNoOverlap(api, objs, w0, rs0, w, rs);
    if x in GoneKeys(api, objs, rs) {
      PrunedOrKept(api, w, objs, rs, f, x);
    } else {
      ApplyFacts(api, w, objs, rs, f);
      assert x !in api.KeysOf(ToWrite(objs, rs)) by {
        var r :| r in Obsolete(rs0, Names(objs)) && api.ResKey(r) == x;
        assert forall o :: o in ToWrite(objs, rs) ==> o in objs && !Recorded(rs0, NameOf(o));
      }
      OutsideIsSame(Apply(api, w, objs, rs, f).world, w, TrackedEffect(api, objs, rs).touched, x);
    }
  }

  /** An error leaves no more to prune, and as much if no delete was refused. */
  lemma LeftoverGone(api: Api, w: World, objs: seq<Obj>, rs: seq<Res>, f: KubeFaults)
    ensures GoneKeys(api, objs, Leftover(api, w, objs, rs, f)) <= GoneKeys(api, objs, rs)
    ensures (forall i: nat :: !f.delete(i).DeleteFailed?) ==> Leftover(api, w, objs, rs, f) == rs
  {
    var left := Leftover(api, w, objs, rs, f);
    forall r | r in Obsolete(left, Names(objs)) ensures r in Obsolete(rs, Names(objs)) {
      var i :| 0 <= i < |left| && left[i] == r;
      assert left[i] == rs[i];
    }
  }

  /** A call without error leaves nothing to prune. */
  lemma NothingLeft(api: Api, w: World, objs: seq<Obj>, rs: seq<Res>, f: KubeFaults)
    requires !Apply(api, w, objs, rs, f).failed
    ensures GoneKeys(api, objs, Apply(api, w, objs, rs, f).resources) == {}
  {
    var gone, e0, e := Obsolete(rs, Names(objs)), SyncFirst(api, w, objs, rs, f.apply, |objs|),
      Apply(api, w, objs, rs, f);
    PruneFirstAppends(api, e0, gone, f.delete, |gone|);
    SyncFirstNames(api, w, objs, rs, f.apply, |objs|);
    assert objs[..|objs|] == objs;
    forall i | 0 <= i < |e.resources| && e.resources[i].status == Synced
      ensures ResName(e.resources[i]) in Names(objs)
    {
      assert i < |e0.resources|;
      assert e.resources[i] == e0.resources[i] && e0.resources[i] in e0.resources;
    }
    NothingObsolete(e.resources, Names(objs));
  }

  /** One attempt on the cluster `w` with the list `rs`: the cluster after it, and the list that is persisted. */
  ghost predicate Attempted(api: Api, objs: seq<Obj>, f: KubeFaults, w: World, rs: seq<Res>, v: World, rs2: seq<Res>) {
    var e := Apply(api, w, objs, rs, f);
    (v == w && rs2 == rs)
    || (v == e.world && (rs2 == rs || rs2 == if e.failed then Leftover(api, w, objs, rs, f) else e.resources))
  }

  lemma AttemptStaysMidway(api: Api, objs: seq<Obj>, w0: World, rs0: seq<Res>, f: KubeFaults, w: World, rs: seq<Res>,
                           v: World, rs2: seq<Res>)
    requires UniqueNames(objs) && UniqueKeys(api, objs) && NoOverlap(api, objs, rs0)
    requires Midway(api, objs, w0, rs0, w, rs) && Attempted(api, objs, f, w, rs, v, rs2)
    ensures Midway(api, objs, w0, rs0, v, rs2)
  {
    var e := Apply(api, w, objs, rs, f);
    if v == e.world && rs2 == rs {
      CallStaysMidway(api, objs, w0, rs0, w, rs, f, rs);
    } else if v == e.world && e.failed {
      LeftoverGone(api, w, objs, rs, f);
      forall o | o in objs ensures Recorded(rs2, NameOf(o)) <==> Recorded(rs, NameOf(o)) {
        LeftoverRecords(api, w, objs, rs, f, o);
      }
      CallStaysMidway(api, objs, w0, rs0, w, rs, f, rs2);
    } else if v == e.world {
      NothingLeft(api, w, objs, rs, f);
      forall o | o in objs && Recorded(rs, NameOf(o)) ensures Recorded(rs2, NameOf(o)) {
        var i :| 0 <= i < |objs| && objs[i] == o;
        ApplyRecordsExactly(api, w, objs, rs, f, i);
      }
      CallStaysMidway(api, objs, w0, rs0, w, rs, f, rs2);
    }
  }

  /** An attempt in which no delete is refused forgets nothing. */
  lemma AttemptForgetsNothing(api: Api, objs: seq<Obj>, w0: World, rs0: seq<Res>, f: KubeFaults, w: World,
                              rs: seq<Res>, v: World, rs2: seq<Res>)
    requires NoOverlap(api, objs, rs0) && Midway(api, objs, w0, rs0, w, rs) && Attempted(api, objs, f, w, rs, v, rs2)
    requires Unforgotten(api, objs, rs0, w, rs) && forall i: nat :: !f.delete(i).DeleteFailed?
    ensures Unforgotten(api, objs, rs0, v, rs2)
  {
    var e := Apply(api, w, objs, rs, f);
    MidwayNoOverlap(api, objs, w0, rs0, w, rs);
    LeftoverGone(api, w, objs, rs, f);
    forall x | x in GoneKeys(api, objs, rs0) ensures x !in v || x in GoneKeys(api, objs, rs2) {
      GoneOrKept(api, objs, w0, rs0, w, rs, f, x);
      if x in GoneKeys(api, objs, rs) {
        PrunedOrKept(api, w, objs, rs, f, x);
      }
    }
  }

  /** What a reconcile does is an attempt. */
  lemma ReconcileAttempts(api: Api, inp: Inputs, s: State, f: Faults)
    requires Attempting(s.addon, inp)
    ensures var t := Reconcile(api, s, inp, f).state;
      Attempted(api, inp.whole, f.whole, s.world, s.addon.resources, t.world, t.addon.resources)
  {
    AttemptOutcome(api, inp, s, f);
  }

  ghost predicate NoneRefused(fs: seq<Faults>) {
    forall k | 0 <= k < |fs| :: forall i: nat :: !fs[k].whole.delete(i).DeleteFailed?
  }

  lemma {:induction false} RunMidway(api: Api, inp: Inputs, s0: State, fs: seq<Faults>)
    requires Attempting(s0.addon, inp)
    requires UniqueNames(inp.whole) && UniqueKeys(api, inp.whole) && NoOverlap(api, inp.whole, s0.addon.resources)
    ensures var x := RunHook(api, s0, inp, fs); var t, rs0 := x.state, s0.addon.resources;
      && Midway(api, inp.whole, s0.world, rs0, t.world, t.addon.resources)
      && (NoneRefused(fs) ==> Unforgotten(api, inp.whole, rs0, t.world, t.addon.resources))
      && if x.finished.None? then Attempting(t.addon, inp)
         else
           AtRest(inp.class_, t.addon) && GoneKeys(api, inp.whole, t.addon.resources) == {}
           && forall o :: o in inp.whole ==> Recorded(t.addon.resources, NameOf(o))
    decreases |fs|
  {
    if fs != [] {
      var front, f := fs[..|fs| - 1], fs[|fs| - 1];
      RunMidway(api, inp, s0, front);
      var x := RunHook(api, s0, inp, front);
      if x.finished.None? {
        var s, t := x.state, Reconcile(api, x.state, inp, f).state;
        var rs0, rs, rs2 := s0.addon.resources, s.addon.resources, t.addon.resources;
        AttemptOutcome(api, inp, s, f);
        ReconcileAttempts(api, inp, s, f);
        AttemptStaysMidway(api, inp.whole, s0.world, rs0, f.whole, s.world, rs, t.world, rs2);
        if NoneRefused(fs) {
          assert NoneRefused(front);
          AttemptForgetsNothing(api, inp.whole, s0.world, rs0, f.whole, s.world, rs, t.world, rs2);
        }
        if Reconcile(api, s, inp, f).finished.Some? {
          NothingLeft(api, s.world, inp.whole, rs, f.whole);
          AllRecorded(api, s.world, inp.whole, rs, f.whole);
        }
      }
    }
  }

  lemma AllRecorded(api: Api, w: World, objs: seq<Obj>, rs: seq<Res>, f: KubeFaults)
    requires UniqueNames(objs) && var e := Apply(api, w, objs, rs, f); !e.failed && !e.requeue
    ensures forall o :: o in objs ==> Recorded(Apply(api, w, objs, rs, f).resources, NameOf(o))
  {
    var rs2 := Apply(api, w, objs, rs, f).resources;
    ApplyListFollowsTemplate(api, w, objs, rs, f);
    forall o | o in objs ensures Recorded(rs2, NameOf(o)) {
      var i :| 0 <= i < |objs| && objs[i] == o;
      LookupUnique(rs2, i);
    }
  }

  /**
   Single-stage runs converge.  However often the reconciles failed, half-way or before persisting, once one finishes:
   every object of the chart that was not recorded before the run is in place as rendered and labelled; every other key
   is as before the run, but that those to prune may be gone; and if no delete was refused, they are gone, so that the
   cluster is that of one undisturbed call.
   */
  lemma SingleStageConverges(api: Api, inp: Inputs, s0: State, fs: seq<Faults>)
    requires Attempting(s0.addon, inp)
    requires UniqueNames(inp.whole) && UniqueKeys(api, inp.whole) && NoOverlap(api, inp.whole, s0.addon.resources)
    requires RunHook(api, s0, inp, fs).finished.Some?
    ensures var end, rs0 := RunHook(api, s0, inp, fs).state.world, s0.addon.resources;
      && AtRest(inp.class_, RunHook(api, s0, inp, fs).state.addon)
      && (forall o :: o in inp.whole && !Recorded(rs0, NameOf(o)) ==>
            api.KeyOf(o) in end && end[api.KeyOf(o)] == o.(owned := true))
      && (forall x | forall o :: o in inp.whole && !Recorded(rs0, NameOf(o)) ==> api.KeyOf(o) != x ::
            SameAt(s0.world, end, x) || (x !in end && x in GoneKeys(api, inp.whole, rs0)))
      && (NoneRefused(fs) ==> end == TrackedEffect(api, inp.whole, rs0).Run(s0.world))
  {
    var end, rs0 := RunHook(api, s0, inp, fs).state.world, s0.addon.resources;
    var eff := TrackedEffect(api, inp.whole, rs0);
    RunMidway(api, inp, s0, fs);
    forall x | forall o :: o in inp.whole && !Recorded(rs0, NameOf(o)) ==> api.KeyOf(o) != x
      ensures SameAt(s0.world, end, x) || (x !in end && x in GoneKeys(api, inp.whole, rs0))
    {
      if x !in GoneKeys(api, inp.whole, rs0) {
        OutsideIsSame(end, s0.world, eff.touched, x);
      }
    }
    if NoneRefused(fs) {
      EndIsEffect(api, inp.whole, s0.world, rs0, end);
    }
  }

  lemma EndIsEffect(api: Api, objs: seq<Obj>, w0: World, rs0: seq<Res>, end: World)
    requires UniqueKeys(api, objs) && NoOverlap(api, objs, rs0)
    requires AgreeOutside(end, w0, TrackedEffect(api, objs, rs0).touched)
    requires forall o :: o in objs && !Recorded(rs0, NameOf(o)) ==> api.KeyOf(o) in end && end[api.KeyOf(o)] == Owned(o)
    requires forall x :: x in GoneKeys(api, objs, rs0) ==> x !in end
    ensures end == TrackedEffect(api, objs, rs0).Run(w0)
  {
    var eff, todo := TrackedEffect(api, objs, rs0), ToWrite(objs, rs0);
    var want := eff.Run(w0);
    forall x ensures SameAt(want, end, x) {
      if x !in eff.touched {
        OutsideIsSame(end, w0, eff.touched, x);
      } else if x !in GoneKeys(api, objs, rs0) {
        var o :| o in todo && api.KeyOf(o) == x;
        PutAllHas(api, todo, o);
      }
    }
    SameEverywhere(want, end);
  }

  /** A reconcile whose calls are all answered. */
  ghost predicate CleanApply(f: Faults) {
    Reached(f) && f.patched && f.whole.None()
  }

  lemma {:induction false} CleanLoops(api: Api, w: World, objs: seq<Obj>, rs: seq<Res>, f: KubeFaults, n: nat)
    requires n <= |objs| && f.None()
    ensures var e := SyncFirst(api, w, objs, rs, f.apply, n); !e.failed && !e.requeue
  {
    if n > 0 {
      CleanLoops(api, w, objs, rs, f, n - 1);
    }
  }

  lemma {:induction false} CleanPrune(api: Api, start: Engine, rs: seq<Res>, f: KubeFaults, n: nat)
    requires n <= |rs| && f.None() && !start.failed && !start.requeue
    ensures var e := PruneFirst(api, start, rs, f.delete, n); !e.failed && !e.requeue
  {
    if n > 0 {
      CleanPrune(api, start, rs, f, n - 1);
    }
  }

  /** In every run with one such reconcile some reconcile finishes. */
  lemma {:induction false} CleanReconcileFinishes(api: Api, inp: Inputs, s0: State, fs: seq<Faults>, k: nat)
    requires Attempting(s0.addon, inp) && k < |fs| && CleanApply(fs[k])
    ensures RunHook(api, s0, inp, fs).finished.Some?
    decreases |fs|
  {
    var front, f := fs[..|fs| - 1], fs[|fs| - 1];
    if k < |fs| - 1 {
      CleanReconcileFinishes(api, inp, s0, front, k);
    } else {
      StillAttempting(api, inp, s0, front);
      var s := RunHook(api, s0, inp, front).state;
      if RunHook(api, s0, inp, front).finished.None? {
        var rs, objs := s.addon.resources, inp.whole;
        CleanLoops(api, s.world, objs, rs, f.whole, |objs|);
        var gone := Obsolete(rs, Names(objs));
        CleanPrune(api, SyncFirst(api, s.world, objs, rs, f.whole.apply, |objs|), gone, f.whole, |gone|);
        AttemptOutcome(api, inp, s, f);
      }
    }
  }

  lemma {:induction false} StillAttempting(api: Api, inp: Inputs, s0: State, fs: seq<Faults>)
    requires Attempting(s0.addon, inp)
    ensures var x := RunHook(api, s0, inp, fs); x.finished.None? ==> Attempting(x.state.addon, inp)
    decreases |fs|
  {
    if fs != [] {
      StillAttempting(api, inp, s0, fs[..|fs| - 1]);
      var x := RunHook(api, s0, inp, fs[..|fs| - 1]);
      if x.finished.None? {
        AttemptOutcome(api, inp, x.state, fs[|fs| - 1]);
      }
    }
  }
}
