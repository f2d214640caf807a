/** What `Apply` and `ApplyNewClusterStack` write and what they record, for all templates and faults. */
module KubeFacts {
  import opened Results
  import opened Kube

  ghost predicate UniqueNames(objs: seq<Obj>) {
    forall i, j :: 0 <= i < j < |objs| ==> NameOf(objs[i]) != NameOf(objs[j])
  }

  // ---------------------------------------------------------------------------------------
  // Requests
  // ---------------------------------------------------------------------------------------

  function Removed(calls: seq<Call>): seq<Key> {
    if calls == [] then []
    else
      var r := Removed(calls[..|calls| - 1]);
      match calls[|calls| - 1]
      case Put(_, _) => r
      case Remove(k) => r + [k]
  }

  function KeysOfRes(api: Api, rs: seq<Res>): (r: seq<Key>)
    ensures |r| == |rs|
    ensures forall i :: 0 <= i < |rs| ==> r[i] == api.ResKey(rs[i])
  {
    seq(|rs|, i requires 0 <= i < |rs| => api.ResKey(rs[i]))
  }

  lemma RemovedSnoc(calls: seq<Call>, c: Call)
    ensures Removed(calls + [c]) == Removed(calls) + (if c.Remove? then [c.key] else [])
  {
    assert (calls + [c])[..|calls|] == calls;
  }

  lemma PutOneRemovesNothing(api: Api, e: Engine, o: Obj, fault: ApplyFault)
    ensures Removed(PutOne(api, e, o, fault).calls) == Removed(e.calls)
  {
    RemovedSnoc(e.calls, Put(api.KeyOf(o), Owned(o)));
  }

  lemma SyncOneRemovesNothing(api: Api, e: Engine, prev: seq<Res>, o: Obj, fault: ApplyFault)
    ensures Removed(SyncOne(api, e, prev, o, fault).calls) == Removed(e.calls)
  {
    RemovedSnoc(e.calls, Put(api.KeyOf(o), Owned(o)));
  }

  lemma PruneOneRemoves(api: Api, e: Engine, r: Res, fault: DeleteFault)
    ensures Removed(PruneOne(api, e, r, fault).calls)
      == Removed(e.calls) + (if fault.DeleteAborted? then [] else [api.ResKey(r)])
  {
    RemovedSnoc(e.calls, Remove(api.ResKey(r)));
  }

  lemma {:induction false} PutFirstRemovesNothing(api: Api, w: World, objs: seq<Obj>, faults: nat -> ApplyFault, n: nat)
    requires n <= |objs|
    ensures Removed(PutFirst(api, w, objs, faults, n).calls) == []
  {
    if n > 0 {
      PutFirstRemovesNothing(api, w, objs, faults, n - 1);
      PutOneRemovesNothing(api, PutFirst(api, w, objs, faults, n - 1), objs[n - 1], faults(n - 1));
    }
  }

  lemma {:induction false} SyncFirstRemovesNothing(
    api: Api, w: World, objs: seq<Obj>, prev: seq<Res>, faults: nat -> ApplyFault, n: nat)
    requires n <= |objs|
    ensures Removed(SyncFirst(api, w, objs, prev, faults, n).calls) == []
  {
    if n > 0 {
      SyncFirstRemovesNothing(api, w, objs, prev, faults, n - 1);
      SyncOneRemovesNothing(api, SyncFirst(api, w, objs, prev, faults, n - 1), prev, objs[n - 1], faults(n - 1));
    }
  }

  lemma KeysOfResSnoc(api: Api, rs: seq<Res>, n: nat)
    requires n < |rs|
    ensures KeysOfRes(api, rs[..n + 1]) == KeysOfRes(api, rs[..n]) + [api.ResKey(rs[n])]
  {
  }

  lemma {:induction false} PruneFirstRemoves(api: Api, start: Engine, rs: seq<Res>, faults: nat -> DeleteFault, n: nat)
    requires n <= |rs| && Removed(start.calls) == [] && !start.failed
    ensures Removed(PruneFirst(api, start, rs, faults, n).calls) <= KeysOfRes(api, rs[..n])
    ensures !PruneFirst(api, start, rs, faults, n).failed ==>
      Removed(PruneFirst(api, start, rs, faults, n).calls) == KeysOfRes(api, rs[..n])
  {
    if n > 0 {
      PruneFirstRemoves(api, start, rs, faults, n - 1);
      var e0 := PruneFirst(api, start, rs, faults, n - 1);
      KeysOfResSnoc(api, rs, n - 1);
      if e0.failed {
        assert PruneFirst(api, start, rs, faults, n) == e0;
      } else {
        var e := PruneOne(api, e0, rs[n - 1], faults(n - 1));
        assert PruneFirst(api, start, rs, faults, n) == e;
        PruneOneRemoves(api, e0, rs[n - 1], faults(n - 1));
      }
    }
  }

  /**
   Prune exactness: the deletes that `ApplyNewClusterStack` attempts are, in order, those of the old
   objects whose namespace and name the new template lacks; all of them unless the call errs.
   */
  lemma ApplyNewPrunesExactly(api: Api, w: World, prev: seq<Obj>, next: seq<Obj>, faults: KubeFaults)
    ensures var e := ApplyNew(api, w, prev, next, faults);
      var gone := FromObjs(Pruned(prev, Names(next)));
      && Removed(e.calls) <= KeysOfRes(api, gone)
      && (!e.failed ==> Removed(e.calls) == KeysOfRes(api, gone))
      && (forall i :: 0 <= i < |gone| ==> ResName(gone[i]) !in Names(next))
  {
    var gone := FromObjs(Pruned(prev, Names(next)));
    forall i | 0 <= i < |gone| ensures ResName(gone[i]) !in Names(next) {
      assert Pruned(prev, Names(next))[i] in Pruned(prev, Names(next));
    }
    if faults.parsed {
      var e := PutFirst(api, w, next, faults.apply, |next|);
      PutFirstRemovesNothing(api, w, next, faults.apply, |next|);
      if !e.failed {
        PruneFirstRemoves(api, e, gone, faults.delete, |gone|);
        assert gone[..|gone|] == gone;
      }
    }
  }

  /** Prune exactness of `Apply`: only tracked entries that are synced count. */
  lemma ApplyPrunesExactly(api: Api, w: World, objs: seq<Obj>, prev: seq<Res>, faults: KubeFaults)
    ensures var e := Apply(api, w, objs, prev, faults);
      var gone := Obsolete(prev, Names(objs));
      && Removed(e.calls) <= KeysOfRes(api, gone)
      && (!e.failed ==> Removed(e.calls) == KeysOfRes(api, gone))
  {
    if faults.parsed {
      var e := SyncFirst(api, w, objs, prev, faults.apply, |objs|);
      SyncFirstRemovesNothing(api, w, objs, prev, faults.apply, |objs|);
      if !e.failed {
        var gone := Obsolete(prev, Names(objs));
        PruneFirstRemoves(api, e, gone, faults.delete, |gone|);
        assert gone[..|gone|] == gone;
      }
    }
  }

  // ---------------------------------------------------------------------------------------
  // The list that Apply returns
  // ---------------------------------------------------------------------------------------

  /** The entries that pruning adds: obsolete ones, not synced. */
  lemma {:induction false} PruneFirstAppends(api: Api, start: Engine, rs: seq<Res>, faults: nat -> DeleteFault, n: nat)
    requires n <= |rs|
    ensures var e := PruneFirst(api, start, rs, faults, n);
      && (start.failed ==> e.failed) && (start.requeue ==> e.requeue)
      && start.resources <= e.resources
      && (forall i :: |start.resources| <= i < |e.resources| ==>
            e.resources[i].status == NotSynced && exists x :: x in rs && ResName(x) == ResName(e.resources[i]))
      && (!e.requeue && !e.failed ==> e.resources == start.resources)
  {
    if n > 0 {
      PruneFirstAppends(api, start, rs, faults, n - 1);
      assert rs[n - 1] in rs;
    }
  }

  /** Names recorded by the first `n` steps, and nothing else. */
  lemma {:induction false} SyncFirstNames(
    api: Api, w: World, objs: seq<Obj>, prev: seq<Res>, faults: nat -> ApplyFault, n: nat)
    requires n <= |objs|
    ensures forall x :: x in SyncFirst(api, w, objs, prev, faults, n).resources ==> ResName(x) in Names(objs[..n])
  {
    if n > 0 {
      SyncFirstNames(api, w, objs, prev, faults, n - 1);
      assert objs[..n] == objs[..n - 1] + [objs[n - 1]];
    }
  }

  /** One synced entry per object, in order. */
  ghost predicate FollowsFirst(rs: seq<Res>, objs: seq<Obj>, n: nat)
    requires n <= |objs|
  {
    |rs| == n && forall i :: 0 <= i < n ==> rs[i].status == Synced && ResName(rs[i]) == NameOf(objs[i])
  }

  lemma SyncOneFollows(api: Api, e: Engine, prev: seq<Res>, o: Obj, fault: ApplyFault) returns (r: Res)
    requires var e1 := SyncOne(api, e, prev, o, fault); !e1.failed && !e1.requeue
    ensures !e.failed && !e.requeue && r.status == Synced && ResName(r) == NameOf(o)
    ensures SyncOne(api, e, prev, o, fault).resources == e.resources + [r]
  {
    r := if Recorded(prev, NameOf(o)) then Lookup(prev, NameOf(o)).value else FromObj(o).(status := Synced);
  }

  lemma FollowsMore(rs: seq<Res>, objs: seq<Obj>, n: nat, r: Res)
    requires n < |objs| && FollowsFirst(rs, objs, n) && r.status == Synced && ResName(r) == NameOf(objs[n])
    ensures FollowsFirst(rs + [r], objs, n + 1)
  {
  }

  /** Without requeue there is one synced entry per object, in order. */
  lemma {:induction false} SyncFirstFollows(
    api: Api, w: World, objs: seq<Obj>, prev: seq<Res>, faults: nat -> ApplyFault, n: nat)
    requires n <= |objs|
    requires var e := SyncFirst(api, w, objs, prev, faults, n); !e.failed && !e.requeue
    ensures FollowsFirst(SyncFirst(api, w, objs, prev, faults, n).resources, objs, n)
  {
    if n > 0 {
      var e := SyncFirst(api, w, objs, prev, faults, n - 1);
      var r := SyncOneFollows(api, e, prev, objs[n - 1], faults(n - 1));
      SyncFirstFollows(api, w, objs, prev, faults, n - 1);
      FollowsMore(e.resources, objs, n - 1, r);
    }
  }

  /** `Apply` without error and requeue: the list is all synced and follows the template in order. */
  lemma ApplyListFollowsTemplate(api: Api, w: World, objs: seq<Obj>, prev: seq<Res>, faults: KubeFaults)
    requires var e := Apply(api, w, objs, prev, faults); !e.failed && !e.requeue
    ensures var rs := Apply(api, w, objs, prev, faults).resources;
      |rs| == |objs| && forall i :: 0 <= i < |rs| ==> rs[i].status == Synced && ResName(rs[i]) == NameOf(objs[i])
  {
    var gone := Obsolete(prev, Names(objs));
    var e := SyncFirst(api, w, objs, prev, faults.apply, |objs|);
    PruneFirstAppends(api, e, gone, faults.delete, |gone|);
    SyncFirstFollows(api, w, objs, prev, faults.apply, |objs|);
  }

  lemma {:induction false} NothingObsolete(rs: seq<Res>, now: set<Name>)
    requires forall i :: 0 <= i < |rs| && rs[i].status == Synced ==> ResName(rs[i]) in now
    ensures Obsolete(rs, now) == []
  {
    if rs != [] {
      NothingObsolete(rs[..|rs| - 1], now);
    }
  }

  /** With every template name recorded as synced, the first loop writes nothing. */
  lemma {:induction false} SyncFirstIdle(
    api: Api, w: World, objs: seq<Obj>, prev: seq<Res>, faults: nat -> ApplyFault, n: nat)
    requires n <= |objs|
    requires forall i :: 0 <= i < |objs| ==> Recorded(prev, NameOf(objs[i]))
    ensures var e := SyncFirst(api, w, objs, prev, faults, n);
      && e.world == w && e.calls == [] && !e.failed && !e.requeue && |e.resources| == n
      && forall i :: 0 <= i < n ==> Lookup(prev, NameOf(objs[i])) == Some(e.resources[i])
  {
    if n > 0 {
      SyncFirstIdle(api, w, objs, prev, faults, n - 1);
    }
  }

  lemma {:induction false} LookupUnique(rs: seq<Res>, i: nat)
    requires i < |rs|
    requires forall j :: 0 <= j < |rs| && j != i ==> ResName(rs[j]) != ResName(rs[i])
    ensures Lookup(rs, ResName(rs[i])) == Some(rs[i])
  {
    if i < |rs| - 1 {
      var front := rs[..|rs| - 1];
      LookupUnique(front, i);
    }
  }

  /**
   Apply fixpoint: calling `Apply` again with the list of a call that finished sends no request at all
   and changes nothing; it returns the same list exactly when every entry is the one that
   `getResourceMap` keeps for its name, which holds when the template's names are unique.
   */
  lemma ApplyFixpoint(api: Api, w: World, objs: seq<Obj>, prev: seq<Res>, f1: KubeFaults, f2: KubeFaults)
    requires var e := Apply(api, w, objs, prev, f1); !e.failed && !e.requeue
    requires f2.parsed
    ensures var e1 := Apply(api, w, objs, prev, f1);
      var e2 := Apply(api, e1.world, objs, e1.resources, f2);
      && e2.world == e1.world && e2.calls == [] && !e2.failed && !e2.requeue
      && |e1.resources| == |objs|
      && (e2.resources == e1.resources <==>
            forall i :: 0 <= i < |objs| ==> Lookup(e1.resources, NameOf(objs[i])) == Some(e1.resources[i]))
      && (UniqueNames(objs) ==> e2.resources == e1.resources)
  {
    ApplyListFollowsTemplate(api, w, objs, prev, f1);
    var e1 := Apply(api, w, objs, prev, f1);
    var rs := e1.resources;
    forall i | 0 <= i < |objs| ensures Recorded(rs, NameOf(objs[i])) {
      assert rs[i] in rs;
    }
    SyncFirstIdle(api, e1.world, objs, rs, f2.apply, |objs|);
    forall x | x in rs ensures ResName(x) in Names(objs) {
      var i :| 0 <= i < |rs| && rs[i] == x;
      assert objs[i] in objs;
    }
    NothingObsolete(rs, Names(objs));
    if UniqueNames(objs) {
      forall i | 0 <= i < |objs| ensures Lookup(rs, NameOf(objs[i])) == Some(rs[i]) {
        LookupUnique(rs, i);
      }
    }
  }

  lemma {:induction false} LookupAppend(rs: seq<Res>, more: seq<Res>, name: Name)
    requires forall x :: x in more ==> ResName(x) != name
    ensures Lookup(rs + more, name) == Lookup(rs, name)
    decreases |more|
  {
    if more == [] {
      assert rs + more == rs;
    } else {
      var all := rs + more;
      assert all[..|all| - 1] == rs + more[..|more| - 1];
      assert all[|all| - 1] == more[|more| - 1] && all[|all| - 1] in more;
      LookupAppend(rs, more[..|more| - 1], name);
    }
  }

  /** What the first `n` steps leave recorded for one object of the template. */
  lemma {:induction false} SyncFirstRecords(
    api: Api, w: World, objs: seq<Obj>, prev: seq<Res>, faults: nat -> ApplyFault, n: nat, i: nat)
    requires i < n <= |objs| && UniqueNames(objs)
    requires !SyncFirst(api, w, objs, prev, faults, n).failed
    ensures Recorded(SyncFirst(api, w, objs, prev, faults, n).resources, NameOf(objs[i]))
      <==> Recorded(prev, NameOf(objs[i])) || faults(i) == ApplyOk
  {
    var e0, e := SyncFirst(api, w, objs, prev, faults, n - 1), SyncFirst(api, w, objs, prev, faults, n);
    if i < n - 1 {
      SyncFirstRecords(api, w, objs, prev, faults, n - 1, i);
      SyncOneOthers(api, e0, prev, objs[n - 1], faults(n - 1), NameOf(objs[i]));
    } else {
      SyncFirstNames(api, w, objs, prev, faults, n - 1);
      assert Lookup(e0.resources, NameOf(objs[i])).None? by {
        assert NameOf(objs[i]) !in Names(objs[..n - 1]);
      }
      SyncOneOwn(api, e0, prev, objs[i], faults(i));
    }
  }

  lemma SyncOneOthers(api: Api, e: Engine, prev: seq<Res>, o: Obj, fault: ApplyFault, name: Name)
    requires name != NameOf(o)
    ensures Lookup(SyncOne(api, e, prev, o, fault).resources, name) == Lookup(e.resources, name)
  {
    var more := SyncOne(api, e, prev, o, fault).resources[|e.resources|..];
    assert SyncOne(api, e, prev, o, fault).resources == e.resources + more;
    LookupAppend(e.resources, more, name);
  }

  lemma SyncOneOwn(api: Api, e: Engine, prev: seq<Res>, o: Obj, fault: ApplyFault)
    requires Lookup(e.resources, NameOf(o)).None? && !SyncOne(api, e, prev, o, fault).failed
    ensures Recorded(SyncOne(api, e, prev, o, fault).resources, NameOf(o)) 
      <==> Recorded(prev, NameOf(o)) || fault == ApplyOk
  {
  }

  /**
   Exactly the objects that were recorded as synced before, or applied without fault now, are recorded
   as synced after a call that did not err.
   */
  lemma ApplyRecordsExactly(api: Api, w: World, objs: seq<Obj>, prev: seq<Res>, faults: KubeFaults, i: nat)
    requires i < |objs| && UniqueNames(objs)
    requires !Apply(api, w, objs, prev, faults).failed
    ensures Recorded(Apply(api, w, objs, prev, faults).resources, NameOf(objs[i]))
      <==> Recorded(prev, NameOf(objs[i])) || faults.apply(i) == ApplyOk
  {
    var gone := Obsolete(prev, Names(objs));
    var e0 := SyncFirst(api, w, objs, prev, faults.apply, |objs|);
    var e := Apply(api, w, objs, prev, faults);
    PruneFirstAppends(api, e0, gone, faults.delete, |gone|);
    SyncFirstRecords(api, w, objs, prev, faults.apply, |objs|, i);
    var more := e.resources[|e0.resources|..];
    assert e.resources == e0.resources + more;
    forall x | x in more ensures ResName(x) != NameOf(objs[i]) {
      var j :| 0 <= j < |more| && more[j] == x;
      assert e.resources[|e0.resources| + j] == x;
      assert objs[i] in objs;
    }
    LookupAppend(e0.resources, more, NameOf(objs[i]));
  }

  /** Template names not yet recorded as synced. */
  function Outstanding(objs: seq<Obj>, rs: seq<Res>): set<Name> {
    set o | o in objs && !Recorded(rs, NameOf(o)) :: NameOf(o)
  }

  lemma SubsetSize<T>(a: set<T>, b: set<T>)
    requires a <= b
    ensures |a| <= |b|
  {
    assert b == a + (b - a);
  }

  /** The tracked list after the calls `faults[0]`, `faults[1]`, ...; a call that errs keeps the old one. */
  function ApplyAll(api: Api, w: World, objs: seq<Obj>, rs: seq<Res>, faults: seq<KubeFaults>): (World, seq<Res>)
    decreases |faults|
  {
    if faults == [] then (w, rs)
    else
      var s := ApplyAll(api, w, objs, rs, faults[..|faults| - 1]);
      var e := Apply(api, s.0, objs, s.1, faults[|faults| - 1]);
      (e.world, if e.failed then Leftover(api, s.0, objs, s.1, faults[|faults| - 1]) else e.resources)
  }

  /** Marks in place are not on entries that the template names. */
  lemma {:induction false} LookupLeft(prev: seq<Res>, left: seq<Res>, now: set<Name>, name: Name)
    requires |left| == |prev| && name in now
    requires forall i | 0 <= i < |prev| ::
      ResName(left[i]) == ResName(prev[i]) && (ResName(prev[i]) in now ==> left[i] == prev[i])
    ensures Lookup(left, name) == Lookup(prev, name)
  {
    if prev != [] {
      LookupLeft(prev[..|prev| - 1], left[..|left| - 1], now, name);
    }
  }

  /** An error leaves every name of the template recorded as it was. */
  lemma LeftoverRecords(api: Api, w: World, objs: seq<Obj>, prev: seq<Res>, faults: KubeFaults, o: Obj)
    requires o in objs
    ensures Recorded(Leftover(api, w, objs, prev, faults), NameOf(o)) <==> Recorded(prev, NameOf(o))
  {
    LookupLeft(prev, Leftover(api, w, objs, prev, faults), Names(objs), NameOf(o));
  }

  lemma OneCallKeepsRecords(api: Api, w: World, objs: seq<Obj>, rs: seq<Res>, f: KubeFaults)
    requires UniqueNames(objs)
    ensures Outstanding(objs, ApplyAll(api, w, objs, rs, [f]).1) <= Outstanding(objs, rs)
  {
    assert [f][..0] == [];
    assert ApplyAll(api, w, objs, rs, []) == (w, rs);
    var end := ApplyAll(api, w, objs, rs, [f]).1;
    forall o | o in objs && Recorded(rs, NameOf(o)) ensures Recorded(end, NameOf(o)) {
      if Apply(api, w, objs, rs, f).failed {
        LeftoverRecords(api, w, objs, rs, f, o);
      } else {
        var i :| 0 <= i < |objs| && objs[i] == o;
        ApplyRecordsExactly(api, w, objs, rs, f, i);
      }
    }
  }

  /** Over repeated calls nothing that was synced is lost and the outstanding count never grows. */
  lemma {:induction false} OutstandingNeverGrows(api: Api, w: World, objs: seq<Obj>, rs: seq<Res>,
                                                 faults: seq<KubeFaults>)
    requires UniqueNames(objs)
    ensures var end := ApplyAll(api, w, objs, rs, faults).1;
      Outstanding(objs, end) <= Outstanding(objs, rs) && |Outstanding(objs, end)| <= |Outstanding(objs, rs)|
    decreases |faults|
  {
    if faults != [] {
      var before, f := faults[..|faults| - 1], faults[|faults| - 1];
      OutstandingNeverGrows(api, w, objs, rs, before);
      var s := ApplyAll(api, w, objs, rs, before);
      OneCallKeepsRecords(api, s.0, objs, s.1, f);
      LastCall(api, w, objs, rs, faults);
      SubsetSize(Outstanding(objs, ApplyAll(api, w, objs, rs, faults).1), Outstanding(objs, rs));
    }
  }

  lemma LastCall(api: Api, w: World, objs: seq<Obj>, rs: seq<Res>, faults: seq<KubeFaults>)
    requires faults != []
    ensures var s := ApplyAll(api, w, objs, rs, faults[..|faults| - 1]);
      ApplyAll(api, w, objs, rs, faults) == ApplyAll(api, s.0, objs, s.1, [faults[|faults| - 1]])
  {
    var s, f := ApplyAll(api, w, objs, rs, faults[..|faults| - 1]), faults[|faults| - 1];
    assert [f][..0] == [];
    assert ApplyAll(api, s.0, objs, s.1, []) == s;
  }

  /** A request for an object is sent only if its name was not recorded as synced. */
  lemma {:induction false} SyncFirstSkips(
    api: Api, w: World, objs: seq<Obj>, prev: seq<Res>, faults: nat -> ApplyFault, n: nat)
    requires n <= |objs|
    ensures var e := SyncFirst(api, w, objs, prev, faults, n);
      forall c :: c in e.calls ==>
        c.Put? && exists o :: o in objs && !Recorded(prev, NameOf(o)) && c == Put(api.KeyOf(o), Owned(o))
  {
    if n > 0 {
      SyncFirstSkips(api, w, objs, prev, faults, n - 1);
      assert objs[n - 1] in objs;
    }
  }

  lemma {:induction false} PruneFirstOnlyRemoves(api: Api, start: Engine, rs: seq<Res>, faults: nat -> DeleteFault,
      n: nat)
    requires n <= |rs|
    ensures forall c :: c in PruneFirst(api, start, rs, faults, n).calls && c.Put? ==> c in start.calls
  {
    if n > 0 {
      PruneFirstOnlyRemoves(api, start, rs, faults, n - 1);
    }
  }

  /** Every write of one call is for an outstanding name. */
  lemma WritesOutstanding(api: Api, w: World, objs: seq<Obj>, prev: seq<Res>, faults: KubeFaults)
    ensures forall c :: c in Apply(api, w, objs, prev, faults).calls && c.Put? ==>
      exists o :: o in objs && NameOf(o) in Outstanding(objs, prev) && c == Put(api.KeyOf(o), Owned(o))
  {
    if faults.parsed {
      var e := SyncFirst(api, w, objs, prev, faults.apply, |objs|);
      SyncFirstSkips(api, w, objs, prev, faults.apply, |objs|);
      var gone := Obsolete(prev, Names(objs));
      PruneFirstOnlyRemoves(api, e, gone, faults.delete, |gone|);
    }
  }

  /** An object once synced is never applied again: after any calls, a write is for a name outstanding before them. */
  lemma SyncedIsNeverReapplied(api: Api, w: World, objs: seq<Obj>, rs: seq<Res>, faults: seq<KubeFaults>, f: KubeFaults)
    requires UniqueNames(objs)
    ensures var s := ApplyAll(api, w, objs, rs, faults);
      forall c :: c in Apply(api, s.0, objs, s.1, f).calls && c.Put? ==>
        exists o :: o in objs && NameOf(o) in Outstanding(objs, rs) && c == Put(api.KeyOf(o), Owned(o))
  {
    var s := ApplyAll(api, w, objs, rs, faults);
    OutstandingNeverGrows(api, w, objs, rs, faults);
    WritesOutstanding(api, s.0, objs, s.1, f);
    assert forall x :: x in Outstanding(objs, s.1) ==> x in Outstanding(objs, rs);
  }

  /**
   A prune that failed is forgotten: after any call that did not err, a further call with the same
   template deletes nothing, so an object whose deletion failed stays although that call reports success.
   */
  lemma FailedPruneIsForgotten(api: Api, w: World, objs: seq<Obj>, prev: seq<Res>, f1: KubeFaults, f2: KubeFaults)
    requires !Apply(api, w, objs, prev, f1).failed
    ensures var e1 := Apply(api, w, objs, prev, f1);
      Removed(Apply(api, e1.world, objs, e1.resources, f2).calls) == []
  {
    var e0 := SyncFirst(api, w, objs, prev, f1.apply, |objs|);
    var e1 := Apply(api, w, objs, prev, f1);
    var gone := Obsolete(prev, Names(objs));
    PruneFirstAppends(api, e0, gone, f1.delete, |gone|);
    SyncFirstNames(api, w, objs, prev, f1.apply, |objs|);
    assert objs[..|objs|] == objs;
    var again := Obsolete(e1.resources, Names(objs));
    forall i | 0 <= i < |e1.resources| && e1.resources[i].status == Synced
      ensures ResName(e1.resources[i]) in Names(objs)
    {
      assert e1.resources[i] in e0.resources;
    }
    NothingObsolete(e1.resources, Names(objs));
    ApplyPrunesExactly(api, e1.world, objs, e1.resources, f2);
    assert KeysOfRes(api, again) == [];
  }

  /**
   Being recorded by name is all that counts: a finished `Apply` can leave a template object unapplied
   because an object of another kind with the same namespace and name was synced before.
   */
  lemma SameNameHidesNewKind(api: Api, prev: Obj, next: Obj, faults: KubeFaults)
    requires NameOf(prev) == NameOf(next) && api.KeyOf(prev) != api.KeyOf(next) && faults.parsed
    ensures var w := map[api.KeyOf(prev) := Owned(prev)];
      var e := Apply(api, w, [next], [FromObj(prev).(status := Synced)], faults);
      !e.failed && !e.requeue && e.world == w && api.KeyOf(next) !in e.world
  {
    var w := map[api.KeyOf(prev) := Owned(prev)];
    var rs := [FromObj(prev).(status := Synced)];
    assert Recorded(rs, NameOf(next));
    SyncFirstIdle(api, w, [next], rs, faults.apply, 1);
    assert next in [next];
    NothingObsolete(rs, Names([next]));
  }

  /**
   An error forgets a failed prune as well: the old list, which the record then keeps, carries the mark, and the next
   call sends no delete for that object, unless another entry stands for the same one.
   */
  lemma ErrorForgetsFailedPrunes(api: Api, w: World, objs: seq<Obj>, prev: seq<Res>, f1: KubeFaults, f2: KubeFaults,
      i: nat)
    requires i < |prev| && IsObsolete(prev[i], Names(objs))
    requires f1.parsed && !SyncFirst(api, w, objs, prev, f1.apply, |objs|).failed
    requires var k := Place(prev, Names(objs), i);
      k < Attempts(f1.delete, |Obsolete(prev, Names(objs))|) && f1.delete(k).DeleteFailed?
    requires forall j :: 0 <= j < |prev| && j != i ==> api.ResKey(prev[j]) != api.ResKey(prev[i])
    ensures var left := Leftover(api, w, objs, prev, f1);
      api.ResKey(prev[i]) !in Removed(Apply(api, Apply(api, w, objs, prev, f1).world, objs, left, f2).calls)
  {
    var left := Leftover(api, w, objs, prev, f1);
    var world := Apply(api, w, objs, prev, f1).world;
    var gone := Obsolete(left, Names(objs));
    ApplyPrunesExactly(api, world, objs, left, f2);
    forall g | 0 <= g < |gone| ensures api.ResKey(gone[g]) != api.ResKey(prev[i]) {
      assert gone[g] in gone;
      var j :| 0 <= j < |left| && left[j] == gone[g];
      assert api.ResKey(left[j]) == api.ResKey(prev[j]);
    }
  }

  // ---------------------------------------------------------------------------------------
  // Order of the lists, and what single calls leave
  // ---------------------------------------------------------------------------------------

  /** `part` are, in order, the elements of `whole` at exactly the positions of `keep`. */
  ghost predicate Selection<T>(whole: seq<T>, keep: T -> bool, part: seq<T>, at: seq<nat>) {
    && |at| == |part|
    && (forall k :: 0 <= k < |at| ==> at[k] < |whole| && part[k] == whole[at[k]])
    && (forall j, k :: 0 <= j < k < |at| ==> at[j] < at[k])
    && (forall i: nat :: i < |whole| ==> (i in at <==> keep(whole[i])))
  }

  lemma SelectionNext<T>(whole: seq<T>, keep: T -> bool, part: seq<T>, at: seq<nat>, last: T)
    requires Selection(whole, keep, part, at)
    ensures Selection(whole + [last], keep, if keep(last) then part + [last] else part,
                      if keep(last) then at + [|whole|] else at)
  {
  }

  lemma {:induction false} PrunedInOrder(prev: seq<Obj>, now: set<Name>) returns (at: seq<nat>)
    ensures Selection(prev, (o: Obj) => Name(o.ns, o.name) !in now, Pruned(prev, now), at)
  {
    at := [];
    if prev != [] {
      var front, last := prev[..|prev| - 1], prev[|prev| - 1];
      assert prev == front + [last];
      at := PrunedInOrder(front, now);
      var keep := (o: Obj) => Name(o.ns, o.name) !in now;
      SelectionNext(front, keep, Pruned(front, now), at, last);
      at := if keep(last) then at + [|front|] else at;
    }
  }

  lemma {:induction false} ObsoleteInOrder(prev: seq<Res>, now: set<Name>) returns (at: seq<nat>)
    ensures Selection(prev, (r: Res) => r.status == Synced && Name(r.ns, r.name) !in now, Obsolete(prev, now), at)
  {
    at := [];
    if prev != [] {
      var front, last := prev[..|prev| - 1], prev[|prev| - 1];
      assert prev == front + [last];
      at := ObsoleteInOrder(front, now);
      var keep := (r: Res) => r.status == Synced && Name(r.ns, r.name) !in now;
      SelectionNext(front, keep, Obsolete(front, now), at, last);
      at := if keep(last) then at + [|front|] else at;
    }
  }

  lemma {:induction false} ExtraInOrder(prev: seq<Res>, now: set<Res>) returns (at: seq<nat>)
    ensures Selection(prev, (r: Res) => r !in now, Extra(prev, now), at)
  {
    at := [];
    if prev != [] {
      var front, last := prev[..|prev| - 1], prev[|prev| - 1];
      assert prev == front + [last];
      at := ExtraInOrder(front, now);
      var keep := (r: Res) => r !in now;
      SelectionNext(front, keep, Extra(front, now), at, last);
      at := if keep(last) then at + [|front|] else at;
    }
  }

  /** A write or delete that is refused may have reached the object all the same; without interface nothing is sent. */
  lemma RefusedMayReach(api: Api, e: Engine, prev: seq<Res>, o: Obj, r: Res, took: bool)
    requires !Recorded(prev, NameOf(o))
    ensures var reached := if took then e.world[api.KeyOf(o) := o.(owned := true)] else e.world;
      PutOne(api, e, o, ApplyFailed(took)).world == SyncOne(api, e, prev, o, ApplyFailed(took)).world == reached
    ensures PruneOne(api, e, r, DeleteFailed(took)).world == (if took then e.world - {api.ResKey(r)} else e.world)
    ensures RemoveOne(api, e, o, DeleteFailed(took)).world == (if took then e.world - {api.KeyOf(o)} else e.world)
    ensures CleanOne(api, e, r, DeleteFailed(took)).world == (if took then e.world - {api.CleanKey(r)} else e.world)
    ensures PutOne(api, e, o, NoInterface) == SyncOne(api, e, prev, o, NoInterface) == e.(requeue := true)
  {
  }

  /** What the tracked list says of an object after a call: nothing without interface, else whether it was applied. */
  lemma EntryAfterCall(api: Api, e: Engine, prev: seq<Res>, o: Obj, fault: ApplyFault)
    requires !Recorded(prev, NameOf(o)) && fault != LabelFailed
    ensures SyncOne(api, e, prev, o, fault).resources
      == e.resources + match fault
                       case NoInterface => []
                       case ApplyOk => [Res(o.group, o.version, o.kind, o.ns, o.name, Synced, "")]
                       case _ => [Res(o.group, o.version, o.kind, o.ns, o.name, NotSynced, "failed to apply object")]
  {
  }

  lemma {:induction false} PutFirstReports(api: Api, w: World, objs: seq<Obj>, faults: nat -> ApplyFault, n: nat)
    requires n <= |objs|
    ensures forall x :: x in PutFirst(api, w, objs, faults, n).resources ==>
      x.status == Synced && x.error in {"", APPLY_ERROR} && ResName(x) in Names(objs)
  {
    if n > 0 {
      PutFirstReports(api, w, objs, faults, n - 1);
      var e, o := PutFirst(api, w, objs, faults, n - 1), objs[n - 1];
      assert o in objs && ResName(FromObj(o)) == NameOf(o);
    }
  }

  lemma {:induction false} RemoveFirstReports(api: Api, w: World, objs: seq<Obj>, faults: nat -> DeleteFault, n: nat)
    requires n <= |objs|
    ensures forall x :: x in RemoveFirst(api, w, objs, faults, n).resources ==>
      x.status == Synced && x.error in {"", DELETE_ERROR} && ResName(x) in Names(objs)
  {
    if n > 0 {
      RemoveFirstReports(api, w, objs, faults, n - 1);
      var e, o := RemoveFirst(api, w, objs, faults, n - 1), objs[n - 1];
      assert o in objs && ResName(FromObj(o)) == NameOf(o);
    }
  }

  lemma PruneFirstReports(api: Api, start: Engine, prev: seq<Obj>, now: set<Name>, faults: nat -> DeleteFault, x: Res)
    requires var gone := FromObjs(Pruned(prev, now));
      x in PruneFirst(api, start, gone, faults, |gone|).resources && x !in start.resources
    ensures x.status == NotSynced && ResName(x) !in now
  {
    var gone := FromObjs(Pruned(prev, now));
    var e := PruneFirst(api, start, gone, faults, |gone|);
    PruneFirstAppends(api, start, gone, faults, |gone|);
    var i :| 0 <= i < |e.resources| && e.resources[i] == x;
    assert e.resources[..|start.resources|] == start.resources;
    var y :| y in gone && ResName(y) == ResName(x);
    var k :| 0 <= k < |gone| && gone[k] == y;
    assert Pruned(prev, now)[k] in Pruned(prev, now);
  }

  /**
   The lists that the other two operations return say "synced" of every object of the template, also of those that were
   refused; only entries that could not be pruned are marked.
   */
  lemma RefusedIsReportedSynced(api: Api, w: World, prev: seq<Obj>, objs: seq<Obj>, f: KubeFaults)
    ensures forall x :: x in ApplyNew(api, w, prev, objs, f).resources ==>
      x.status == if ResName(x) in Names(objs) then Synced else NotSynced
    ensures forall x :: x in DeleteNew(api, w, objs, f).resources ==> x.status == Synced
  {
    if f.parsed {
      var e0 := PutFirst(api, w, objs, f.apply, |objs|);
      PutFirstReports(api, w, objs, f.apply, |objs|);
      RemoveFirstReports(api, w, objs, f.delete, |objs|);
      forall x | x in ApplyNew(api, w, prev, objs, f).resources && x !in e0.resources
        ensures x.status == NotSynced && ResName(x) !in Names(objs)
      {
        PruneFirstReports(api, e0, prev, Names(objs), f.delete, x);
      }
    }
  }

  /** `at` are, in order, the positions of the obsolete entries. */
  ghost predicate ObsoleteAt(prev: seq<Res>, now: set<Name>, at: seq<nat>) {
    && (forall j, k :: 0 <= j < k < |at| ==> at[j] < at[k])
    && (forall i: nat :: i in at <==> i < |prev| && IsObsolete(prev[i], now))
  }

  /** Before position `i` there are exactly the first `k` of them. */
  lemma {:induction false} PlaceCounts(prev: seq<Res>, now: set<Name>, at: seq<nat>, i: nat, k: nat)
    requires ObsoleteAt(prev, now, at) && i <= |prev| && k <= |at|
    requires (forall j :: 0 <= j < k ==> at[j] < i) && (forall j :: k <= j < |at| ==> at[j] >= i)
    ensures Place(prev, now, i) == k
  {
    if i > 0 {
      if i - 1 in at {
        var j :| 0 <= j < |at| && at[j] == i - 1;
        assert j < k;
        assert at[j] <= at[k - 1] < i;
        PlaceCounts(prev, now, at, i - 1, k - 1);
      } else {
        assert forall j :: 0 <= j < k ==> at[j] != i - 1 by {
          forall j | 0 <= j < k ensures at[j] != i - 1 {
            assert at[j] in at;
          }
        }
        PlaceCounts(prev, now, at, i - 1, k);
      }
    }
  }

  lemma {:induction false} AttemptsAre(faults: nat -> DeleteFault, total: nat, k: nat)
    requires k < total
    ensures k < Attempts(faults, total) <==> forall j: nat :: j <= k ==> faults(j) != DeleteAborted
  {
    if k < total - 1 {
      AttemptsAre(faults, total - 1, k);
      AttemptsUpTo(faults, total - 1);
    } else {
      AttemptsUpTo(faults, total - 1);
    }
  }

  lemma {:induction false} AttemptsUpTo(faults: nat -> DeleteFault, total: nat)
    ensures var n := Attempts(faults, total);
      (forall j: nat :: j < n ==> faults(j) != DeleteAborted) && (n < total ==> faults(n) == DeleteAborted)
  {
    if total > 0 {
      AttemptsUpTo(faults, total - 1);
    }
  }

  lemma SelectedAreObsolete(prev: seq<Res>, now: set<Name>, at: seq<nat>)
    requires Selection(prev, (r: Res) => r.status == Synced && Name(r.ns, r.name) !in now, Obsolete(prev, now), at)
    ensures ObsoleteAt(prev, now, at)
  {
    forall i: nat | i in at ensures i < |prev| {
    }
  }

  /** The delete of the obsolete entry at position `i` is sent, and refused. */
  ghost predicate Refused(faults: nat -> DeleteFault, at: seq<nat>, i: nat) {
    exists k: nat | k < |at| :: at[k] == i && RefusedAt(faults, k)
  }

  ghost predicate RefusedAt(faults: nat -> DeleteFault, k: nat) {
    faults(k).DeleteFailed? && forall j: nat :: j < k ==> faults(j) != DeleteAborted
  }

  /** `n` deletes of `total` are attempted. */
  ghost predicate SentUpTo(faults: nat -> DeleteFault, total: nat, n: nat) {
    forall k: nat | k < total :: k < n <==> NoneAborted(faults, k)
  }

  ghost predicate NoneAborted(faults: nat -> DeleteFault, k: nat) {
    forall j: nat :: j <= k ==> faults(j) != DeleteAborted
  }

  lemma MarkedIff(prev: seq<Res>, now: set<Name>, faults: nat -> DeleteFault, at: seq<nat>, n: nat, i: nat)
    requires ObsoleteAt(prev, now, at) && i < |prev| && SentUpTo(faults, |at|, n)
    ensures MarkedAt(prev, now, faults, n, i)
      == if Refused(faults, at, i) then prev[i].(status := NotSynced, error := DELETE_ERROR) else prev[i]
  {
    if i in at {
      var k: nat :| k < |at| && at[k] == i;
      PlaceCounts(prev, now, at, i, k);
      RefusedIff(faults, at, k);
      assert NoneAborted(faults, k) && faults(k).DeleteFailed? <==> RefusedAt(faults, k);
    } else {
      assert !IsObsolete(prev[i], now);
    }
  }

  lemma RefusedIff(faults: nat -> DeleteFault, at: seq<nat>, k: nat)
    requires k < |at| && forall i, j :: 0 <= i < j < |at| ==> at[i] < at[j]
    ensures Refused(faults, at, at[k]) <==> RefusedAt(faults, k)
  {
    forall j: nat | j < |at| && at[j] == at[k] ensures j == k {
    }
  }

  /**
   What an error in pruning leaves of the old list: exactly the entries whose delete was sent and refused are marked, of
   the obsolete ones up to the first that has no interface; all others are as they were.
   */
  lemma LeftoverMarksIff(api: Api, w: World, objs: seq<Obj>, prev: seq<Res>, f: KubeFaults, at: seq<nat>, i: nat)
    requires f.parsed && !SyncFirst(api, w, objs, prev, f.apply, |objs|).failed && i < |prev|
    requires Selection(prev, (r: Res) => r.status == Synced && Name(r.ns, r.name) !in Names(objs),
                       Obsolete(prev, Names(objs)), at)
    ensures Leftover(api, w, objs, prev, f)[i]
      == if Refused(f.delete, at, i) then prev[i].(status := NotSynced, error := "failed to delete object") else prev[i]
  {
    SelectedAreObsolete(prev, Names(objs), at);
    forall k: nat | k < |at| ensures k < Attempts(f.delete, |at|) <==> NoneAborted(f.delete, k) {
      AttemptsAre(f.delete, |at|, k);
    }
    MarkedIff(prev, Names(objs), f.delete, at, Attempts(f.delete, |at|), i);
  }
}
