/**
 What a finished operation does to a cluster, whatever happened before: it forgets the keys it
 touches and puts fixed objects in their place.  Because the outcome on the touched keys does
 not depend on the cluster it starts from, an interrupted attempt is absorbed by the next
 complete one.
 */
module Effects {
  import opened Kube

  datatype Effect = Effect(touched: set<Key>, put: World) {
    ghost predicate Valid() {
      put.Keys <= touched
    }

    function Run(w: World): World {
      (w - touched) + put
    }

    /** First this effect, then `next`. */
    function Then(next: Effect): Effect {
      Effect(touched + next.touched, (put - next.touched) + next.put)
    }
  }

  const NOTHING := Effect({}, map[])

  /** The two clusters differ at most on `keys`. */
  ghost predicate AgreeOutside(w: World, v: World, keys: set<Key>) {
    w - keys == v - keys
  }

  ghost predicate SameAt(w: World, v: World, x: Key) {
    (x in v <==> x in w) && (x in w ==> v[x] == w[x])
  }

  lemma AgreeMore(w: World, v: World, few: set<Key>, many: set<Key>)
    requires AgreeOutside(w, v, few) && few <= many
    ensures AgreeOutside(w, v, many)
  {
    assert w - many == (w - few) - many && v - many == (v - few) - many;
  }

  lemma OutsideIsSame(v: World, w: World, keys: set<Key>, x: Key)
    requires AgreeOutside(v, w, keys) && x !in keys
    ensures SameAt(w, v, x)
  {
    assert x in w <==> x in w - keys;
    assert x in v <==> x in v - keys;
  }

  /** Work that only touched keys of the effect is absorbed by it. */
  lemma Absorbed(e: Effect, w: World, v: World)
    requires AgreeOutside(w, v, e.touched)
    ensures e.Run(w) == e.Run(v)
  {
  }

  lemma ThenRunsAt(a: Effect, b: Effect, w: World, k: Key)
    ensures SameAt(a.Then(b).Run(w), b.Run(a.Run(w)), k)
  {
  }

  lemma ThenRuns(a: Effect, b: Effect, w: World)
    ensures a.Then(b).Run(w) == b.Run(a.Run(w))
    ensures a.Valid() && b.Valid() ==> a.Then(b).Valid()
  {
    forall k ensures SameAt(a.Then(b).Run(w), b.Run(a.Run(w)), k) {
      ThenRunsAt(a, b, w, k);
    }
    SameEverywhere(a.Then(b).Run(w), b.Run(a.Run(w)));
  }

  lemma SameEverywhere(w: World, v: World)
    requires forall k :: SameAt(w, v, k)
    ensures w == v
  {
    forall k ensures k in w <==> k in v {
      assert SameAt(w, v, k);
    }
    assert w.Keys == v.Keys;
    forall k | k in w ensures w[k] == v[k] {
      assert SameAt(w, v, k);
    }
  }

  /** The steps from `m` to `n`, then `end`. */
  function Chain(step: nat -> Effect, end: Effect, m: nat, n: nat): Effect
    requires m <= n
    decreases n - m
  {
    if m == n then end else step(m).Then(Chain(step, end, m + 1, n))
  }

  /** Later parts of a chain touch no more. */
  lemma {:induction false} ChainShrinks(step: nat -> Effect, end: Effect, k: nat, m: nat, n: nat)
    requires k <= m <= n
    ensures Chain(step, end, m, n).touched <= Chain(step, end, k, n).touched
    decreases m - k
  {
    if k < m {
      ChainShrinks(step, end, k + 1, m, n);
    }
  }

  /** What the end of a chain removes is gone. */
  lemma {:induction false} ChainEndRemoves(step: nat -> Effect, end: Effect, m: nat, n: nat, w: World, x: Key)
    requires m <= n && end.put == map[] && x in end.touched
    ensures x !in Chain(step, end, m, n).Run(w)
    decreases n - m
  {
    if m < n {
      ThenRuns(step(m), Chain(step, end, m + 1, n), w);
      ChainEndRemoves(step, end, m + 1, n, step(m).Run(w), x);
    }
  }

  /** The objects of a template under their keys; a later object replaces an earlier one. */
  function PutAll(api: Api, objs: seq<Obj>): (r: World)
    ensures r.Keys == api.KeysOf(objs)
  {
    if objs == [] then map[]
    else
      assert objs == objs[..|objs| - 1] + [objs[|objs| - 1]];
      PutAll(api, objs[..|objs| - 1])[api.KeyOf(objs[|objs| - 1]) := Owned(objs[|objs| - 1])]
  }

  lemma {:induction false} PutAllHas(api: Api, objs: seq<Obj>, o: Obj)
    requires o in objs && forall p :: p in objs && api.KeyOf(p) == api.KeyOf(o) ==> p == o
    ensures api.KeyOf(o) in PutAll(api, objs) && PutAll(api, objs)[api.KeyOf(o)] == Owned(o)
  {
    var last := objs[|objs| - 1];
    if last != o {
      assert last in objs;
      assert o in objs[..|objs| - 1];
      PutAllHas(api, objs[..|objs| - 1], o);
    }
  }

  function ResKeys(api: Api, rs: seq<Res>): set<Key> {
    set r | r in rs :: api.ResKey(r)
  }

  function CleanKeys(api: Api, rs: seq<Res>): set<Key> {
    set r | r in rs :: api.CleanKey(r)
  }

  function ApplyEffect(api: Api, prev: seq<Obj>, next: seq<Obj>): (e: Effect)
    ensures e.Valid()
  {
    var gone := api.KeysOf(Pruned(prev, Names(next)));
    Effect(api.KeysOf(next) + gone, PutAll(api, next) - gone)
  }

  function DeleteEffect(api: Api, objs: seq<Obj>): (e: Effect)
    ensures e.Valid()
  {
    Effect(api.KeysOf(objs), map[])
  }

  function CleanEffect(api: Api, prev: seq<Res>, next: seq<Res>): (e: Effect)
    ensures e.Valid()
  {
    Effect(CleanKeys(api, Extra(prev, set r | r in next)), map[])
  }

  // ---------------------------------------------------------------------------------------
  // The loops, one prefix at a time
  // ---------------------------------------------------------------------------------------

  lemma AgreePut(w: World, v: World, keys: set<Key>, k: Key, o: Obj)
    requires AgreeOutside(v, w, keys) && k in keys
    ensures AgreeOutside(v[k := o], w, keys)
  {
    assert v[k := o] - keys == v - keys;
  }

  lemma AgreeRemove(w: World, v: World, keys: set<Key>, k: Key)
    requires AgreeOutside(v, w, keys) && k in keys
    ensures AgreeOutside(v - {k}, w, keys)
  {
    assert v - {k} - keys == v - keys;
  }

  lemma PutAllAppend(api: Api, w: World, objs: seq<Obj>, o: Obj)
    ensures (w + PutAll(api, objs))[api.KeyOf(o) := Owned(o)] == w + PutAll(api, objs + [o])
  {
    assert (objs + [o])[..|objs|] == objs;
  }

  lemma KeysOfSnoc(api: Api, w: World, objs: seq<Obj>, n: nat)
    requires n < |objs|
    ensures w - api.KeysOf(objs[..n]) - {api.KeyOf(objs[n])} == w - api.KeysOf(objs[..n + 1])
    ensures api.KeyOf(objs[n]) in api.KeysOf(objs)
  {
    assert objs[..n + 1] == objs[..n] + [objs[n]];
    assert objs[n] in objs;
    assert api.KeysOf(objs[..n + 1]) == api.KeysOf(objs[..n]) + {api.KeyOf(objs[n])};
  }

  lemma ResKeysSnoc(api: Api, w: World, rs: seq<Res>, n: nat)
    requires n < |rs|
    ensures w - ResKeys(api, rs[..n]) - {api.ResKey(rs[n])} == w - ResKeys(api, rs[..n + 1])
    ensures api.ResKey(rs[n]) in ResKeys(api, rs)
  {
    assert rs[..n + 1] == rs[..n] + [rs[n]];
    assert rs[n] in rs;
    assert ResKeys(api, rs[..n + 1]) == ResKeys(api, rs[..n]) + {api.ResKey(rs[n])};
  }

  lemma CleanKeysSnoc(api: Api, w: World, rs: seq<Res>, n: nat)
    requires n < |rs|
    ensures w - CleanKeys(api, rs[..n]) - {api.CleanKey(rs[n])} == w - CleanKeys(api, rs[..n + 1])
    ensures api.CleanKey(rs[n]) in CleanKeys(api, rs)
  {
    assert rs[..n + 1] == rs[..n] + [rs[n]];
    assert rs[n] in rs;
    assert CleanKeys(api, rs[..n + 1]) == CleanKeys(api, rs[..n]) + {api.CleanKey(rs[n])};
  }

  lemma PutOneFacts(api: Api, w: World, e: Engine, o: Obj, fault: ApplyFault, keys: set<Key>, done: seq<Obj>)
    requires AgreeOutside(e.world, w, keys) && api.KeyOf(o) in keys
    requires !e.failed && !e.requeue ==> e.world == w + PutAll(api, done)
    ensures var e1 := PutOne(api, e, o, fault);
      && AgreeOutside(e1.world, w, keys)
      && (!e1.failed && !e1.requeue ==> e1.world == w + PutAll(api, done + [o]))
  {
    AgreePut(w, e.world, keys, api.KeyOf(o), Owned(o));
    PutAllAppend(api, w, done, o);
  }

  lemma {:induction false} PutFirstFacts(api: Api, w: World, objs: seq<Obj>, faults: nat -> ApplyFault, n: nat)
    requires n <= |objs|
    ensures var e := PutFirst(api, w, objs, faults, n);
      && AgreeOutside(e.world, w, api.KeysOf(objs))
      && (!e.failed && !e.requeue ==> e.world == w + PutAll(api, objs[..n]))
  {
    if n > 0 {
      PutFirstFacts(api, w, objs, faults, n - 1);
      assert objs[..n] == objs[..n - 1] + [objs[n - 1]] && objs[n - 1] in objs;
      var e := PutFirst(api, w, objs, faults, n - 1);
      PutOneFacts(api, w, e, objs[n - 1], faults(n - 1), api.KeysOf(objs), objs[..n - 1]);
    }
  }

  lemma {:induction false} PruneFirstFacts(api: Api, start: Engine, rs: seq<Res>, faults: nat -> DeleteFault, n: nat)
    requires n <= |rs|
    ensures AgreeOutside(PruneFirst(api, start, rs, faults, n).world, start.world, ResKeys(api, rs))
    ensures start.failed ==> PruneFirst(api, start, rs, faults, n).failed
    ensures start.requeue ==> PruneFirst(api, start, rs, faults, n).requeue
    ensures !PruneFirst(api, start, rs, faults, n).failed && !PruneFirst(api, start, rs, faults, n).requeue ==>
      PruneFirst(api, start, rs, faults, n).world == start.world - ResKeys(api, rs[..n])
  {
    if n > 0 {
      PruneFirstFacts(api, start, rs, faults, n - 1);
      var e := PruneFirst(api, start, rs, faults, n - 1);
      ResKeysSnoc(api, start.world, rs, n - 1);
      AgreeRemove(start.world, e.world, ResKeys(api, rs), api.ResKey(rs[n - 1]));
    }
  }

  lemma {:induction false} RemoveFirstFacts(api: Api, w: World, objs: seq<Obj>, faults: nat -> DeleteFault, n: nat)
    requires n <= |objs|
    ensures AgreeOutside(RemoveFirst(api, w, objs, faults, n).world, w, api.KeysOf(objs))
    ensures !RemoveFirst(api, w, objs, faults, n).failed && !RemoveFirst(api, w, objs, faults, n).requeue ==>
      RemoveFirst(api, w, objs, faults, n).world == w - api.KeysOf(objs[..n])
  {
    if n > 0 {
      RemoveFirstFacts(api, w, objs, faults, n - 1);
      var e := RemoveFirst(api, w, objs, faults, n - 1);
      KeysOfSnoc(api, w, objs, n - 1);
      AgreeRemove(w, e.world, api.KeysOf(objs), api.KeyOf(objs[n - 1]));
    }
  }

  lemma {:induction false} CleanFirstFacts(api: Api, w: World, rs: seq<Res>, faults: nat -> DeleteFault, n: nat)
    requires n <= |rs|
    ensures AgreeOutside(CleanFirst(api, w, rs, faults, n).world, w, CleanKeys(api, rs))
    ensures !CleanFirst(api, w, rs, faults, n).failed && !CleanFirst(api, w, rs, faults, n).requeue ==>
      CleanFirst(api, w, rs, faults, n).world == w - CleanKeys(api, rs[..n])
  {
    if n > 0 {
      CleanFirstFacts(api, w, rs, faults, n - 1);
      var e := CleanFirst(api, w, rs, faults, n - 1);
      CleanKeysSnoc(api, w, rs, n - 1);
      AgreeRemove(w, e.world, CleanKeys(api, rs), api.CleanKey(rs[n - 1]));
    }
  }

  lemma FromObjsKeys(api: Api, objs: seq<Obj>)
    ensures ResKeys(api, FromObjs(objs)) == api.KeysOf(objs)
  {
    var rs := FromObjs(objs);
    forall k | k in api.KeysOf(objs) ensures k in ResKeys(api, rs) {
      var o :| o in objs && api.KeyOf(o) == k;
      var i :| 0 <= i < |objs| && objs[i] == o;
      assert rs[i] in rs;
    }
    forall k | k in ResKeys(api, rs) ensures k in api.KeysOf(objs) {
      var r :| r in rs && api.ResKey(r) == k;
      var i :| 0 <= i < |rs| && rs[i] == r;
      assert objs[i] in objs;
    }
  }

  // ---------------------------------------------------------------------------------------
  // The operations
  // ---------------------------------------------------------------------------------------

  lemma PutThenRemove(w: World, put: World, gone: set<Key>)
    ensures (w + put) - gone == (w - (put.Keys + gone)) + (put - gone)
  {
    var l, r := (w + put) - gone, (w - (put.Keys + gone)) + (put - gone);
    assert l.Keys == r.Keys;
    assert forall k :: k in l ==> l[k] == r[k];
  }

  /** Whatever fails, only keys of the two templates change; without requeue the effect is exact. */
  lemma ApplyNewFacts(api: Api, w: World, prev: seq<Obj>, next: seq<Obj>, faults: KubeFaults)
    ensures var e := ApplyNew(api, w, prev, next, faults);
      var eff := ApplyEffect(api, prev, next);
      && AgreeOutside(e.world, w, eff.touched)
      && (!e.failed && !e.requeue ==> e.world == eff.Run(w))
  {
    var eff := ApplyEffect(api, prev, next);
    if faults.parsed {
      var e1 := PutFirst(api, w, next, faults.apply, |next|);
      assert AgreeOutside(e1.world, w, eff.touched)
        && (!e1.failed && !e1.requeue ==> e1.world == w + PutAll(api, next))
      by {
        PutFirstFacts(api, w, next, faults.apply, |next|);
        AgreeMore(e1.world, w, api.KeysOf(next), eff.touched);
        assert next[..|next|] == next;
      }
      if !e1.failed {
        PruneFacts(api, e1, Pruned(prev, Names(next)), faults.delete, eff.touched);
        PutThenRemove(w, PutAll(api, next), api.KeysOf(Pruned(prev, Names(next))));
      }
    }
  }

  lemma PruneFacts(api: Api, start: Engine, objs: seq<Obj>, faults: nat -> DeleteFault, touched: set<Key>)
    requires api.KeysOf(objs) <= touched && !start.failed
    ensures var e := PruneFirst(api, start, FromObjs(objs), faults, |objs|);
      && AgreeOutside(e.world, start.world, touched)
      && (start.requeue ==> e.requeue)
      && (!e.failed && !e.requeue ==> e.world == start.world - api.KeysOf(objs))
  {
    var gone := FromObjs(objs);
    PruneFirstFacts(api, start, gone, faults, |gone|);
    FromObjsKeys(api, objs);
    assert gone[..|gone|] == gone;
    var e := PruneFirst(api, start, gone, faults, |gone|);
    AgreeMore(e.world, start.world, ResKeys(api, gone), touched);
  }

  lemma DeleteNewFacts(api: Api, w: World, objs: seq<Obj>, faults: KubeFaults)
    ensures var e := DeleteNew(api, w, objs, faults);
      && AgreeOutside(e.world, w, api.KeysOf(objs))
      && (!e.failed && !e.requeue ==> e.world == DeleteEffect(api, objs).Run(w))
  {
    if faults.parsed {
      RemoveFirstFacts(api, w, objs, faults.delete, |objs|);
      assert objs[..|objs|] == objs;
    }
  }

  lemma CleanUpFacts(api: Api, w: World, prev: seq<Res>, next: seq<Res>, faults: nat -> DeleteFault)
    ensures var e := CleanUp(api, w, prev, next, faults);
      var eff := CleanEffect(api, prev, next);
      && AgreeOutside(e.world, w, eff.touched)
      && (!e.failed && !e.requeue ==> e.world == eff.Run(w))
  {
    var extra := Extra(prev, set r | r in next);
    CleanFirstFacts(api, w, extra, faults, |extra|);
    assert extra[..|extra|] == extra;
  }

  /** The cluster after the calls `faults[0]`, `faults[1]`, ... of `ApplyNewClusterStack`. */
  function ApplyNewAll(api: Api, w: World, prev: seq<Obj>, next: seq<Obj>, faults: seq<KubeFaults>): World
    decreases |faults|
  {
    if faults == [] then w
    else ApplyNew(api, ApplyNewAll(api, w, prev, next, faults[..|faults| - 1]), prev, next, faults[|faults| - 1]).world
  }

  lemma {:induction false} ApplyNewAllFrame(api: Api, w: World, prev: seq<Obj>, next: seq<Obj>, faults: seq<KubeFaults>)
    ensures AgreeOutside(ApplyNewAll(api, w, prev, next, faults), w, ApplyEffect(api, prev, next).touched)
    decreases |faults|
  {
    if faults != [] {
      ApplyNewAllFrame(api, w, prev, next, faults[..|faults| - 1]);
      ApplyNewFacts(api, ApplyNewAll(api, w, prev, next, faults[..|faults| - 1]), prev, next, faults[|faults| - 1]);
    }
  }

  /**
   Retried calls: after any number of failed calls, the first call without error and requeue
   leaves the new objects in place of their keys, no pruned key, and everything else as it was.
   */
  lemma RetriesConverge(api: Api, w: World, prev: seq<Obj>, next: seq<Obj>, faults: seq<KubeFaults>)
    requires faults != []
    requires var before := ApplyNewAll(api, w, prev, next, faults[..|faults| - 1]);
      var e := ApplyNew(api, before, prev, next, faults[|faults| - 1]);
      !e.failed && !e.requeue
    ensures var end := ApplyNewAll(api, w, prev, next, faults);
      var gone := api.KeysOf(Pruned(prev, Names(next)));
      && end == (w + PutAll(api, next)) - gone
      && (forall k :: k in api.KeysOf(next) ==> (k in end <==> k !in gone))
      && (forall k :: k in gone ==> k !in end)
      && AgreeOutside(end, w, api.KeysOf(next) + gone)
  {
    var before := ApplyNewAll(api, w, prev, next, faults[..|faults| - 1]);
    var gone := api.KeysOf(Pruned(prev, Names(next)));
    var end := ApplyNewAll(api, w, prev, next, faults);
    assert end == (w + PutAll(api, next)) - gone by {
      ApplyNewAllFrame(api, w, prev, next, faults[..|faults| - 1]);
      ApplyNewFacts(api, before, prev, next, faults[|faults| - 1]);
      Absorbed(ApplyEffect(api, prev, next), before, w);
      PutThenRemove(w, PutAll(api, next), gone);
    }
    ApplyNewAllFrame(api, w, prev, next, faults);
  }
}
