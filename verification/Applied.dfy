/** What `Apply` does to the cluster: exactly the objects whose name is not recorded are written. */
module Applied {
  import opened Kube
  import opened Effects
  import opened KubeFacts

  /** The template objects whose name is not recorded as synced, in order. */
  function ToWrite(objs: seq<Obj>, prev: seq<Res>): (r: seq<Obj>)
    ensures forall o :: o in r <==> o in objs && !Recorded(prev, NameOf(o))
  {
    if objs == [] then []
    else
      var front, last := objs[..|objs| - 1], objs[|objs| - 1];
      assert objs == front + [last];
      if Recorded(prev, NameOf(last)) then ToWrite(front, prev) else ToWrite(front, prev) + [last]
  }

  /** The objects to write are put, then the entries that the template does not name are removed. */
  function TrackedEffect(api: Api, objs: seq<Obj>, prev: seq<Res>): (e: Effect)
    ensures e.Valid()
  {
    var todo, gone := ToWrite(objs, prev), ResKeys(api, Obsolete(prev, Names(objs)));
    Effect(api.KeysOf(todo) + gone, PutAll(api, todo) - gone)
  }

  lemma ToWriteNext(objs: seq<Obj>, prev: seq<Res>, n: nat)
    requires n < |objs|
    ensures ToWrite(objs[..n + 1], prev)
      == ToWrite(objs[..n], prev) + if Recorded(prev, NameOf(objs[n])) then [] else [objs[n]]
  {
    assert objs[..n + 1][..n] == objs[..n];
  }

  lemma SyncOneEffect(api: Api, w: World, e: Engine, prev: seq<Res>, o: Obj, fault: ApplyFault, keys: set<Key>,
                      todo: seq<Obj>)
    requires AgreeOutside(e.world, w, keys) && (Recorded(prev, NameOf(o)) || api.KeyOf(o) in keys)
    requires !e.failed && !e.requeue ==> e.world == w + PutAll(api, todo)
    ensures var e1 := SyncOne(api, e, prev, o, fault);
      && AgreeOutside(e1.world, w, keys)
      && (!e1.failed && !e1.requeue ==>
            e1.world == w + PutAll(api, todo + if Recorded(prev, NameOf(o)) then [] else [o]))
  {
    if Recorded(prev, NameOf(o)) {
      assert todo + [] == todo;
    } else {
      AgreePut(w, e.world, keys, api.KeyOf(o), Owned(o));
      PutAllAppend(api, w, todo, o);
    }
  }

  lemma {:induction false} SyncFirstEffect(api: Api, w: World, objs: seq<Obj>, prev: seq<Res>,
                                           faults: nat -> ApplyFault, n: nat)
    requires n <= |objs|
    ensures var e := SyncFirst(api, w, objs, prev, faults, n);
      && AgreeOutside(e.world, w, api.KeysOf(ToWrite(objs, prev)))
      && (!e.failed && !e.requeue ==> e.world == w + PutAll(api, ToWrite(objs[..n], prev)))
  {
    if n > 0 {
      SyncFirstEffect(api, w, objs, prev, faults, n - 1);
      var e, o := SyncFirst(api, w, objs, prev, faults, n - 1), objs[n - 1];
      assert !Recorded(prev, NameOf(o)) ==> o in ToWrite(objs, prev);
      ToWriteNext(objs, prev, n - 1);
      SyncOneEffect(api, w, e, prev, o, faults(n - 1), api.KeysOf(ToWrite(objs, prev)), ToWrite(objs[..n - 1], prev));
    }
  }

  /** Whatever fails, only objects to write and obsolete entries change; a finished call has the exact effect. */
  lemma ApplyFacts(api: Api, w: World, objs: seq<Obj>, prev: seq<Res>, faults: KubeFaults)
    ensures var e, eff := Apply(api, w, objs, prev, faults), TrackedEffect(api, objs, prev);
      && AgreeOutside(e.world, w, eff.touched)
      && (!e.failed && !e.requeue ==> e.world == eff.Run(w))
  {
    if faults.parsed {
      var todo, gone, eff := ToWrite(objs, prev), Obsolete(prev, Names(objs)), TrackedEffect(api, objs, prev);
      var e := SyncFirst(api, w, objs, prev, faults.apply, |objs|);
      SyncFirstEffect(api, w, objs, prev, faults.apply, |objs|);
      assert objs[..|objs|] == objs;
      AgreeMore(e.world, w, api.KeysOf(todo), eff.touched);
      if !e.failed {
        PruneFirstFacts(api, e, gone, faults.delete, |gone|);
        assert gone[..|gone|] == gone;
        var e1 := PruneFirst(api, e, gone, faults.delete, |gone|);
        AgreeMore(e1.world, e.world, ResKeys(api, gone), eff.touched);
        PutThenRemove(w, PutAll(api, todo), ResKeys(api, gone));
      }
    }
  }

  /**
   What a finished call leaves under the key of a template object that no other one shares: nothing if the key belongs
   to an obsolete entry, otherwise the object if its name was not recorded, and what was there if it was.
   */
  lemma ApplyLeaves(api: Api, w: World, objs: seq<Obj>, prev: seq<Res>, faults: KubeFaults, o: Obj)
    requires var e := Apply(api, w, objs, prev, faults); !e.failed && !e.requeue
    requires o in objs && forall p :: p in objs && api.KeyOf(p) == api.KeyOf(o) ==> p == o
    ensures var end, key := Apply(api, w, objs, prev, faults).world, api.KeyOf(o);
      if key in ResKeys(api, Obsolete(prev, Names(objs))) then key !in end
      else if Recorded(prev, NameOf(o)) then SameAt(w, end, key)
      else key in end && end[key] == Owned(o)
  {
    ApplyFacts(api, w, objs, prev, faults);
    if !Recorded(prev, NameOf(o)) {
      PutAllHas(api, ToWrite(objs, prev), o);
    }
  }

  /**
   Exactly when a finished call has a template object in place: its key belongs to no obsolete entry, and its name was
   not recorded or the object was in place already.
   */
  lemma ApplyPlacesIff(api: Api, w: World, objs: seq<Obj>, prev: seq<Res>, faults: KubeFaults, o: Obj)
    requires var e := Apply(api, w, objs, prev, faults); !e.failed && !e.requeue
    requires o in objs && forall p :: p in objs && api.KeyOf(p) == api.KeyOf(o) ==> p == o
    ensures var end, key := Apply(api, w, objs, prev, faults).world, api.KeyOf(o);
      (key in end && end[key] == Owned(o)) <==>
      (key !in ResKeys(api, Obsolete(prev, Names(objs)))
        && (Recorded(prev, NameOf(o)) ==> key in w && w[key] == Owned(o)))
  {
    ApplyLeaves(api, w, objs, prev, faults, o);
  }

  /** Without requeue every object to write has been written. */
  lemma {:induction false} WrittenIfDue(api: Api, w: World, objs: seq<Obj>, prev: seq<Res>,
                                          faults: nat -> ApplyFault, n: nat, i: nat)
    requires i < n <= |objs| && !Recorded(prev, NameOf(objs[i]))
    requires var e := SyncFirst(api, w, objs, prev, faults, n); !e.failed && !e.requeue
    ensures Put(api.KeyOf(objs[i]), Owned(objs[i])) in SyncFirst(api, w, objs, prev, faults, n).calls
  {
    var e := SyncFirst(api, w, objs, prev, faults, n - 1);
    var r := SyncOneFollows(api, e, prev, objs[n - 1], faults(n - 1));
    if i < n - 1 {
      WrittenIfDue(api, w, objs, prev, faults, n - 1, i);
    }
  }

  lemma {:induction false} PruneKeepsCalls(api: Api, start: Engine, rs: seq<Res>, faults: nat -> DeleteFault, n: nat,
                                           c: Call)
    requires n <= |rs| && c in start.calls
    ensures c in PruneFirst(api, start, rs, faults, n).calls
  {
    if n > 0 {
      PruneKeepsCalls(api, start, rs, faults, n - 1, c);
    }
  }

  /** A finished call writes a template object, whose key no other one shares, exactly if its name was not recorded. */
  lemma ApplyWritesIff(api: Api, w: World, objs: seq<Obj>, prev: seq<Res>, faults: KubeFaults, o: Obj)
    requires var e := Apply(api, w, objs, prev, faults); !e.failed && !e.requeue
    requires o in objs && forall p :: p in objs && api.KeyOf(p) == api.KeyOf(o) ==> p == o
    ensures Put(api.KeyOf(o), Owned(o)) in Apply(api, w, objs, prev, faults).calls <==> !Recorded(prev, NameOf(o))
  {
    var gone := Obsolete(prev, Names(objs));
    var e := SyncFirst(api, w, objs, prev, faults.apply, |objs|);
    WritesOutstanding(api, w, objs, prev, faults);
    if !Recorded(prev, NameOf(o)) {
      var i :| 0 <= i < |objs| && objs[i] == o;
      PruneFirstFacts(api, e, gone, faults.delete, |gone|);
      WrittenIfDue(api, w, objs, prev, faults.apply, |objs|, i);
      PruneKeepsCalls(api, e, gone, faults.delete, |gone|, Put(api.KeyOf(o), Owned(o)));
    }
  }
}
