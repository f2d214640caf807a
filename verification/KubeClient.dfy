/** The client of a workload cluster as the operator has it: loops over lists of tracked resources, updated in place. */
module KubeClient {
  import opened Results
  import opened Kube

  /** A tracked `Resource` of the status. */
  class Resource {
    const group: string
    const version: string
    const kind: string
    const ns: string
    const name: string
    var status: Status
    var error: string

    /** NewResourceFromUnstructured. */
    constructor (o: Obj)
      ensures Value() == FromObj(o)
    {
      group, version, kind, ns, name := o.group, o.version, o.kind, o.ns, o.name;
      status, error := Unset, "";
    }

    /** The entry as it was persisted. */
    constructor Decode(r: Res)
      ensures Value() == r
    {
      group, version, kind, ns, name := r.group, r.version, r.kind, r.ns, r.name;
      status, error := r.status, r.error;
    }

    /** A failed delete is noted on the entry itself. */
    method MarkNotDeleted()
      modifies this
      ensures Value() == old(Value()).(status := NotSynced, error := DELETE_ERROR)
    {
      status := NotSynced;
      error := DELETE_ERROR;
    }

    /** All but status and error, which never change. */
    predicate Describes(r: Res) {
      r == Res(group, version, kind, ns, name, r.status, r.error)
    }

    function Value(): Res
      reads this
    {
      Res(group, version, kind, ns, name, status, error)
    }
  }

  function Values(rs: seq<Resource>): (v: seq<Res>)
    reads rs
    ensures |v| == |rs|
    ensures forall i :: 0 <= i < |rs| ==> v[i] == rs[i].Value()
  {
    seq(|rs|, i requires 0 <= i < |rs| reads rs => rs[i].Value())
  }

  lemma ValuesSnoc(rs: seq<Resource>, r: Resource)
    ensures Values(rs + [r]) == Values(rs) + [r.Value()]
  {
  }

  /** The map holds, by namespace and name, the last entry of the list. */
  ghost predicate Maps(m: map<Name, Resource>, resources: seq<Resource>, values: seq<Res>)
    reads m.Values
  {
    && (forall x :: x in m <==> Lookup(values, x).Some?)
    && (forall x :: x in m ==> m[x] in resources && m[x].Value() == Lookup(values, x).value)
  }

  lemma MapsMore(m: map<Name, Resource>, resources: seq<Resource>, values: seq<Res>, r: Resource)
    requires Maps(m, resources, values) && r in resources
    ensures Maps(m[Name(r.ns, r.name) := r], resources, values + [r.Value()])
  {
    var now := m[Name(r.ns, r.name) := r];
    forall x ensures x in now <==> Lookup(values + [r.Value()], x).Some? {
      LookupMore(values, r.Value(), x);
    }
    forall x | x in now ensures now[x] in resources && now[x].Value() == Lookup(values + [r.Value()], x).value {
      LookupMore(values, r.Value(), x);
    }
  }

  lemma LookupMore(values: seq<Res>, v: Res, x: Name)
    ensures Lookup(values + [v], x) == if ResName(v) == x then Some(v) else Lookup(values, x)
  {
    assert (values + [v])[..|values|] == values;
  }

  /** getResourceMap. */
  method GetResourceMap(resources: seq<Resource>) returns (m: map<Name, Resource>)
    ensures Maps(m, resources, Values(resources))
  {
    m := map[];
    var values := Values(resources);
    var n := 0;
    while n < |resources|
      invariant 0 <= n <= |resources|
      invariant Maps(m, resources, values[..n])
    {
      assert values[..n + 1] == values[..n] + [values[n]];
      var resource := resources[n];
      MapsMore(m, resources, values[..n], resource);
      m := m[Name(resource.ns, resource.name) := resource];
      n := n + 1;
    }
    assert values[..n] == values;
  }

  /** resourcesToBeDeletedFromUnstructuredObjects. */
  method ToBeDeletedFromObjects(oldObjects: seq<Obj>, newObjects: seq<Obj>) returns (toBeDeleted: seq<Obj>)
    ensures toBeDeleted == Pruned(oldObjects, Names(newObjects))
  {
    var newNames := NameSet(newObjects);
    toBeDeleted := [];
    var n := 0;
    while n < |oldObjects|
      invariant 0 <= n <= |oldObjects|
      invariant toBeDeleted == Pruned(oldObjects[..n], newNames)
    {
      assert oldObjects[..n + 1][..n] == oldObjects[..n];
      if NameOf(oldObjects[n]) !in newNames {
        toBeDeleted := toBeDeleted + [oldObjects[n]];
      }
      n := n + 1;
    }
    assert oldObjects[..n] == oldObjects;
  }

  method NameSet(objs: seq<Obj>) returns (names: set<Name>)
    ensures names == Names(objs)
  {
    names := {};
    var n := 0;
    while n < |objs|
      invariant 0 <= n <= |objs|
      invariant names == Names(objs[..n])
    {
      assert objs[..n + 1] == objs[..n] + [objs[n]];
      names := names + {NameOf(objs[n])};
      n := n + 1;
    }
    assert objs[..n] == objs;
  }

  ghost predicate AllNamed(rs: seq<Resource>, names: set<Name>) {
    forall r :: r in rs ==> Name(r.ns, r.name) in names
  }

  /** The pruned entries that a new list still holds carry a failed delete. */
  ghost predicate AllMarked(rs: seq<Resource>, pruned: seq<Resource>)
    reads rs
  {
    forall r :: r in rs && r in pruned ==> r.status == NotSynced && r.error == DELETE_ERROR
  }

  ghost predicate Distinct(rs: seq<Resource>) {
    forall i, j :: 0 <= i < j < |rs| ==> rs[i] != rs[j]
  }

  /** The obsolete entries stand at these positions, in order. */
  ghost predicate Places(values: seq<Res>, now: set<Name>, at: seq<nat>) {
    forall k :: 0 <= k < |at| ==> at[k] < |values| && Place(values, now, at[k]) == k && IsObsolete(values[at[k]], now)
  }

  ghost predicate Located(part: seq<Resource>, whole: seq<Resource>, at: seq<nat>) {
    |part| == |at| && forall k :: 0 <= k < |at| ==> at[k] < |whole| && part[k] == whole[at[k]]
  }

  ghost predicate Selected(part: seq<Res>, whole: seq<Res>, at: seq<nat>) {
    |part| == |at| && forall k :: 0 <= k < |at| ==> at[k] < |whole| && part[k] == whole[at[k]]
  }

  lemma {:induction false} PlaceRises(values: seq<Res>, now: set<Name>, i: nat, j: nat)
    requires i < j <= |values| && IsObsolete(values[i], now)
    ensures Place(values, now, i) < Place(values, now, j)
    decreases j
  {
    if i + 1 < j {
      PlaceRises(values, now, i, j - 1);
    }
  }

  lemma ObsoleteNext(values: seq<Res>, now: set<Name>, n: nat)
    requires n < |values|
    ensures Obsolete(values[..n + 1], now)
      == Obsolete(values[..n], now) + if IsObsolete(values[n], now) then [values[n]] else []
  {
    assert values[..n + 1][..n] == values[..n];
  }

  lemma PlacesMore(values: seq<Res>, now: set<Name>, at: seq<nat>, n: nat)
    requires Places(values, now, at) && n < |values| && |at| == Place(values, now, n)
    ensures IsObsolete(values[n], now) ==> Places(values, now, at + [n])
    ensures Place(values, now, n + 1) == if IsObsolete(values[n], now) then |at| + 1 else |at|
  {
  }

  lemma LocatedMore(part: seq<Resource>, whole: seq<Resource>, at: seq<nat>, n: nat)
    requires Located(part, whole, at) && n < |whole|
    ensures Located(part + [whole[n]], whole, at + [n])
  {
  }

  /** What the prune loop of Apply works on: where it started and the obsolete entries with their positions. */
  datatype Plan = Plan(start: Engine, sent: seq<Call>, before: seq<Res>, gone: seq<Res>, at: seq<nat>, now: set<Name>,
      faults: nat -> DeleteFault) {
    ghost predicate Fits(toBeDeleted: seq<Resource>, oldResources: seq<Resource>) {
      && Distinct(oldResources) && |before| == |oldResources| && |gone| == |toBeDeleted|
      && Located(toBeDeleted, oldResources, at) && Places(before, now, at) && Selected(gone, before, at)
      && forall k :: 0 <= k < |at| ==> oldResources[at[k]].Describes(before[at[k]])
    }
  }

  lemma PlanFits(p: Plan, toBeDeleted: seq<Resource>, oldResources: seq<Resource>)
    requires Distinct(oldResources) && p.before == Values(oldResources) && p.gone == Values(toBeDeleted)
    requires Located(toBeDeleted, oldResources, p.at) && Places(p.before, p.now, p.at)
    ensures p.Fits(toBeDeleted, oldResources)
  {
  }

  /** The obsolete entries among the first `n`, with their positions. */
  ghost predicate Collected(part: seq<Resource>, whole: seq<Resource>, values: seq<Res>, now: set<Name>, at: seq<nat>,
      n: nat)
    requires n <= |values|
    reads part
  {
    && Places(values, now, at) && |at| == Place(values, now, n) && Located(part, whole, at)
    && Values(part) == Obsolete(values[..n], now)
  }

  lemma CollectedMore(part: seq<Resource>, whole: seq<Resource>, values: seq<Res>, now: set<Name>, at: seq<nat>, n: nat)
    requires n < |values| == |whole| && values[n] == whole[n].Value() && Collected(part, whole, values, now, at, n)
    ensures if IsObsolete(values[n], now) then Collected(part + [whole[n]], whole, values, now, at + [n], n + 1)
      else Collected(part, whole, values, now, at, n + 1)
  {
    ObsoleteNext(values, now, n);
    PlacesMore(values, now, at, n);
    LocatedMore(part, whole, at, n);
    ValuesSnoc(part, whole[n]);
  }

  /** The loop of resourcesToBeDeleted. */
  method CollectObsolete(oldResources: seq<Resource>, names: set<Name>)
    returns (toBeDeleted: seq<Resource>, ghost at: seq<nat>)
    ensures Collected(toBeDeleted, oldResources, Values(oldResources), names, at, |oldResources|)
  {
    ghost var values := Values(oldResources);
    toBeDeleted, at := [], [];
    var n := 0;
    while n < |oldResources|
      invariant 0 <= n <= |oldResources|
      invariant Collected(toBeDeleted, oldResources, values, names, at, n)
    {
      var resource := oldResources[n];
      CollectedMore(toBeDeleted, oldResources, values, names, at, n);
      if resource.status == Synced && Name(resource.ns, resource.name) !in names {
        toBeDeleted, at := toBeDeleted + [resource], at + [n];
      }
      n := n + 1;
    }
  }

  /** resourcesToBeDeleted: references into the old list. */
  method ToBeDeleted(oldResources: seq<Resource>, currentObjs: seq<Obj>)
    returns (toBeDeleted: seq<Resource>, ghost at: seq<nat>)
    ensures Values(toBeDeleted) == Obsolete(Values(oldResources), Names(currentObjs))
    ensures Located(toBeDeleted, oldResources, at) && Places(Values(oldResources), Names(currentObjs), at)
  {
    var names := NameSet(currentObjs);
    toBeDeleted, at := CollectObsolete(oldResources, names);
    ghost var values := Values(oldResources);
    assert values[..|oldResources|] == values;
  }

  lemma {:induction false} AttemptsStop(faults: nat -> DeleteFault, m: nat, n: nat)
    requires m < n && Attempts(faults, m) == m && faults(m) == DeleteAborted
    ensures Attempts(faults, n) == m
  {
    if m + 1 < n {
      AttemptsStop(faults, m, n - 1);
    }
  }

  /** Marking the entry with the place `n`, and no other, takes the list one delete further. */
  lemma MarkNext(prev: seq<Res>, now: set<Name>, faults: nat -> DeleteFault, n: nat, p: nat)
    requires p < |prev| && Place(prev, now, p) == n && IsObsolete(prev[p], now)
    ensures Marked(prev, now, faults, n + 1) == Marked(prev, now, faults, n)[p := MarkedAt(prev, now, faults, n + 1, p)]
  {
    forall i | 0 <= i < |prev| && i != p
      ensures MarkedAt(prev, now, faults, n + 1, i) == MarkedAt(prev, now, faults, n, i)
    {
      if IsObsolete(prev[i], now) {
        if i < p { PlaceRises(prev, now, i, p); } else { PlaceRises(prev, now, p, i); }
      }
    }
  }

  lemma NoneMarked(prev: seq<Res>, now: set<Name>, faults: nat -> DeleteFault)
    ensures Marked(prev, now, faults, 0) == prev
  {
  }

  lemma Unnamed(toBeDeleted: seq<Resource>, before: seq<Res>, now: set<Name>)
    requires Values(toBeDeleted) == Obsolete(before, now)
    ensures forall r :: r in toBeDeleted ==> Name(r.ns, r.name) !in now
  {
    forall r | r in toBeDeleted ensures Name(r.ns, r.name) !in now {
      var i :| 0 <= i < |toBeDeleted| && toBeDeleted[i] == r;
      assert Values(toBeDeleted)[i] in Obsolete(before, now);
    }
  }

  lemma {:induction false} PutStops(api: Api, w: World, objs: seq<Obj>, faults: nat -> ApplyFault, m: nat, n: nat)
    requires m <= n <= |objs| && PutFirst(api, w, objs, faults, m).failed
    ensures PutFirst(api, w, objs, faults, n) == PutFirst(api, w, objs, faults, m)
  {
    if m < n {
      PutStops(api, w, objs, faults, m, n - 1);
    }
  }

  lemma {:induction false} SyncStops(api: Api, w: World, objs: seq<Obj>, prev: seq<Res>, faults: nat -> ApplyFault,
      m: nat, n: nat)
    requires m <= n <= |objs| && SyncFirst(api, w, objs, prev, faults, m).failed
    ensures SyncFirst(api, w, objs, prev, faults, n) == SyncFirst(api, w, objs, prev, faults, m)
  {
    if m < n {
      SyncStops(api, w, objs, prev, faults, m, n - 1);
    }
  }

  lemma SyncNext(api: Api, w: World, objs: seq<Obj>, prev: seq<Res>, faults: nat -> ApplyFault, n: nat)
    requires n < |objs| && !SyncFirst(api, w, objs, prev, faults, n).failed
    ensures SyncFirst(api, w, objs, prev, faults, n + 1)
      == SyncOne(api, SyncFirst(api, w, objs, prev, faults, n), prev, objs[n], faults(n))
  {
  }

  lemma {:induction false} PruneStops(api: Api, start: Engine, rs: seq<Res>, faults: nat -> DeleteFault, m: nat, n: nat)
    requires m <= n <= |rs| && PruneFirst(api, start, rs, faults, m).failed
    ensures PruneFirst(api, start, rs, faults, n) == PruneFirst(api, start, rs, faults, m)
  {
    if m < n {
      PruneStops(api, start, rs, faults, m, n - 1);
    }
  }

  lemma PutNext(api: Api, w: World, objs: seq<Obj>, faults: nat -> ApplyFault, n: nat)
    requires n < |objs| && !PutFirst(api, w, objs, faults, n).failed
    ensures PutFirst(api, w, objs, faults, n + 1) == PutOne(api, PutFirst(api, w, objs, faults, n), objs[n], faults(n))
  {
  }

  lemma RemoveNext(api: Api, w: World, objs: seq<Obj>, faults: nat -> DeleteFault, n: nat)
    requires n < |objs| && !RemoveFirst(api, w, objs, faults, n).failed
    ensures RemoveFirst(api, w, objs, faults, n + 1)
      == RemoveOne(api, RemoveFirst(api, w, objs, faults, n), objs[n], faults(n))
  {
  }

  lemma PruneNextStep(api: Api, start: Engine, rs: seq<Res>, faults: nat -> DeleteFault, n: nat)
    requires n < |rs| && !PruneFirst(api, start, rs, faults, n).failed
    ensures PruneFirst(api, start, rs, faults, n + 1)
      == PruneOne(api, PruneFirst(api, start, rs, faults, n), rs[n], faults(n))
    ensures faults(n) != DeleteAborted && Attempts(faults, n) == n ==> Attempts(faults, n + 1) == n + 1
  {
  }

  lemma CleanNext(api: Api, w: World, rs: seq<Res>, faults: nat -> DeleteFault, n: nat)
    requires n < |rs| && !CleanFirst(api, w, rs, faults, n).failed
    ensures CleanFirst(api, w, rs, faults, n + 1) == CleanOne(api, CleanFirst(api, w, rs, faults, n), rs[n], faults(n))
  {
  }

  lemma PruneAborts(api: Api, start: Engine, rs: seq<Res>, faults: nat -> DeleteFault, n: nat)
    requires n < |rs| && !PruneFirst(api, start, rs, faults, n).failed
    requires faults(n) == DeleteAborted && Attempts(faults, n) == n
    ensures PruneFirst(api, start, rs, faults, |rs|) == PruneFirst(api, start, rs, faults, n).(failed := true)
    ensures Attempts(faults, |rs|) == n
  {
    PruneNextStep(api, start, rs, faults, n);
    PruneStops(api, start, rs, faults, n + 1, |rs|);
    AttemptsStop(faults, n, |rs|);
  }

  lemma {:induction false} RemoveStops(api: Api, w: World, objs: seq<Obj>, faults: nat -> DeleteFault, m: nat, n: nat)
    requires m <= n <= |objs| && RemoveFirst(api, w, objs, faults, m).failed
    ensures RemoveFirst(api, w, objs, faults, n) == RemoveFirst(api, w, objs, faults, m)
  {
    if m < n {
      RemoveStops(api, w, objs, faults, m, n - 1);
    }
  }

  lemma {:induction false} CleanStops(api: Api, w: World, rs: seq<Res>, faults: nat -> DeleteFault, m: nat, n: nat)
    requires m <= n <= |rs| && CleanFirst(api, w, rs, faults, m).failed
    ensures CleanFirst(api, w, rs, faults, n) == CleanFirst(api, w, rs, faults, m)
  {
    if m < n {
      CleanStops(api, w, rs, faults, m, n - 1);
    }
  }

  /** The cluster that a client talks to. */
  class Client {
    const api: Api
    var world: World
    ghost var calls: seq<Call>

    constructor (api: Api, world: World)
      ensures this.api == api && this.world == world && calls == []
    {
      this.api, this.world, calls := api, world, [];
    }

    /** A server-side apply; the answer can be an error although the object was written. */
    method Put(key: Key, obj: Obj, fault: ApplyFault) returns (ok: bool)
      requires fault.ApplyOk? || fault.ApplyFailed?
      modifies this
      ensures ok <==> fault == ApplyOk
      ensures world == if ok || fault.took then old(world)[key := obj] else old(world)
      ensures calls == old(calls) + [Call.Put(key, obj)]
    {
      ok := fault == ApplyOk;
      calls := calls + [Call.Put(key, obj)];
      if ok || fault.took {
        world := world[key := obj];
      }
    }

    method Remove(key: Key, fault: DeleteFault) returns (ok: bool)
      requires !fault.DeleteAborted?
      modifies this
      ensures ok <==> fault == DeleteOk
      ensures world == if ok || fault.took then old(world) - {key} else old(world)
      ensures calls == old(calls) + [Call.Remove(key)]
    {
      ok := fault == DeleteOk;
      calls := calls + [Call.Remove(key)];
      if ok || fault.took {
        world := world - {key};
      }
    }

    /** The client has come to the state `e` of an operation that started when `sent` was all it had sent. */
    ghost predicate Reached(e: Engine, sent: seq<Call>, resources: seq<Res>, requeue: bool)
      reads this
    {
      e == Engine(world, resources, requeue, false, e.calls) && calls == sent + e.calls
    }

    ghost predicate Stopped(e: Engine, sent: seq<Call>)
      reads this
    {
      e.failed && world == e.world && calls == sent + e.calls
    }

    /** What a caller sees of the end of an operation: an error comes without list and requeue. */
    ghost predicate Returned(e: Engine, sent: seq<Call>, resources: seq<Res>, requeue: bool, failed: bool)
      reads this
    {
      && failed == e.failed && world == e.world && calls == sent + e.calls
      && (failed ==> resources == [] && !requeue)
      && (!failed ==> resources == e.resources && requeue == e.requeue)
    }

    /** The body of the first loop of ApplyNewClusterStack. */
    method PutObject(newObject: Obj, fault: ApplyFault, resources: seq<Resource>, requeue: bool, ghost e: Engine,
        ghost sent: seq<Call>)
      returns (newResources: seq<Resource>, shouldRequeue: bool)
      requires fault != LabelFailed && Reached(e, sent, Values(resources), requeue)
      modifies this
      ensures forall r :: r in newResources ==> r in resources || fresh(r)
      ensures Reached(PutOne(api, e, newObject, fault), sent, Values(newResources), shouldRequeue)
    {
      newResources, shouldRequeue := resources, requeue;
      var resource := new Resource(newObject);
      if fault == NoInterface {
        return resources, true;
      }
      var ok := Put(api.KeyOf(newObject), Owned(newObject), fault);
      if !ok {
        resource.error := APPLY_ERROR;
        resource.status := NotSynced;
        shouldRequeue := true;
      }
      resource.status := Synced;
      ValuesSnoc(newResources, resource);
      newResources := newResources + [resource];
    }

    /** First loop of ApplyNewClusterStack: every object of the new template is applied. */
    method PutNew(newObjects: seq<Obj>, faults: nat -> ApplyFault)
      returns (newResources: seq<Resource>, shouldRequeue: bool, failed: bool)
      modifies this
      ensures forall r :: r in newResources ==> fresh(r)
      ensures Returned(PutFirst(api, old(world), newObjects, faults, |newObjects|), old(calls), Values(newResources),
                       shouldRequeue, failed)
    {
      newResources, shouldRequeue, failed := [], false, false;
      var n := 0;
      while n < |newObjects|
        invariant 0 <= n <= |newObjects|
        invariant forall r :: r in newResources ==> fresh(r)
        invariant Reached(PutFirst(api, old(world), newObjects, faults, n), old(calls), Values(newResources),
                          shouldRequeue)
      {
        ghost var e := PutFirst(api, old(world), newObjects, faults, n);
        PutNext(api, old(world), newObjects, faults, n);
        if faults(n) == LabelFailed {
          PutStops(api, old(world), newObjects, faults, n + 1, |newObjects|);
          return [], false, true;
        }
        newResources, shouldRequeue := PutObject(newObjects[n], faults(n), newResources, shouldRequeue, e, old(calls));
        n := n + 1;
      }
    }

    /** The body of the second loop. */
    method PruneObject(object_: Obj, fault: DeleteFault, resources: seq<Resource>, requeue: bool, ghost e: Engine,
        ghost sent: seq<Call>)
      returns (newResources: seq<Resource>, shouldRequeue: bool)
      requires fault != DeleteAborted && Reached(e, sent, Values(resources), requeue)
      modifies this
      ensures forall r :: r in newResources ==> r in resources || fresh(r)
      ensures Reached(PruneOne(api, e, FromObj(object_), fault), sent, Values(newResources), shouldRequeue)
    {
      newResources, shouldRequeue := resources, requeue;
      var resource := new Resource(object_);
      var ok := Remove(api.KeyOf(object_), fault);
      if !ok {
        resource.status := NotSynced;
        resource.error := DELETE_ERROR;
        ValuesSnoc(newResources, resource);
        newResources := newResources + [resource];
        shouldRequeue := true;
      }
    }

    /** The iteration for the old object `n`. */
    method PruneOldNext(toBeDeleted: seq<Obj>, n: nat, faults: nat -> DeleteFault, resources: seq<Resource>,
                        requeue: bool,
                        ghost start: Engine, ghost sent: seq<Call>)
      returns (newResources: seq<Resource>, shouldRequeue: bool, failed: bool)
      requires n < |toBeDeleted|
      requires Reached(PruneFirst(api, start, FromObjs(toBeDeleted), faults, n), sent, Values(resources), requeue)
      modifies this
      ensures forall r :: r in newResources ==> r in resources || fresh(r)
      ensures failed ==> Stopped(PruneFirst(api, start, FromObjs(toBeDeleted), faults, |toBeDeleted|), sent)
      ensures !failed ==>
        Reached(PruneFirst(api, start, FromObjs(toBeDeleted), faults, n + 1), sent, Values(newResources), shouldRequeue)
    {
      ghost var gone := FromObjs(toBeDeleted);
      newResources, shouldRequeue, failed := resources, requeue, faults(n) == DeleteAborted;
      PruneNextStep(api, start, gone, faults, n);
      if failed {
        PruneStops(api, start, gone, faults, n + 1, |gone|);
      } else {
        newResources, shouldRequeue :=
          PruneObject(toBeDeleted[n], faults(n), resources, requeue, PruneFirst(api, start, gone, faults, n), sent);
      }
    }

    /** Second loop: the old objects that the new template does not name are deleted. */
    method PruneOld(toBeDeleted: seq<Obj>, faults: nat -> DeleteFault, resources: seq<Resource>, requeue: bool,
                    ghost start: Engine, ghost sent: seq<Call>)
      returns (newResources: seq<Resource>, shouldRequeue: bool, failed: bool)
      requires Reached(start, sent, Values(resources), requeue)
      modifies this
      ensures forall r :: r in newResources ==> r in resources || fresh(r)
      ensures Returned(PruneFirst(api, start, FromObjs(toBeDeleted), faults, |toBeDeleted|), sent,
                       Values(newResources), shouldRequeue, failed)
    {
      newResources, shouldRequeue, failed := resources, requeue, false;
      var n := 0;
      while n < |toBeDeleted|
        invariant 0 <= n <= |toBeDeleted|
        invariant forall r :: r in newResources ==> r in resources || fresh(r)
        invariant Reached(PruneFirst(api, start, FromObjs(toBeDeleted), faults, n), sent, Values(newResources),
                          shouldRequeue)
      {
        newResources, shouldRequeue, failed :=
          PruneOldNext(toBeDeleted, n, faults, newResources, shouldRequeue, start, sent);
        if failed {
          return [], false, true;
        }
        n := n + 1;
      }
      failed := false;
    }

    /** ApplyNewClusterStack. */
    method ApplyNewClusterStack(oldObjects: seq<Obj>, newObjects: seq<Obj>, faults: KubeFaults)
      returns (newResources: seq<Resource>, shouldRequeue: bool, failed: bool)
      modifies this
      ensures forall r :: r in newResources ==> fresh(r)
      ensures Returned(ApplyNew(api, old(world), oldObjects, newObjects, faults), old(calls), Values(newResources),
                       shouldRequeue, failed)
    {
      newResources, shouldRequeue, failed := [], false, false;
      if !faults.parsed {
        return [], false, true;
      }
      newResources, shouldRequeue, failed := PutNew(newObjects, faults.apply);
      if !failed {
        var toBeDeleted := ToBeDeletedFromObjects(oldObjects, newObjects);
        newResources, shouldRequeue, failed := PruneOld(toBeDeleted, faults.delete, newResources, shouldRequeue,
          PutFirst(api, old(world), newObjects, faults.apply, |newObjects|), old(calls));
      }
    }

    /** The body of the loop of DeleteNewClusterStack: the entry ends up as synced whatever the delete answered. */
    method RemoveObject(object_: Obj, fault: DeleteFault, resources: seq<Resource>, requeue: bool, ghost e: Engine,
        ghost sent: seq<Call>)
      returns (newResources: seq<Resource>, shouldRequeue: bool)
      requires fault != DeleteAborted && Reached(e, sent, Values(resources), requeue)
      modifies this
      ensures forall r :: r in newResources ==> r in resources || fresh(r)
      ensures Reached(RemoveOne(api, e, object_, fault), sent, Values(newResources), shouldRequeue)
    {
      newResources, shouldRequeue := resources, requeue;
      var resource := new Resource(object_);
      var ok := Remove(api.KeyOf(object_), fault);
      if !ok {
        resource.status := NotSynced;
        resource.error := DELETE_ERROR;
        shouldRequeue := true;
      }
      resource.status := Synced;
      ValuesSnoc(newResources, resource);
      newResources := newResources + [resource];
    }

    /** DeleteNewClusterStack. */
    method DeleteNewClusterStack(objects: seq<Obj>, faults: KubeFaults)
      returns (newResources: seq<Resource>, shouldRequeue: bool, failed: bool)
      modifies this
      ensures forall r :: r in newResources ==> fresh(r)
      ensures Returned(DeleteNew(api, old(world), objects, faults), old(calls), Values(newResources), shouldRequeue,
                       failed)
    {
      newResources, shouldRequeue, failed := [], false, false;
      if !faults.parsed {
        return [], false, true;
      }
      var n := 0;
      while n < |objects|
        invariant 0 <= n <= |objects|
        invariant forall r :: r in newResources ==> fresh(r)
        invariant Reached(RemoveFirst(api, old(world), objects, faults.delete, n), old(calls), Values(newResources),
                          shouldRequeue)
      {
        ghost var e := RemoveFirst(api, old(world), objects, faults.delete, n);
        RemoveNext(api, old(world), objects, faults.delete, n);
        if faults.delete(n) == DeleteAborted {
          RemoveStops(api, old(world), objects, faults.delete, n + 1, |objects|);
          return [], false, true;
        }
        newResources, shouldRequeue :=
          RemoveObject(objects[n], faults.delete(n), newResources, shouldRequeue, e, old(calls));
        n := n + 1;
      }
    }

    /** The first loop of Apply for an object that is not recorded as synced. */
    method SyncObject(obj: Obj, fault: ApplyFault, resources: seq<Resource>, requeue: bool, ghost prev: seq<Res>,
        ghost e: Engine, ghost sent: seq<Call>)
      returns (newResources: seq<Resource>, shouldRequeue: bool)
      requires fault != LabelFailed && !Recorded(prev, NameOf(obj)) && Reached(e, sent, Values(resources), requeue)
      modifies this
      ensures forall r :: r in newResources ==> r in resources || Name(r.ns, r.name) == NameOf(obj)
      ensures Reached(SyncOne(api, e, prev, obj, fault), sent, Values(newResources), shouldRequeue)
    {
      newResources, shouldRequeue := resources, requeue;
      var resource := new Resource(obj);
      if fault == NoInterface {
        resource.error := APPLY_ERROR;
        resource.status := NotSynced;
        return resources, true;
      }
      var ok := Put(api.KeyOf(obj), Owned(obj), fault);
      if !ok {
        resource.error := APPLY_ERROR;
        resource.status := NotSynced;
        shouldRequeue := true;
      } else {
        resource.status := Synced;
      }
      ValuesSnoc(newResources, resource);
      newResources := newResources + [resource];
    }

    /** The first `n` objects have been dealt with. */
    ghost predicate SyncedTo(w: World, objs: seq<Obj>, prev: seq<Res>, faults: nat -> ApplyFault, sent: seq<Call>,
        n: nat, resources: seq<Resource>, requeue: bool)
      reads this, resources
    {
      && n <= |objs| && AllNamed(resources, Names(objs))
      && Reached(SyncFirst(api, w, objs, prev, faults, n), sent, Values(resources), requeue)
    }

    /** The same inside the loop, where the map of the old entries is at hand. */
    ghost predicate Syncing(
      w: World, objs: seq<Obj>, prev: seq<Res>, faults: nat -> ApplyFault, sent: seq<Call>, n: nat,
      m: map<Name, Resource>, oldResources: seq<Resource>, resources: seq<Resource>, requeue: bool)
      reads this, m.Values, resources
    {
      Maps(m, oldResources, prev) && SyncedTo(w, objs, prev, faults, sent, n, resources, requeue)
    }

    /** An entry already synced is carried over by reference. */
    method KeepEntry(entry: Resource, obj: Obj, fault: ApplyFault, resources: seq<Resource>, ghost requeue: bool,
        ghost prev: seq<Res>, ghost e: Engine, ghost sent: seq<Call>)
      returns (newResources: seq<Resource>)
      requires Recorded(prev, NameOf(obj)) && entry.Value() == Lookup(prev, NameOf(obj)).value
        && Reached(e, sent, Values(resources), requeue)
      ensures forall r :: r in newResources ==> r in resources || Name(r.ns, r.name) == NameOf(obj)
      ensures Reached(SyncOne(api, e, prev, obj, fault), sent, Values(newResources), requeue)
    {
      ValuesSnoc(resources, entry);
      newResources := resources + [entry];
    }

    /** One object of the template. */
    method SyncEntry(obj: Obj, fault: ApplyFault, m: map<Name, Resource>, resources: seq<Resource>, requeue: bool,
                     ghost oldResources: seq<Resource>, ghost prev: seq<Res>, ghost e: Engine, ghost sent: seq<Call>)
      returns (newResources: seq<Resource>, shouldRequeue: bool, failed: bool)
      requires Maps(m, oldResources, prev) && Reached(e, sent, Values(resources), requeue)
      modifies this
      ensures forall r :: r in newResources ==> r in resources || Name(r.ns, r.name) == NameOf(obj)
      ensures failed ==> Stopped(SyncOne(api, e, prev, obj, fault), sent)
      ensures !failed ==> Reached(SyncOne(api, e, prev, obj, fault), sent, Values(newResources), shouldRequeue)
    {
      newResources, shouldRequeue, failed := resources, requeue, false;
      if NameOf(obj) in m && m[NameOf(obj)].status == Synced {
        newResources := KeepEntry(m[NameOf(obj)], obj, fault, resources, requeue, prev, e, sent);
      } else if fault == LabelFailed {
        failed := true;
      } else {
        newResources, shouldRequeue := SyncObject(obj, fault, resources, requeue, prev, e, sent);
      }
    }

    /** The body of the first loop of Apply. */
    method SyncOrKeep(objs: seq<Obj>, n: nat, faults: nat -> ApplyFault, m: map<Name, Resource>,
                      resources: seq<Resource>, requeue: bool,
                      ghost oldResources: seq<Resource>, ghost prev: seq<Res>, ghost w: World, ghost sent: seq<Call>)
      returns (newResources: seq<Resource>, shouldRequeue: bool, failed: bool)
      requires n < |objs| && Syncing(w, objs, prev, faults, sent, n, m, oldResources, resources, requeue)
      modifies this
      ensures !failed ==> Syncing(w, objs, prev, faults, sent, n + 1, m, oldResources, newResources, shouldRequeue)
      ensures failed ==> Stopped(SyncFirst(api, w, objs, prev, faults, |objs|), sent)
    {
      ghost var e := SyncFirst(api, w, objs, prev, faults, n);
      assert NameOf(objs[n]) in Names(objs);
      SyncNext(api, w, objs, prev, faults, n);
      newResources, shouldRequeue, failed :=
        SyncEntry(objs[n], faults(n), m, resources, requeue, oldResources, prev, e, sent);
      if failed {
        SyncStops(api, w, objs, prev, faults, n + 1, |objs|);
      }
    }

    /** First loop of Apply. */
    method SyncLoop(objs: seq<Obj>, faults: nat -> ApplyFault, m: map<Name, Resource>,
        ghost oldResources: seq<Resource>, ghost prev: seq<Res>)
      returns (newResources: seq<Resource>, shouldRequeue: bool, failed: bool)
      requires Maps(m, oldResources, prev)
      modifies this
      ensures !failed ==> SyncedTo(old(world), objs, prev, faults, old(calls), |objs|, newResources, shouldRequeue)
      ensures failed ==> newResources == [] && !shouldRequeue
      ensures failed ==> Stopped(SyncFirst(api, old(world), objs, prev, faults, |objs|), old(calls))
    {
      newResources, shouldRequeue, failed := [], false, false;
      var n := 0;
      while n < |objs|
        invariant 0 <= n <= |objs|
        invariant Syncing(old(world), objs, prev, faults, old(calls), n, m, oldResources, newResources, shouldRequeue)
      {
        newResources, shouldRequeue, failed :=
          SyncOrKeep(objs, n, faults, m, newResources, shouldRequeue, oldResources, prev, old(world), old(calls));
        if failed {
          return [], false, true;
        }
        n := n + 1;
      }
      failed := false;
    }

    /** First half of Apply. */
    method SyncNew(objs: seq<Obj>, oldResources: seq<Resource>, faults: nat -> ApplyFault)
      returns (newResources: seq<Resource>, shouldRequeue: bool, failed: bool)
      modifies this
      ensures AllNamed(newResources, Names(objs))
      ensures Returned(SyncFirst(api, old(world), objs, Values(oldResources), faults, |objs|), old(calls),
                       Values(newResources), shouldRequeue, failed)
    {
      var resourceMap := GetResourceMap(oldResources);
      newResources, shouldRequeue, failed := SyncLoop(objs, faults, resourceMap, oldResources, Values(oldResources));
    }

    /** The body of the second loop: an entry whose delete fails is marked in place and stays listed. */
    method PruneEntry(resource: Resource, fault: DeleteFault, resources: seq<Resource>, requeue: bool, ghost was: Res,
        ghost e: Engine, ghost sent: seq<Call>)
      returns (newResources: seq<Resource>, shouldRequeue: bool)
      requires fault != DeleteAborted && Reached(e, sent, Values(resources), requeue)
      requires resource in resources ==> resource.status == NotSynced && resource.error == DELETE_ERROR
      requires resource.Describes(was)
      modifies this, resource
      ensures newResources == if fault == DeleteOk then resources else resources + [resource]
      ensures resource.Value()
        == if fault == DeleteOk then old(resource.Value()) else was.(status := NotSynced, error := DELETE_ERROR)
      ensures Reached(PruneOne(api, e, was, fault), sent, Values(newResources), shouldRequeue)
    {
      newResources, shouldRequeue := resources, requeue;
      var ok := Remove(api.KeyFor(resource.group, resource.kind, resource.name), fault);
      if !ok {
        ghost var listed := Values(resources);
        resource.MarkNotDeleted();
        assert Values(resources) == listed;
        ValuesSnoc(resources, resource);
        newResources := newResources + [resource];
        shouldRequeue := true;
      }
    }

    /** The same, seen from the list that the entry comes from. */
    method PruneListed(ghost toBeDeleted: seq<Resource>, oldResources: seq<Resource>, ghost p: nat,
        resource: Resource, fault: DeleteFault, resources: seq<Resource>, requeue: bool,
                       ghost was: Res, ghost e: Engine, ghost sent: seq<Call>)
      returns (newResources: seq<Resource>, shouldRequeue: bool)
      requires Distinct(oldResources) && p < |oldResources| && oldResources[p] == resource
      requires fault != DeleteAborted && Reached(e, sent, Values(resources), requeue)
      requires AllMarked(resources, toBeDeleted)
      requires resource in toBeDeleted && resource.Describes(was) && resource.Value() == was
      modifies this, oldResources
      ensures AllMarked(newResources, toBeDeleted)
      ensures var now := if fault == DeleteOk then was else was.(status := NotSynced, error := DELETE_ERROR);
        Values(oldResources) == old(Values(oldResources))[p := now]
      ensures Reached(PruneOne(api, e, was, fault), sent, Values(newResources), shouldRequeue)
    {
      assert resource in oldResources;
      newResources, shouldRequeue := PruneEntry(resource, fault, resources, requeue, was, e, sent);
    }

    /** The first `n` obsolete entries have been dealt with. */
    ghost predicate PrunedTo(p: Plan, n: nat, toBeDeleted: seq<Resource>, oldResources: seq<Resource>,
        resources: seq<Resource>, requeue: bool)
      reads this, oldResources, resources
    {
      && n <= |p.gone| == |toBeDeleted| && Attempts(p.faults, n) == n
      && Values(oldResources) == Marked(p.before, p.now, p.faults, n)
      && AllMarked(resources, toBeDeleted)
      && Reached(PruneFirst(api, p.start, p.gone, p.faults, n), p.sent, Values(resources), requeue)
    }

    /** The iteration for the obsolete entry with the place `n`. */
    method PruneNext(ghost p: Plan, n: nat, fault: DeleteFault, toBeDeleted: seq<Resource>,
        oldResources: seq<Resource>, resources: seq<Resource>, requeue: bool)
      returns (newResources: seq<Resource>, shouldRequeue: bool)
      requires p.Fits(toBeDeleted, oldResources) && n < |toBeDeleted|
      requires fault == p.faults(n) && fault != DeleteAborted
      requires PrunedTo(p, n, toBeDeleted, oldResources, resources, requeue)
      modifies this, oldResources
      ensures PrunedTo(p, n + 1, toBeDeleted, oldResources, newResources, shouldRequeue)
    {
      ghost var at := p.at[n];
      ghost var was := p.before[at];
      assert was == p.gone[n];
      assert oldResources[at].Value() == Marked(p.before, p.now, p.faults, n)[at] == was;
      assert toBeDeleted[n] in toBeDeleted;
      MarkNext(p.before, p.now, p.faults, n, at);
      PruneNextStep(api, p.start, p.gone, p.faults, n);
      newResources, shouldRequeue :=
        PruneListed(toBeDeleted, oldResources, at, toBeDeleted[n], fault, resources, requeue, was,
                    PruneFirst(api, p.start, p.gone, p.faults, n), p.sent);
    }

    /** The second loop stopped at an entry without interface. */
    ghost predicate PruneStopped(p: Plan, oldResources: seq<Resource>)
      reads this, oldResources
    {
      && Stopped(PruneFirst(api, p.start, p.gone, p.faults, |p.gone|), p.sent)
      && Values(oldResources) == Marked(p.before, p.now, p.faults, Attempts(p.faults, |p.gone|))
    }

    lemma PruneStop(p: Plan, n: nat, toBeDeleted: seq<Resource>, oldResources: seq<Resource>,
                    resources: seq<Resource>, requeue: bool)
      requires PrunedTo(p, n, toBeDeleted, oldResources, resources, requeue)
      requires n < |p.gone| && p.faults(n) == DeleteAborted
      ensures PruneStopped(p, oldResources)
    {
      PruneAborts(api, p.start, p.gone, p.faults, n);
    }

    /** Second loop: obsolete entries are deleted. */
    method PruneTracked(ghost p: Plan, toBeDeleted: seq<Resource>, oldResources: seq<Resource>,
                        faults: nat -> DeleteFault, resources: seq<Resource>, requeue: bool)
      returns (newResources: seq<Resource>, shouldRequeue: bool, failed: bool)
      requires p.Fits(toBeDeleted, oldResources) && p.faults == faults
      requires PrunedTo(p, 0, toBeDeleted, oldResources, resources, requeue)
      modifies this, oldResources
      ensures !failed ==> PrunedTo(p, |p.gone|, toBeDeleted, oldResources, newResources, shouldRequeue)
      ensures failed ==> newResources == [] && !shouldRequeue && PruneStopped(p, oldResources)
    {
      newResources, shouldRequeue, failed := resources, requeue, false;
      var n: nat := 0;
      while n < |toBeDeleted|
        invariant n <= |toBeDeleted|
        invariant PrunedTo(p, n, toBeDeleted, oldResources, newResources, shouldRequeue)
      {
        if faults(n) == DeleteAborted {
          PruneStop(p, n, toBeDeleted, oldResources, newResources, shouldRequeue);
          return [], false, true;
        }
        newResources, shouldRequeue :=
          PruneNext(p, n, faults(n), toBeDeleted, oldResources, newResources, shouldRequeue);
        n := n + 1;
      }
    }

    /** Second half of Apply. */
    method Prune(objs: seq<Obj>, oldResources: seq<Resource>, faults: nat -> DeleteFault, resources: seq<Resource>,
        requeue: bool, ghost start: Engine, ghost sent: seq<Call>)
      returns (newResources: seq<Resource>, shouldRequeue: bool, failed: bool)
      requires Distinct(oldResources) && AllNamed(resources, Names(objs))
        && Reached(start, sent, Values(resources), requeue)
      modifies this, oldResources
      ensures var gone := Obsolete(old(Values(oldResources)), Names(objs));
        && Returned(PruneFirst(api, start, gone, faults, |gone|), sent, Values(newResources), shouldRequeue, failed)
        && Values(oldResources) == Marked(old(Values(oldResources)), Names(objs), faults, Attempts(faults, |gone|))
    {
      ghost var before := Values(oldResources);
      var toBeDeleted;
      ghost var at;
      toBeDeleted, at := ToBeDeleted(oldResources, objs);
      Unnamed(toBeDeleted, before, Names(objs));
      NoneMarked(before, Names(objs), faults);
      ghost var p := Plan(start, sent, before, Values(toBeDeleted), at, Names(objs), faults);
      PlanFits(p, toBeDeleted, oldResources);
      newResources, shouldRequeue, failed := PruneTracked(p, toBeDeleted, oldResources, faults, resources, requeue);
    }

    /** Apply; the entries of the old list are distinct objects, as they are after decoding. */
    method Apply(objs: seq<Obj>, oldResources: seq<Resource>, faults: KubeFaults)
      returns (newResources: seq<Resource>, shouldRequeue: bool, failed: bool)
      requires Distinct(oldResources)
      modifies this, oldResources
      ensures Returned(Kube.Apply(api, old(world), objs, old(Values(oldResources)), faults), old(calls),
                       Values(newResources), shouldRequeue, failed)
      ensures Values(oldResources) == Leftover(api, old(world), objs, old(Values(oldResources)), faults)
    {
      newResources, shouldRequeue, failed := [], false, false;
      if !faults.parsed {
        return [], false, true;
      }
      ghost var before := Values(oldResources);
      newResources, shouldRequeue, failed := SyncNew(objs, oldResources, faults.apply);
      if !failed {
        newResources, shouldRequeue, failed := Prune(objs, oldResources, faults.delete, newResources, shouldRequeue,
          SyncFirst(api, old(world), objs, before, faults.apply, |objs|), old(calls));
      }
    }

    /** The body of the loop of cleanUpResources. */
    method CleanEntry(resource: Res, fault: DeleteFault, requeue: bool, ghost e: Engine,
        ghost sent: seq<Call>) returns (shouldRequeue: bool)
      requires fault != DeleteAborted && Reached(e, sent, [], requeue)
      modifies this
      ensures Reached(CleanOne(api, e, resource, fault), sent, [], shouldRequeue)
    {
      var ok := Remove(api.CleanKey(resource), fault);
      shouldRequeue := requeue || !ok;
    }

    method CleanLoop(extraResources: seq<Res>, faults: nat -> DeleteFault) returns (shouldRequeue: bool, failed: bool)
      modifies this
      ensures Returned(CleanFirst(api, old(world), extraResources, faults, |extraResources|), old(calls), [],
                       shouldRequeue, failed)
    {
      shouldRequeue, failed := false, false;
      var n := 0;
      while n < |extraResources|
        invariant 0 <= n <= |extraResources|
        invariant Reached(CleanFirst(api, old(world), extraResources, faults, n), old(calls), [], shouldRequeue)
      {
        ghost var e := CleanFirst(api, old(world), extraResources, faults, n);
        CleanNext(api, old(world), extraResources, faults, n);
        if faults(n) == DeleteAborted {
          CleanStops(api, old(world), extraResources, faults, n + 1, |extraResources|);
          return false, true;
        }
        shouldRequeue := CleanEntry(extraResources[n], faults(n), shouldRequeue, e, old(calls));
        n := n + 1;
      }
    }

    /** cleanUpResources of the addon controller: compares whole entries, deletes copies. */
    method CleanUpResources(oldList: seq<Resource>, newList: seq<Resource>, faults: nat -> DeleteFault)
      returns (shouldRequeue: bool, failed: bool)
      modifies this
      ensures Returned(CleanUp(api, old(world), Values(oldList), Values(newList), faults), old(calls), [],
                       shouldRequeue, failed)
    {
      var extraResources := ExtraResources(oldList, newList);
      shouldRequeue, failed := CleanLoop(extraResources, faults);
    }
  }

  method ExtraResources(oldList: seq<Resource>, newList: seq<Resource>) returns (extra: seq<Res>)
    ensures extra == Extra(Values(oldList), set r | r in Values(newList))
  {
    var newMap: set<Res> := {};
    var old_, new_ := Values(oldList), Values(newList);
    var n := 0;
    while n < |newList|
      invariant 0 <= n <= |newList|
      invariant newMap == set r | r in new_[..n]
    {
      assert new_[..n + 1] == new_[..n] + [new_[n]];
      newMap := newMap + {newList[n].Value()};
      n := n + 1;
    }
    assert new_[..n] == new_;
    extra := [];
    n := 0;
    while n < |oldList|
      invariant 0 <= n <= |oldList|
      invariant extra == Extra(old_[..n], newMap)
    {
      assert old_[..n + 1][..n] == old_[..n];
      if oldList[n].Value() !in newMap {
        extra := extra + [oldList[n].Value()];
      }
      n := n + 1;
    }
    assert old_[..n] == old_;
  }
}
