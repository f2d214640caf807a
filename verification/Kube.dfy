/**
 The API objects of a workload cluster and the effect of the apply, prune and delete
 operations of `pkg/kube` on them, as functions of the old cluster and of the outcome of every
 external call.  `KubeClient.dfy` holds the operations in the form the operator has them.
 */
module Kube {
  import opened Results

  /** An object as a template states it; `owned` is the ownership label that `setLabel` adds. */
  datatype Obj = Obj(group: string, version: string, kind: string, ns: string, name: string, body: string, owned: bool)

  /** What the operator compares objects by: namespace and name, without the kind. */
  datatype Name = Name(ns: string, name: string)

  /** What the API server identifies objects by: no API version, namespace only where the kind has one. */
  datatype Key = Key(group: string, kind: string, ns: string, name: string)

  type World = map<Key, Obj>

  datatype Status = Unset | Synced | NotSynced

  /** The value of a tracked `Resource` of the status. */
  datatype Res = Res(group: string, version: string, kind: string, ns: string, name: string, status: Status,
      error: string)

  const APPLY_ERROR := "failed to apply object"
  const DELETE_ERROR := "failed to delete object"

  /** The REST mapping of the cluster and the namespace the client was made for. */
  datatype Api = Api(namespaced: (string, string) -> bool, ns: string) {
    function KeyFor(group: string, kind: string, name: string): Key {
      Key(group, kind, if namespaced(group, kind) then ns else "", name)
    }

    function KeyOf(o: Obj): Key {
      KeyFor(o.group, o.kind, o.name)
    }

    function ResKey(r: Res): Key {
      KeyFor(r.group, r.kind, r.name)
    }

    /** The key under which the final clean-up deletes: the namespace of the resource itself counts there. */
    function CleanKey(r: Res): Key {
      var ns := if r.ns == "" then "kube-system" else r.ns;
      Key(r.group, r.kind, if namespaced(r.group, r.kind) then ns else "", r.name)
    }

    function KeysOf(objs: seq<Obj>): set<Key> {
      set o | o in objs :: KeyOf(o)
    }
  }

  function NameOf(o: Obj): Name {
    Name(o.ns, o.name)
  }

  function ResName(r: Res): Name {
    Name(r.ns, r.name)
  }

  function Names(objs: seq<Obj>): set<Name> {
    set o | o in objs :: NameOf(o)
  }

  function Owned(o: Obj): Obj {
    o.(owned := true)
  }

  function FromObj(o: Obj): Res {
    Res(o.group, o.version, o.kind, o.ns, o.name, Unset, "")
  }

  /** Outcome of one apply. A failed call may nevertheless have reached the object. */
  datatype ApplyFault = ApplyOk | LabelFailed | NoInterface | ApplyFailed(took: bool)

  /** Outcome of one delete; `DeleteOk` includes "not found". */
  datatype DeleteFault = DeleteOk | DeleteAborted | DeleteFailed(took: bool)

  datatype KubeFaults = KubeFaults(parsed: bool, apply: nat -> ApplyFault, delete: nat -> DeleteFault) {
    ghost predicate None() {
      parsed && (forall i: nat :: apply(i) == ApplyOk) && (forall i: nat :: delete(i) == DeleteOk)
    }
  }

  /** One write request sent to the API server. */
  datatype Call = Put(key: Key, obj: Obj) | Remove(key: Key)

  /** State of an operation: the cluster, the list it builds, its two verdicts, the requests so far. */
  datatype Engine = Engine(world: World, resources: seq<Res>, requeue: bool, failed: bool, calls: seq<Call>)

  function Start(w: World): Engine {
    Engine(w, [], false, false, [])
  }

  // ---------------------------------------------------------------------------------------
  // ApplyNewClusterStack and DeleteNewClusterStack
  // ---------------------------------------------------------------------------------------

  /** Old objects whose namespace and name the new template does not name, in their old order. */
  function Pruned(prev: seq<Obj>, now: set<Name>): (r: seq<Obj>)
    ensures forall o :: o in r <==> o in prev && NameOf(o) !in now
  {
    if prev == [] then []
    else
      var r := Pruned(prev[..|prev| - 1], now);
      var last := prev[|prev| - 1];
      assert prev == prev[..|prev| - 1] + [last];
      if NameOf(last) in now then r else r + [last]
  }

  function PutOne(api: Api, e: Engine, o: Obj, fault: ApplyFault): Engine {
    var key := api.KeyOf(o);
    match fault
    case LabelFailed => e.(failed := true)
    case NoInterface => e.(requeue := true)
    case ApplyFailed(took) =>
      e.(world := if took then e.world[key := Owned(o)] else e.world,
         resources := e.resources + [FromObj(o).(status := Synced, error := APPLY_ERROR)],
         requeue := true,
         calls := e.calls + [Put(key, Owned(o))])
    case ApplyOk =>
      e.(world := e.world[key := Owned(o)],
         resources := e.resources + [FromObj(o).(status := Synced)],
         calls := e.calls + [Put(key, Owned(o))])
  }

  /** The first `n` new objects have been dealt with. */
  function PutFirst(api: Api, w: World, objs: seq<Obj>, faults: nat -> ApplyFault, n: nat): Engine
    requires n <= |objs|
  {
    if n == 0 then Start(w)
    else
      var e := PutFirst(api, w, objs, faults, n - 1);
      if e.failed then e else PutOne(api, e, objs[n - 1], faults(n - 1))
  }

  function PruneOne(api: Api, e: Engine, r: Res, fault: DeleteFault): Engine {
    var key := api.ResKey(r);
    match fault
    case DeleteAborted => e.(failed := true)
    case DeleteFailed(took) =>
      e.(world := if took then e.world - {key} else e.world,
         resources := e.resources + [r.(status := NotSynced, error := DELETE_ERROR)],
         requeue := true,
         calls := e.calls + [Remove(key)])
    case DeleteOk =>
      e.(world := e.world - {key}, calls := e.calls + [Remove(key)])
  }

  function FromObjs(objs: seq<Obj>): (r: seq<Res>)
    ensures |r| == |objs|
    ensures forall i :: 0 <= i < |objs| ==> r[i] == FromObj(objs[i])
  {
    seq(|objs|, i requires 0 <= i < |objs| => FromObj(objs[i]))
  }

  /** The first `n` resources to prune have been dealt with, after `start`. */
  function PruneFirst(api: Api, start: Engine, rs: seq<Res>, faults: nat -> DeleteFault, n: nat): Engine
    requires n <= |rs|
  {
    if n == 0 then start
    else
      var e := PruneFirst(api, start, rs, faults, n - 1);
      if e.failed then e else PruneOne(api, e, rs[n - 1], faults(n - 1))
  }

  function ApplyNew(api: Api, w: World, prev: seq<Obj>, next: seq<Obj>, faults: KubeFaults): Engine {
    if !faults.parsed then Start(w).(failed := true)
    else
      var e := PutFirst(api, w, next, faults.apply, |next|);
      if e.failed then e
      else
        var gone := FromObjs(Pruned(prev, Names(next)));
        PruneFirst(api, e, gone, faults.delete, |gone|)
  }

  /** Every listed resource ends up "synced", whatever the delete answered. */
  function RemoveOne(api: Api, e: Engine, o: Obj, fault: DeleteFault): Engine {
    var key := api.KeyOf(o);
    match fault
    case DeleteAborted => e.(failed := true)
    case DeleteFailed(took) =>
      e.(world := if took then e.world - {key} else e.world,
         resources := e.resources + [FromObj(o).(status := Synced, error := DELETE_ERROR)],
         requeue := true,
         calls := e.calls + [Remove(key)])
    case DeleteOk =>
      e.(world := e.world - {key},
         resources := e.resources + [FromObj(o).(status := Synced)],
         calls := e.calls + [Remove(key)])
  }

  function RemoveFirst(api: Api, w: World, objs: seq<Obj>, faults: nat -> DeleteFault, n: nat): Engine
    requires n <= |objs|
  {
    if n == 0 then Start(w)
    else
      var e := RemoveFirst(api, w, objs, faults, n - 1);
      if e.failed then e else RemoveOne(api, e, objs[n - 1], faults(n - 1))
  }

  function DeleteNew(api: Api, w: World, objs: seq<Obj>, faults: KubeFaults): Engine {
    if !faults.parsed then Start(w).(failed := true) else RemoveFirst(api, w, objs, faults.delete, |objs|)
  }

  // ---------------------------------------------------------------------------------------
  // Apply
  // ---------------------------------------------------------------------------------------

  /** The entry that `getResourceMap` keeps for a name: the last one listed. */
  function Lookup(rs: seq<Res>, name: Name): (r: Option<Res>)
    ensures r.Some? ==> r.value in rs && ResName(r.value) == name
    ensures r.None? <==> forall x :: x in rs ==> ResName(x) != name
  {
    if rs == [] then None
    else if ResName(rs[|rs| - 1]) == name then Some(rs[|rs| - 1])
    else
      assert rs == rs[..|rs| - 1] + [rs[|rs| - 1]];
      Lookup(rs[..|rs| - 1], name)
  }

  predicate Recorded(rs: seq<Res>, name: Name) {
    Lookup(rs, name).Some? && Lookup(rs, name).value.status == Synced
  }

  function SyncOne(api: Api, e: Engine, prev: seq<Res>, o: Obj, fault: ApplyFault): Engine {
    var key := api.KeyOf(o);
    if Recorded(prev, NameOf(o)) then e.(resources := e.resources + [Lookup(prev, NameOf(o)).value])
    else
      match fault
      case LabelFailed => e.(failed := true)
      case NoInterface => e.(requeue := true)
      case ApplyFailed(took) =>
        e.(world := if took then e.world[key := Owned(o)] else e.world,
           resources := e.resources + [FromObj(o).(status := NotSynced, error := APPLY_ERROR)],
           requeue := true,
           calls := e.calls + [Put(key, Owned(o))])
      case ApplyOk =>
        e.(world := e.world[key := Owned(o)],
           resources := e.resources + [FromObj(o).(status := Synced)],
           calls := e.calls + [Put(key, Owned(o))])
  }

  function SyncFirst(api: Api, w: World, objs: seq<Obj>, prev: seq<Res>, faults: nat -> ApplyFault, n: nat): Engine
    requires n <= |objs|
  {
    if n == 0 then Start(w)
    else
      var e := SyncFirst(api, w, objs, prev, faults, n - 1);
      if e.failed then e else SyncOne(api, e, prev, objs[n - 1], faults(n - 1))
  }

  /** Tracked entries that are synced and that the template no longer names, in their old order. */
  function Obsolete(prev: seq<Res>, now: set<Name>): (r: seq<Res>)
    ensures forall x :: x in r <==> x in prev && x.status == Synced && ResName(x) !in now
  {
    if prev == [] then []
    else
      var r := Obsolete(prev[..|prev| - 1], now);
      var last := prev[|prev| - 1];
      assert prev == prev[..|prev| - 1] + [last];
      if last.status == Synced && ResName(last) !in now then r + [last] else r
  }

  function Apply(api: Api, w: World, objs: seq<Obj>, prev: seq<Res>, faults: KubeFaults): Engine {
    if !faults.parsed then Start(w).(failed := true)
    else
      var e := SyncFirst(api, w, objs, prev, faults.apply, |objs|);
      if e.failed then e
      else
        var gone := Obsolete(prev, Names(objs));
        PruneFirst(api, e, gone, faults.delete, |gone|)
  }

  predicate IsObsolete(r: Res, now: set<Name>) {
    r.status == Synced && ResName(r) !in now
  }

  /** Deletes attempted of `total`: the first one without interface ends the loop. */
  function Attempts(faults: nat -> DeleteFault, total: nat): (n: nat)
    ensures n <= total
  {
    if total == 0 then 0
    else
      var n := Attempts(faults, total - 1);
      if n < total - 1 || faults(n) == DeleteAborted then n else total
  }

  /** How many entries before position `i` are obsolete. */
  function Place(prev: seq<Res>, now: set<Name>, i: nat): nat
    requires i <= |prev|
  {
    if i == 0 then 0 else Place(prev, now, i - 1) + if IsObsolete(prev[i - 1], now) then 1 else 0
  }

  /** An entry among the first `n` obsolete ones whose delete failed is marked. */
  function MarkedAt(prev: seq<Res>, now: set<Name>, faults: nat -> DeleteFault, n: nat, i: nat): Res
    requires i < |prev|
  {
    var place := Place(prev, now, i);
    if IsObsolete(prev[i], now) && place < n && faults(place).DeleteFailed?
    then prev[i].(status := NotSynced, error := DELETE_ERROR)
    else prev[i]
  }

  function Marked(prev: seq<Res>, now: set<Name>, faults: nat -> DeleteFault, n: nat): (r: seq<Res>)
    ensures |r| == |prev|
    ensures forall i :: 0 <= i < |prev| ==> r[i] == MarkedAt(prev, now, faults, n, i)
  {
    seq(|prev|, i requires 0 <= i < |prev| => MarkedAt(prev, now, faults, n, i))
  }

  /** What `Apply` leaves of the list it was given: it marks failed deletes on the old entries themselves. */
  function Leftover(api: Api, w: World, objs: seq<Obj>, prev: seq<Res>, faults: KubeFaults): seq<Res> {
    if !faults.parsed || SyncFirst(api, w, objs, prev, faults.apply, |objs|).failed then prev
    else
      var total := |Obsolete(prev, Names(objs))|;
      Marked(prev, Names(objs), faults.delete, Attempts(faults.delete, total))
  }

  // ---------------------------------------------------------------------------------------
  // cleanUpResources
  // ---------------------------------------------------------------------------------------

  /** Old resources that are not, as whole values, among the new ones, in their old order. */
  function Extra(prev: seq<Res>, now: set<Res>): (r: seq<Res>)
    ensures forall x :: x in r <==> x in prev && x !in now
  {
    if prev == [] then []
    else
      var r := Extra(prev[..|prev| - 1], now);
      var last := prev[|prev| - 1];
      assert prev == prev[..|prev| - 1] + [last];
      if last in now then r else r + [last]
  }

  function CleanOne(api: Api, e: Engine, r: Res, fault: DeleteFault): Engine {
    var key := api.CleanKey(r);
    match fault
    case DeleteAborted => e.(failed := true)
    case DeleteFailed(took) =>
      e.(world := if took then e.world - {key} else e.world, requeue := true, calls := e.calls + [Remove(key)])
    case DeleteOk =>
      e.(world := e.world - {key}, calls := e.calls + [Remove(key)])
  }

  function CleanFirst(api: Api, w: World, rs: seq<Res>, faults: nat -> DeleteFault, n: nat): Engine
    requires n <= |rs|
  {
    if n == 0 then Start(w)
    else
      var e := CleanFirst(api, w, rs, faults, n - 1);
      if e.failed then e else CleanOne(api, e, rs[n - 1], faults(n - 1))
  }

  function CleanUp(api: Api, w: World, prev: seq<Res>, next: seq<Res>, faults: nat -> DeleteFault): Engine {
    var extra := Extra(prev, set r | r in next);
    CleanFirst(api, w, extra, faults, |extra|)
  }
}
