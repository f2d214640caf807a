/** Exactly when the operations on a cluster go through: every request that they make is answered. */
module Outcomes {
  import opened Kube
  import opened Stages
  import opened StageRuns

  ghost predicate AllApplied(f: nat -> ApplyFault, n: nat) {
    forall i: nat :: i < n ==> f(i) == ApplyOk
  }

  ghost predicate AllDeleted(f: nat -> DeleteFault, n: nat) {
    forall i: nat :: i < n ==> f(i) == DeleteOk
  }

  lemma {:induction false} PutFirstIff(api: Api, w: World, objs: seq<Obj>, f: nat -> ApplyFault, n: nat)
    requires n <= |objs|
    ensures Acts(PutFirst(api, w, objs, f, n)) <==> AllApplied(f, n)
  {
    if n > 0 {
      PutFirstIff(api, w, objs, f, n - 1);
    }
  }

  lemma {:induction false} PruneFirstIff(api: Api, start: Engine, rs: seq<Res>, f: nat -> DeleteFault, n: nat)
    requires n <= |rs|
    ensures Acts(PruneFirst(api, start, rs, f, n)) <==> Acts(start) && AllDeleted(f, n)
  {
    if n > 0 {
      PruneFirstIff(api, start, rs, f, n - 1);
    }
  }

  lemma {:induction false} RemoveFirstIff(api: Api, w: World, objs: seq<Obj>, f: nat -> DeleteFault, n: nat)
    requires n <= |objs|
    ensures Acts(RemoveFirst(api, w, objs, f, n)) <==> AllDeleted(f, n)
  {
    if n > 0 {
      RemoveFirstIff(api, w, objs, f, n - 1);
    }
  }

  lemma {:induction false} CleanFirstIff(api: Api, w: World, rs: seq<Res>, f: nat -> DeleteFault, n: nat)
    requires n <= |rs|
    ensures Acts(CleanFirst(api, w, rs, f, n)) <==> AllDeleted(f, n)
  {
    if n > 0 {
      CleanFirstIff(api, w, rs, f, n - 1);
    }
  }

  /** Request `i` is made, and it reaches the object. */
  ghost predicate Took(f: nat -> DeleteFault, i: nat) {
    && (f(i) == DeleteOk || f(i) == DeleteFailed(true))
    && forall j: nat :: j < i ==> f(j) != DeleteAborted
  }

  lemma {:induction false} CleanFirstFailsIff(api: Api, w: World, rs: seq<Res>, f: nat -> DeleteFault, n: nat)
    requires n <= |rs|
    ensures CleanFirst(api, w, rs, f, n).failed <==> exists j: nat :: j < n && f(j) == DeleteAborted
  {
    if n > 0 {
      CleanFirstFailsIff(api, w, rs, f, n - 1);
    }
  }

  /** One of the first `n` requests is made for the key, and it reaches the object. */
  ghost predicate TookFor(api: Api, rs: seq<Res>, f: nat -> DeleteFault, n: nat, x: Key)
    requires n <= |rs|
  {
    exists i: nat | i < n :: api.CleanKey(rs[i]) == x && Took(f, i)
  }

  lemma TookForNext(api: Api, rs: seq<Res>, f: nat -> DeleteFault, n: nat, x: Key)
    requires 0 < n <= |rs|
    ensures TookFor(api, rs, f, n, x)
      <==> TookFor(api, rs, f, n - 1, x) || (api.CleanKey(rs[n - 1]) == x && Took(f, n - 1))
  {
  }

  lemma CleanOneKeepsIff(api: Api, e: Engine, r: Res, f: nat -> DeleteFault, n: nat, x: Key)
    requires e.failed <==> exists j: nat :: j < n && f(j) == DeleteAborted
    ensures x in (if e.failed then e else CleanOne(api, e, r, f(n))).world
      <==> x in e.world && !(api.CleanKey(r) == x && Took(f, n))
  {
  }

  lemma {:induction false} CleanFirstKeepsIff(api: Api, w: World, rs: seq<Res>, f: nat -> DeleteFault, n: nat, x: Key)
    requires n <= |rs|
    ensures x in CleanFirst(api, w, rs, f, n).world
      <==> x in w && !TookFor(api, rs, f, n, x)
  {
    if n > 0 {
      var e := CleanFirst(api, w, rs, f, n - 1);
      CleanFirstFailsIff(api, w, rs, f, n - 1);
      CleanFirstKeepsIff(api, w, rs, f, n - 1, x);
      CleanOneKeepsIff(api, e, rs[n - 1], f, n - 1, x);
      TookForNext(api, rs, f, n, x);
    }
  }

  /** Every request that the action of a stage makes is answered. */
  ghost predicate ActionOk(stage: Stage, charts: Charts, f: StageFaults) {
    var name := stage.key.name;
    && f.kube.parsed
    && if stage.key.action == APPLY
       then AllApplied(f.kube.apply, |charts.next(name)|)
         && AllDeleted(f.kube.delete, |Pruned(charts.prev(name), Names(charts.next(name)))|)
       else AllDeleted(f.kube.delete, |charts.doomed(name)|)
  }

  lemma ActionIff(api: Api, w: World, stage: Stage, charts: Charts, f: StageFaults)
    ensures Acts(ActionEngine(api, w, stage, charts, f)) <==> ActionOk(stage, charts, f)
  {
    var name := stage.key.name;
    if f.kube.parsed {
      if stage.key.action == APPLY {
        var next, gone := charts.next(name), FromObjs(Pruned(charts.prev(name), Names(charts.next(name))));
        PutFirstIff(api, w, next, f.kube.apply, |next|);
        PruneFirstIff(api, PutFirst(api, w, next, f.kube.apply, |next|), gone, f.kube.delete, |gone|);
      } else {
        RemoveFirstIff(api, w, charts.doomed(name), f.kube.delete, |charts.doomed(name)|);
      }
    }
  }
}
