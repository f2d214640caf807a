/** The runtime extension that Cluster API calls around an upgrade, with its in-memory record of patched addons. */
module HookServer {
  import opened Stages
  import opened Reconciling
  import opened Protocol
  import opened ClusterAddon

  /** What Cluster API looks at: without retry a success lets the upgrade go on. */
  datatype Response = Response(success: bool, retryAfterSeconds: nat) {
    predicate Releases() {
      success && retryAfterSeconds == 0
    }
  }

  /** A request names the cluster: name, namespace and class. */
  datatype Request = Request(name: string, ns: string, class_: string)

  class Handler {
    const store: Store
    var hookRecord: map<string, string>

    /** NewHandler: an operator that restarts begins with an empty record. */
    constructor (store: Store)
      ensures this.store == store && hookRecord == map[]
    {
      this.store, hookRecord := store, map[];
    }

    function HasAlreadyPatched(key: string, hook: string): bool
      reads this
    {
      key in hookRecord && hookRecord[key] == hook
    }

    /** The handler serves the cluster `c` in the system state `sys`. */
    ghost predicate Serves(c: Cluster, sys: System, request: Request)
      reads this, store
    {
      && sys.record == hookRecord && sys.state.addon == store.addon
      && request == Request(c.name, c.ns, sys.class_)
    }

    /**
     DoBeforeClusterUpgrade is the step `UpgradeHook` of the protocol: it leaves that record and that addon, and
     answers Success without retry exactly if that step releases the upgrade.
     */
    method DoBeforeClusterUpgrade(request: Request, found: bool, persisted: bool, ghost c: Cluster,
        ghost sys: System) returns (response: Response)
      requires Serves(c, sys, request)
      modifies this, store
      ensures Serves(c, Next(c, sys, UpgradeHook(found, persisted)), request)
      ensures response.Releases() <==>
        found && Released(sys.class_) in Next(c, sys, UpgradeHook(found, persisted)).history[|sys.history|..]
      ensures response == if !found then Response(false, 0) else Response(true, if response.Releases() then 0 else 10)
    {
      if !found {
        return Response(false, 0);
      }
      var addon := new AddonObject.Decode(store.addon);
      var hookRecordKey := RecordKey(request.name, request.ns, request.class_);
      if addon.hook != BEFORE_CLUSTER_UPGRADE && !HasAlreadyPatched(hookRecordKey, BEFORE_CLUSTER_UPGRADE) {
        addon.hook := BEFORE_CLUSTER_UPGRADE;
        addon.helm := Absent;
        if persisted {
          store.addon := addon.Encode();
        }
        hookRecord := hookRecord[hookRecordKey := BEFORE_CLUSTER_UPGRADE];
      }
      response := Response(true, if addon.helm == True then 0 else 10);
    }

    /** DoAfterControlPlaneInitialized is the step `InitHook`; it never blocks. */
    method DoAfterControlPlaneInitialized(request: Request, found: bool, persisted: bool, ghost c: Cluster,
        ghost sys: System) returns (response: Response)
      requires Serves(c, sys, request)
      modifies this, store
      ensures Serves(c, Next(c, sys, InitHook(found, persisted)), request)
      ensures response == Response(found, 0)
    {
      if !found {
        return Response(false, 0);
      }
      var addon := new AddonObject.Decode(store.addon);
      if addon.hook != AFTER_CONTROL_PLANE_INITIALIZED {
        addon.hook := AFTER_CONTROL_PLANE_INITIALIZED;
        addon.helm := Absent;
        if persisted {
          store.addon := addon.Encode();
        }
      }
      response := Response(true, 0);
    }
  }
}
