/** The phase machine of etcd snapshot restoration. */
module SnapshotRestore {
  import opened Model
  import opened PlanEntry
  import opened Store
  import opened Scheduler
  import opened InitNode
  import opened ControlPlane
  import opened FullReconcile

  // ---------------------------------------------------------------- the state in the status

  datatype Setting = Setting(status: Status, err: Err)

  function SetState(s: Status, restore: Option<Restore>, phase: SnapshotPhase): Setting {
    if s.restore != restore || s.restorePhase != phase
    then Setting(s.(restore := restore, restorePhase := phase), Waiting)
    else Setting(s, Nil)
  }

  function ResetState(s: Status): Setting {
    if s.restore.None? && s.restorePhase == NoPhase then Setting(s, Nil) else SetState(s, None, NoPhase)
  }

  function StartOrRestart(s: Status, restore: Restore): Setting {
    if s.restore != Some(restore) then SetState(s, Some(restore), Started) else Setting(s, Nil)
  }

  // ---------------------------------------------------------------- who restores

  /** runEtcdRestoreInitNodeElection. */
  ghost function RestoreElection(cp: Object, snapshot: Option<Snapshot>, c: Cluster): Election {
    match snapshot
    case Some(s) =>
      if s.s3 then Elected(c, cp.fixedInitNode, true)
      else if s.machineId.Some? then Designated(c, s.machineId.value)
      else Election(c, "", Other)
    case None =>
      if |Collected(c, CAN_BE_INIT_NODE)| != 1 then Election(c, "", Other)
      else Elected(c, cp.fixedInitNode, true)
  }

  // ---------------------------------------------------------------- stopping the services

  function StopPlan(c: Cluster, m: string, joinServer: string, w: World): Rendered
    requires m in c.secrets
  {
    RenderedFor(c, m, ServiceStop, joinServer, w)
  }

  datatype Stopping = Stopping(cluster: Cluster, updated: bool, err: Err)

  /** One machine: without a plan it is passed over, otherwise it is given its stop plan unless it holds it. */
  function StoppedOne(s: Stopping, m: string, joinServer: string, w: World): (s': Stopping)
    requires m in s.cluster.secrets
    ensures OnlyTouches(s.cluster, s'.cluster, {m})
  {
    if m !in s.cluster.nodes then s else
    match StopPlan(s.cluster, m, joinServer, w)
    case RenderFails(ignorable) => s.(err := RenderErr(ignorable))
    case Rendered(plan, joinedTo) =>
      if s.cluster.nodes[m].plan == plan then s else
      var u := PlanUpdate(s.cluster, m, NodeOf(s.cluster, m), plan, joinedTo, 0, 0);
      if u.err != Nil then Stopping(u.cluster, s.updated, u.err) else Stopping(u.cluster, true, Nil)
  }

  ghost function StoppedAll(s: Stopping, names: seq<string>, joinServer: string, w: World): (s': Stopping)
    requires Listed(s.cluster, names)
    decreases |names|
  {
    if names == [] || s.err != Nil then s
    else StoppedAll(StoppedOne(s, names[0], joinServer, w), names[1..], joinServer, w)
  }

  /** Some machine of these has a plan that is not in sync. */
  predicate SomeUnsynced(c: Cluster, names: seq<string>) {
    exists m :: m in names && m in c.nodes && !c.nodes[m].inSync
  }

  ghost function AfterElection(c: Cluster, joinServer: string, w: World): Given {
    var deleting := Collected(c, And(Etcd, Deleting));
    if deleting != [] then Given(c, if w.forceDelete then Waiting else Other) else
    AnyRoleListed(c);
    var servers := Collected(c, ANY_ROLE_WITHOUT_WINDOWS);
    var stopped := StoppedAll(Stopping(c, false, Nil), servers, joinServer, w);
    if stopped.err != Nil then Given(stopped.cluster, stopped.err)
    else if stopped.updated then Given(stopped.cluster, Waiting)
    else if SomeUnsynced(stopped.cluster, servers) then Given(stopped.cluster, Waiting)
    else if Collected(stopped.cluster, And(Etcd, Not(Deleting))) == [] then Given(stopped.cluster, Waiting)
    else Given(stopped.cluster, Nil)
  }

  /** runEtcdRestoreServiceStop. */
  ghost function ServicesStopped(cp: Object, snapshot: Option<Snapshot>, c: Cluster, w: World): Given {
    var e := RestoreElection(cp, snapshot, c);
    if e.err != Nil then Given(e.cluster, e.err) else AfterElection(e.cluster, e.joinURL, w)
  }

  lemma AnyRoleListed(c: Cluster)
    ensures Listed(c, Collected(c, ANY_ROLE_WITHOUT_WINDOWS))
  {
    assert RoleFilter(Or(Filter.ControlPlane, Worker));
    assert RoleFilter(ANY_ROLE);
    RolesListed(c, ANY_ROLE_WITHOUT_WINDOWS);
  }

  lemma InitNodesListed(c: Cluster)
    ensures Listed(c, Collected(c, Filter.InitNode))
    ensures Listed(c, Collected(c, And(Filter.ControlPlane, Not(Deleting))))
  {
    RolesListed(c, Filter.InitNode);
    assert RoleFilter(Filter.ControlPlane);
    RolesListed(c, And(Filter.ControlPlane, Not(Deleting)));
  }

  // ---------------------------------------------------------------- restoring and cleaning up

  /** runEtcdSnapshotRestorePlan. */
  ghost function Restored(cp: Object, snapshot: Option<Snapshot>, c: Cluster, w: World): Given {
    var e := RestoreElection(cp, snapshot, c);
    if e.err != Nil then Given(e.cluster, e.err) else
    InitNodesListed(e.cluster);
    var servers := Collected(e.cluster, Filter.InitNode);
    if |servers| != 1 then Given(e.cluster, Other)
    else if !w.pause then Given(e.cluster, Other)
    else
      assert servers[0] in servers;
      Assigned(e.cluster, servers[0], Job(SnapshotRestore, e.joinURL, 1, 1), w)
  }

  /** runEtcdSnapshotPostRestorePodCleanupPlan. */
  ghost function PodsCleaned(cp: Object, c: Cluster, w: World): Given {
    var initNodes := Collected(c, Filter.InitNode);
    if |initNodes| != 1 then Given(c, Other) else
    InitNodesListed(c);
    var m := initNodes[0];
    assert m in initNodes;
    if Matches(c, Filter.ControlPlane, m) then Assigned(c, m, Job(RestoredPods, "", 5, 5), w) else
    var a := Assigned(c, m, Job(Desired, "", 5, 5), w);
    if a.err != Nil then a else
    var f := FoundInitNode(a.cluster, cp.fixedInitNode);
    if f.joinURL == "" then Given(f.cluster, Waiting)
    else if f.err != Nil then Given(f.cluster, f.err)
    else
      InitNodesListed(f.cluster);
      var controlPlanes := Collected(f.cluster, And(Filter.ControlPlane, Not(Deleting)));
      if controlPlanes == [] then Given(f.cluster, Other)
      else Assigned(f.cluster, controlPlanes[0], Job(RestoredPods, f.joinURL, 5, 5), w)
  }

  /** runEtcdSnapshotPostRestoreNodeCleanupPlan. */
  ghost function NodesCleaned(c: Cluster, w: World): Given {
    var initNodes := Collected(c, Filter.InitNode);
    if |initNodes| != 1 then Given(c, Other) else
    InitNodesListed(c);
    assert initNodes[0] in initNodes;
    Assigned(c, initNodes[0], Job(RestoredNodes, "", 5, 5), w)
  }

  // ---------------------------------------------------------------- the phases

  /** The recorded version of the snapshot rules its restoration out, or cannot be read. */
  predicate VersionBars(snapshot: Option<Snapshot>, oldVersion: bool) {
    snapshot.Some? &&
    (snapshot.value.version.Unreadable? || (!oldVersion && snapshot.value.version.Older?))
  }

  /** One full reconciliation, and the next phase when it ends without an error. The status of a reconciliation that
      ends without an error is dropped. */
  ghost function Restarted(cp: Object, s: Status, c: Cluster, restore: Restore, next: SnapshotPhase, w: World): Stage {
    if !w.unpause then Stage(s, c, Other) else
    var f := FullyReconciled(cp, s, c, true, w).stage;
    if f.err != Nil then f else
    var setting := SetState(s, Some(restore), next);
    Stage(setting.status, f.cluster, setting.err)
  }

  /** What is dropped is the mark that the cluster has been bootstrapped, and nothing else: a reconciliation that ends
      with nil has set it, and the restart leaves it as it was. */
  lemma RestartDropsBootstrapped(cp: Object, s: Status, c: Cluster, restore: Restore, next: SnapshotPhase, w: World)
    ensures var f, r := FullyReconciled(cp, s, c, true, w).stage, Restarted(cp, s, c, restore, next, w);
      w.unpause && f.err == Nil ==>
        && f.status == s.(bootstrapped := Yes)
        && r.status == s.(restore := Some(restore), restorePhase := next)
  {
    hide Elected, FoundInitNode, Reconciled, Matches;
  }

  function Advanced(s: Status, given: Given, restore: Restore, next: SnapshotPhase): Stage {
    if given.err != Nil then Stage(s, given.cluster, given.err) else
    var setting := SetState(s, Some(restore), next);
    Stage(setting.status, given.cluster, setting.err)
  }

  ghost function InPhase(cp: Object, s: Status, c: Cluster, restore: Restore, snapshot: Option<Snapshot>, w: World)
    : Stage
  {
    match cp.status.restorePhase
    case Started =>
      Stage(SetState(s.(initialized := false, ready := false), Some(restore), Shutdown).status, c, Waiting)
    case Shutdown =>
      var stopped := ServicesStopped(cp, snapshot, c, w);
      if stopped.err != Nil then Stage(s, stopped.cluster, stopped.err)
      else Stage(SetState(s.(bootstrapped := No), Some(restore), Restoring).status, stopped.cluster, Waiting)
    case Restoring =>
      var restored := Restored(cp, snapshot, c, w);
      if restored.err != Nil then Stage(s, restored.cluster, restored.err) else
      var setting := SetState(s.(configGeneration := s.configGeneration + 1), Some(restore), PodCleanup);
      Stage(setting.status, restored.cluster, setting.err)
    case PodCleanup => Advanced(s, PodsCleaned(cp, c, w), restore, InitialRestart)
    case InitialRestart => Restarted(cp, s, c, restore, NodeCleanup, w)
    case NodeCleanup => Advanced(s, NodesCleaned(c, w), restore, RestartCluster)
    case RestartCluster => Restarted(cp, s, c, restore, Finished, w)
    case Finished => Stage(s, c, Nil)
    case _ =>
      var setting := SetState(s, Some(restore), Started);
      Stage(setting.status, c, setting.err)
  }

  /** restoreEtcdSnapshot. */
  ghost function RestoreStage(cp: Object, s: Status, c: Cluster, w: World): Stage {
    if cp.spec.restore.None? || cp.spec.restore.value.name == "" then
      var r := ResetState(s);
      Stage(r.status, c, r.err)
    else
      var restore := cp.spec.restore.value;
      var r := StartOrRestart(s, restore);
      if r.err != Nil then Stage(r.status, c, r.err) else
      match w.snapshot
      case Bad(_) => Stage(s, c, Other)
      case Good(snapshot) =>
        if VersionBars(snapshot, w.oldVersion) then Stage(s, c, Other)
        else InPhase(cp, s, c, restore, snapshot, w)
  }

  // ---------------------------------------------------------------- as it runs

  method ElectForRestore(store: PlanStore, cp: Object, snapshot: Option<Snapshot>)
    returns (joinURL: string, err: Err)
    modifies store
    ensures Election(store.cluster, joinURL, err) == RestoreElection(cp, snapshot, old(store.cluster))
  {
    hide Elected, Designated, Matches;
    if snapshot.Some? {
      if !snapshot.value.s3 {
        if snapshot.value.machineId.Some? {
          joinURL, err := DesignateInitNodeByMachineID(store, snapshot.value.machineId.value);
          return;
        }
        return "", Other;
      }
      joinURL, err := ElectInitNode(store, cp.fixedInitNode, true);
      return;
    }
    var suitable := Collect(store.cluster, CAN_BE_INIT_NODE);
    if |suitable| == 0 {
      return "", Other;
    } else if |suitable| > 1 {
      return "", Other;
    }
    joinURL, err := ElectInitNode(store, cp.fixedInitNode, true);
  }

  method StopOne(store: PlanStore, m: string, joinServer: string, updated: bool, w: World)
    returns (updated': bool, err: Err)
    requires m in store.cluster.secrets
    modifies store
    ensures Stopping(store.cluster, updated', err) ==
            StoppedOne(Stopping(old(store.cluster), updated, Nil), m, joinServer, w)
  {
    hide PlanUpdate;
    if m !in store.cluster.nodes {
      return updated, Nil;
    }
    var s := store.cluster.secrets[m];
    var stopPlan := w.render(ServiceStop, m, s.labels, s.annotations, joinServer);
    if stopPlan.RenderFails? {
      return updated, RenderErr(stopPlan.ignorable);
    }
    if store.cluster.nodes[m].plan != stopPlan.plan {
      var node;
      err, node := store.UpdatePlan(m, NodeOf(store.cluster, m), stopPlan.plan, stopPlan.joinedTo, 0, 0);
      if err != Nil {
        return updated, err;
      }
      return true, Nil;
    }
    return updated, Nil;
  }

  /** The first loop of the service stop: every server gets its stop plan. */
  method StopAll(store: PlanStore, servers: seq<string>, joinServer: string, w: World)
    returns (updated: bool, err: Err)
    requires Listed(store.cluster, servers)
    modifies store
    ensures Stopping(store.cluster, updated, err) ==
            StoppedAll(Stopping(old(store.cluster), false, Nil), servers, joinServer, w)
  {
    hide StoppedOne;
    updated, err := false, Nil;
    ghost var start := Stopping(store.cluster, false, Nil);
    assert servers[0..] == servers;
    for i := 0 to |servers|
      invariant Listed(store.cluster, servers[i..]) && err == Nil
      invariant StoppedAll(start, servers, joinServer, w) ==
                StoppedAll(Stopping(store.cluster, updated, Nil), servers[i..], joinServer, w)
    {
      ghost var rest := servers[i..];
      assert rest[0] == servers[i] && rest[1..] == servers[i + 1..];
      assert forall m :: m in rest[1..] ==> m in rest;
      assert servers[i] in rest;
      updated, err := StopOne(store, servers[i], joinServer, updated, w);
      if err != Nil {
        return;
      }
    }
    assert servers[|servers|..] == [];
  }

  /** The second loop of the service stop: the first server that is not in sync is waited for. */
  method AwaitSync(c: Cluster, servers: seq<string>) returns (err: Err)
    ensures err == if SomeUnsynced(c, servers) then Waiting else Nil
  {
    for i := 0 to |servers|
      invariant forall k :: 0 <= k < i ==> servers[k] in c.nodes ==> c.nodes[servers[k]].inSync
    {
      if servers[i] in c.nodes && !c.nodes[servers[i]].inSync {
        assert servers[i] in servers;
        return Waiting;
      }
    }
    return Nil;
  }

  method RunServiceStop(store: PlanStore, cp: Object, snapshot: Option<Snapshot>, w: World) returns (err: Err)
    modifies store
    ensures Given(store.cluster, err) == ServicesStopped(cp, snapshot, old(store.cluster), w)
  {
    hide RestoreElection, StoppedAll, Matches, SomeUnsynced;
    var joinServer;
    joinServer, err := ElectForRestore(store, cp, snapshot);
    if err != Nil {
      return;
    }
    var deleting := Collect(store.cluster, And(Etcd, Deleting));
    if |deleting| > 0 {
      return if w.forceDelete then Waiting else Other;
    }
    AnyRoleListed(store.cluster);
    var servers := Collect(store.cluster, ANY_ROLE_WITHOUT_WINDOWS);
    var updated;
    updated, err := StopAll(store, servers, joinServer, w);
    if err != Nil {
      return;
    }
    if updated {
      return Waiting;
    }
    err := AwaitSync(store.cluster, servers);
    if err != Nil {
      return;
    }
    var etcds := Collect(store.cluster, And(Etcd, Not(Deleting)));
    if |etcds| == 0 {
      return Waiting;
    }
    return Nil;
  }

  method RunRestorePlan(store: PlanStore, cp: Object, snapshot: Option<Snapshot>, w: World) returns (err: Err)
    modifies store
    ensures Given(store.cluster, err) == Restored(cp, snapshot, old(store.cluster), w)
  {
    hide RestoreElection, Assigned, Matches;
    var joinServer;
    joinServer, err := ElectForRestore(store, cp, snapshot);
    if err != Nil {
      return;
    }
    InitNodesListed(store.cluster);
    var servers := Collect(store.cluster, Filter.InitNode);
    if |servers| != 1 {
      return Other;
    }
    if !w.pause {
      return Other;
    }
    assert servers[0] in servers;
    err := Assign(store, servers[0], Job(SnapshotRestore, joinServer, 1, 1), w);
  }

  method RunPodCleanup(store: PlanStore, cp: Object, w: World) returns (err: Err)
    modifies store
    ensures Given(store.cluster, err) == PodsCleaned(cp, old(store.cluster), w)
  {
    hide Assigned, FoundInitNode;
    var initNodes := Collect(store.cluster, Filter.InitNode);
    if |initNodes| != 1 {
      return Other;
    }
    InitNodesListed(store.cluster);
    assert initNodes[0] in initNodes;
    if Matches(store.cluster, Filter.ControlPlane, initNodes[0]) {
      err := Assign(store, initNodes[0], Job(RestoredPods, "", 5, 5), w);
      return;
    }
    err := Assign(store, initNodes[0], Job(Desired, "", 5, 5), w);
    if err != Nil {
      return;
    }
    var found, joinServer, node;
    found, joinServer, node, err := FindInitNode(store, cp.fixedInitNode);
    if joinServer == "" {
      return Waiting;
    }
    if err != Nil {
      return;
    }
    InitNodesListed(store.cluster);
    var controlPlanes := Collect(store.cluster, And(Filter.ControlPlane, Not(Deleting)));
    if |controlPlanes| == 0 {
      return Other;
    }
    assert controlPlanes[0] in controlPlanes;
    err := Assign(store, controlPlanes[0], Job(RestoredPods, joinServer, 5, 5), w);
  }

  method RunNodeCleanup(store: PlanStore, w: World) returns (err: Err)
    modifies store
    ensures Given(store.cluster, err) == NodesCleaned(old(store.cluster), w)
  {
    var initNodes := Collect(store.cluster, Filter.InitNode);
    if |initNodes| != 1 {
      return Other;
    }
    InitNodesListed(store.cluster);
    assert initNodes[0] in initNodes;
    err := Assign(store, initNodes[0], Job(RestoredNodes, "", 5, 5), w);
  }

  method RestartWith(store: PlanStore, cp: Object, status: Status, restore: Restore, next: SnapshotPhase, w: World)
    returns (s: Status, err: Err)
    modifies store
    ensures Stage(s, store.cluster, err) == Restarted(cp, status, old(store.cluster), restore, next, w)
  {
    hide FullyReconciled;
    if !w.unpause {
      return status, Other;
    }
    var inner;
    inner, err := ReconcileAll(store, cp, status, true, w);
    if err != Nil {
      return inner, err;
    }
    var r := SetState(status, Some(restore), next);
    return r.status, r.err;
  }

  method RestoreEtcdSnapshot(store: PlanStore, cp: Object, status: Status, w: World)
    returns (s: Status, err: Err)
    modifies store
    ensures Stage(s, store.cluster, err) == RestoreStage(cp, status, old(store.cluster), w)
  {
    hide ServicesStopped, Restored, PodsCleaned, NodesCleaned, Restarted;
    s := status;
    if cp.spec.restore.None? || cp.spec.restore.value.name == "" {
      var r := ResetState(s);
      return r.status, r.err;
    }
    var restore := cp.spec.restore.value;
    var r := StartOrRestart(s, restore);
    if r.err != Nil {
      return r.status, r.err;
    }
    if w.snapshot.Bad? {
      return s, Other;
    }
    var snapshot := w.snapshot.value;
    if snapshot.Some? {
      if snapshot.value.version.Unreadable? {
        return s, Other;
      }
      if !w.oldVersion && snapshot.value.version.Older? {
        return s, Other;
      }
    }
    match cp.status.restorePhase {
      case Started =>
        if s.initialized || s.ready {
          s := s.(initialized := false, ready := false);
        }
        s := SetState(s, Some(restore), Shutdown).status;
        return s, Waiting;
      case Shutdown =>
        err := RunServiceStop(store, cp, snapshot, w);
        if err != Nil {
          return;
        }
        s := s.(bootstrapped := No);
        s := SetState(s, Some(restore), Restoring).status;
        return s, Waiting;
      case Restoring =>
        err := RunRestorePlan(store, cp, snapshot, w);
        if err != Nil {
          return;
        }
        s := s.(configGeneration := s.configGeneration + 1);
        r := SetState(s, Some(restore), PodCleanup);
        return r.status, r.err;
      case PodCleanup =>
        err := RunPodCleanup(store, cp, w);
        if err != Nil {
          return;
        }
        r := SetState(s, Some(restore), InitialRestart);
        return r.status, r.err;
      case InitialRestart =>
        s, err := RestartWith(store, cp, s, restore, NodeCleanup, w);
      case NodeCleanup =>
        err := RunNodeCleanup(store, w);
        if err != Nil {
          return;
        }
        r := SetState(s, Some(restore), RestartCluster);
        return r.status, r.err;
      case RestartCluster =>
        s, err := RestartWith(store, cp, s, restore, Finished, w);
      case Finished =>
        return s, Nil;
      case _ =>
        r := SetState(s, Some(restore), Started);
        return r.status, r.err;
    }
  }
}
