/** The phase machine of etcd snapshot creation. */
module SnapshotCreate {
  import opened Model
  import opened PlanEntry
  import opened Store
  import opened Scheduler
  import opened InitNode
  import opened ControlPlane
  import FullReconcile
  import TierPass

  // ---------------------------------------------------------------- the state in the status

  /** A status with the error of setting a state in it: waiting when something changed. */
  datatype Setting = Setting(status: Status, err: Err)

  function SetState(s: Status, create: Option<int>, phase: SnapshotPhase): Setting {
    if s.createPhase != phase || s.create != create
    then Setting(s.(createPhase := phase, create := create), Waiting)
    else Setting(s, Nil)
  }

  function ResetState(s: Status): Setting {
    if s.create.None? && s.createPhase == NoPhase then Setting(s, Nil) else SetState(s, None, NoPhase)
  }

  function StartOrRestart(s: Status, create: int): Setting {
    if s.create != Some(create) then SetState(s, Some(create), Started) else Setting(s, Nil)
  }

  // ---------------------------------------------------------------- taking the snapshots

  function TakeJob(joinServer: string): Job {
    Job(TakeSnapshot, joinServer, 3, 3)
  }

  /** The errors of the machines so far; a plan that cannot be generated throws them away and ends the loop. */
  datatype Taking = Taking(cluster: Cluster, errs: seq<Err>, aborted: bool)

  function TakenOne(t: Taking, m: string, joinServer: string, w: World): Taking
    requires m in t.cluster.secrets
  {
    if RenderedFor(t.cluster, m, TakeSnapshot, joinServer, w).RenderFails? then
      Taking(t.cluster, [Assigned(t.cluster, m, TakeJob(joinServer), w).err], true)
    else
      var a := Assigned(t.cluster, m, TakeJob(joinServer), w);
      Taking(a.cluster, if a.err == Nil then t.errs else t.errs + [a.err], false)
  }

  /** Every etcd machine gets its snapshot plan, whatever becomes of the others. */
  ghost function TakenFrom(t: Taking, names: seq<string>, joinServer: string, w: World): Taking
    requires Listed(t.cluster, names)
    decreases |names|
  {
    if names == [] || t.aborted then t
    else TakenFrom(TakenOne(t, names[0], joinServer, w), names[1..], joinServer, w)
  }

  ghost function Taken(c: Cluster, joinServer: string, w: World): Taking {
    FullReconcile.TierListed(c, Etcd);
    var servers := Collected(c, Etcd);
    if servers == [] then Taking(c, [Other], true) else TakenFrom(Taking(c, [], false), servers, joinServer, w)
  }

  predicate SomeFailed(errs: seq<Err>) {
    exists i :: 0 <= i < |errs| && errs[i] != Waiting
  }

  // ---------------------------------------------------------------- starting the management services again

  predicate Restartable(c: Cluster, m: string) {
    !Matches(c, IS_INIT_NODE_OR_DELETING, m)
  }

  function RestartNames(c: Cluster, names: seq<string>): (r: seq<string>)
    ensures forall m :: m in r ==> m in names
  {
    if names == [] then []
    else (if Restartable(c, names[0]) then [names[0]] else []) + RestartNames(c, names[1..])
  }

  function RestartJob(joinServer: string): Job {
    Job(Desired, joinServer, 1, -1)
  }

  ghost function ServicesStarted(cp: Object, c: Cluster, filter: Filter, w: World): Given
    requires RoleFilter(filter)
  {
    FullReconcile.TierListed(c, Etcd);
    var t := Reconciled(c, FullReconcile.BootstrapTier(cp.spec.strategy.controlPlaneDrain), SettingsOf(cp, w));
    if t.err != Nil then Given(t.cluster, t.err) else
    var f := FoundInitNode(t.cluster, cp.fixedInitNode);
    if f.err != Nil then Given(f.cluster, f.err)
    else if f.joinURL == "" then Given(f.cluster, Other)
    else
      RolesListed(f.cluster, filter);
      var names := RestartNames(f.cluster, Collected(f.cluster, filter));
      Rolled(f.cluster, names, RestartJob(f.joinURL), w)
  }

  // ---------------------------------------------------------------- the phases

  ghost function WhenStarted(cp: Object, s: Status, c: Cluster, create: int, w: World): Stage {
    var f := FoundInitNode(c, cp.fixedInitNode);
    if f.err != Nil then Stage(s, f.cluster, f.err)
    else if !f.found || f.joinURL == "" then Stage(s, f.cluster, Nil)
    else
      var taken := Taken(f.cluster, f.joinURL, w);
      if taken.errs != [] then
        Stage(if SomeFailed(taken.errs) then SetState(s, Some(create), Unsuccessful).status else s,
              taken.cluster, Waiting)
      else
        var setting := SetState(s, Some(create), RestartCluster);
        Stage(setting.status, taken.cluster, setting.err)
  }

  ghost function WhenRestarting(cp: Object, s: Status, c: Cluster, create: int, w: World): Stage {
    var r := ServicesStarted(cp, c, Etcd, w);
    if r.err != Nil then Stage(s, r.cluster, r.err) else
    var setting := SetState(s, Some(create), Finished);
    Stage(setting.status, r.cluster, setting.err)
  }

  /** createEtcdSnapshot. The phase is read from the object, the state is set in the status. */
  ghost function Created(cp: Object, s: Status, c: Cluster, w: World): Stage {
    match cp.spec.create
    case None =>
      var r := ResetState(s);
      Stage(r.status, c, r.err)
    case Some(create) =>
      if !s.initialized || s.bootstrapped != Yes then Stage(s, c, Nil) else
      var r := StartOrRestart(s, create);
      if r.err != Nil then Stage(r.status, c, r.err) else
      match cp.status.createPhase
      case Started => WhenStarted(cp, r.status, c, create, w)
      case RestartCluster => WhenRestarting(cp, r.status, c, create, w)
      case Unsuccessful => Stage(r.status, c, Nil)
      case Finished => Stage(r.status, c, Nil)
      case _ =>
        var setting := SetState(r.status, Some(create), Started);
        Stage(setting.status, c, setting.err)
  }

  // ---------------------------------------------------------------- as it runs

  method TakeSnapshots(store: PlanStore, joinServer: string, w: World) returns (errs: seq<Err>)
    modifies store
    ensures var t := Taken(old(store.cluster), joinServer, w);
      store.cluster == t.cluster && errs == t.errs
  {
    hide Assigned, Matches;
    var servers := Collect(store.cluster, Etcd);
    FullReconcile.TierListed(store.cluster, Etcd);
    if |servers| == 0 {
      return [Other];
    }
    ghost var start := Taking(store.cluster, [], false);
    errs := [];
    assert servers[0..] == servers;
    for i := 0 to |servers|
      invariant Listed(store.cluster, servers[i..])
      invariant TakenFrom(start, servers, joinServer, w) ==
                TakenFrom(Taking(store.cluster, errs, false), servers[i..], joinServer, w)
    {
      ghost var rest := servers[i..];
      assert rest[0] == servers[i] && rest[1..] == servers[i + 1..];
      assert forall m :: m in rest[1..] ==> m in rest;
      assert servers[i] in rest;
      var s := store.cluster.secrets[servers[i]];
      var fails := w.render(TakeSnapshot, servers[i], s.labels, s.annotations, joinServer).RenderFails?;
      ghost var before := store.cluster;
      var err := Assign(store, servers[i], TakeJob(joinServer), w);
      if fails {
        assert store.cluster == before by { RenderFailsKeeps(before, servers[i], TakeJob(joinServer), w); }
        return [err];
      }
      if err != Nil {
        errs := errs + [err];
      }
    }
    assert servers[|servers|..] == [];
  }

  method StartServices(store: PlanStore, cp: Object, filter: Filter, w: World) returns (err: Err)
    requires RoleFilter(filter)
    modifies store
    ensures Given(store.cluster, err) == ServicesStarted(cp, old(store.cluster), filter, w)
  {
    hide Reconciled, FoundInitNode, Assigned, RoleFilter, Matches;
    FullReconcile.TierListed(store.cluster, Etcd);
    err := TierPass.Reconcile(store, FullReconcile.BootstrapTier(cp.spec.strategy.controlPlaneDrain),
                              SettingsOf(cp, w));
    if err != Nil {
      return;
    }
    var found, joinServer, node;
    found, joinServer, node, err := FindInitNode(store, cp.fixedInitNode);
    if err != Nil {
      return;
    }
    if joinServer == "" {
      return Other;
    }
    var entries := Collect(store.cluster, filter);
    RolesListed(store.cluster, filter);
    err := StartEach(store, entries, joinServer, w);
  }

  /** The loop over the entries, which passes over init nodes and deleting machines. */
  method StartEach(store: PlanStore, entries: seq<string>, joinServer: string, w: World) returns (err: Err)
    requires Listed(store.cluster, entries)
    modifies store
    ensures Given(store.cluster, err) ==
            Rolled(old(store.cluster), RestartNames(old(store.cluster), entries), RestartJob(joinServer), w)
  {
    hide Assigned, Matches;
    ghost var c := store.cluster;
    assert entries[0..] == entries;
    for i := 0 to |entries|
      invariant store.cluster == c
      invariant Rolled(c, RestartNames(c, entries), RestartJob(joinServer), w) ==
                Rolled(c, RestartNames(c, entries[i..]), RestartJob(joinServer), w)
    {
      ghost var rest := entries[i..];
      assert rest[0] == entries[i] && rest[1..] == entries[i + 1..];
      assert entries[i] in entries;
      ghost var later := RestartNames(c, rest[1..]);
      assert [] + later == later;
      if Matches(store.cluster, IS_INIT_NODE_OR_DELETING, entries[i]) {
        continue;
      }
      assert RestartNames(c, rest) == [entries[i]] + later && ([entries[i]] + later)[1..] == later;
      AssignedNil(c, entries[i], RestartJob(joinServer), w);
      err := Assign(store, entries[i], RestartJob(joinServer), w);
      if err != Nil {
        return;
      }
    }
    assert entries[|entries|..] == [];
    return Nil;
  }

  method CreateEtcdSnapshot(store: PlanStore, cp: Object, status: Status, w: World)
    returns (s: Status, err: Err)
    modifies store
    ensures Stage(s, store.cluster, err) == Created(cp, status, old(store.cluster), w)
  {
    hide FoundInitNode, Taken, ServicesStarted, RoleFilter;
    s := status;
    if cp.spec.create.None? {
      var r := ResetState(s);
      return r.status, r.err;
    }
    if !s.initialized || s.bootstrapped != Yes {
      return s, Nil;
    }
    var create := cp.spec.create.value;
    var r := StartOrRestart(s, create);
    s, err := r.status, r.err;
    if err != Nil {
      return;
    }
    match cp.status.createPhase {
      case Started =>
        var found, joinServer, node;
        found, joinServer, node, err := FindInitNode(store, cp.fixedInitNode);
        if err != Nil {
          return;
        }
        if !found || joinServer == "" {
          return s, Nil;
        }
        var errs := TakeSnapshots(store, joinServer, w);
        if |errs| > 0 {
          s := NoteFailures(s, create, errs);
          return s, Waiting;
        }
        r := SetState(s, Some(create), RestartCluster);
        return r.status, r.err;
      case RestartCluster =>
        err := StartServices(store, cp, Etcd, w) by { assert RoleFilter(Etcd) by { EtcdRole(); } }
        if err != Nil {
          return;
        }
        r := SetState(s, Some(create), Finished);
        return r.status, r.err;
      case Unsuccessful =>
        return s, Nil;
      case Finished =>
        return s, Nil;
      case _ =>
        r := SetState(s, Some(create), Started);
        return r.status, r.err;
    }
  }

  lemma EtcdRole()
    ensures RoleFilter(Etcd)
  {
  }

  /** The loop over the errors: the first real failure sets the state. */
  method NoteFailures(status: Status, create: int, errs: seq<Err>) returns (s: Status)
    ensures s == if SomeFailed(errs) then SetState(status, Some(create), Unsuccessful).status else status
  {
    s := status;
    var stateSet := false;
    for i := 0 to |errs|
      invariant s == if exists j :: 0 <= j < i && errs[j] != Waiting
                     then SetState(status, Some(create), Unsuccessful).status else status
      invariant stateSet ==> exists j :: 0 <= j < i && errs[j] != Waiting
    {
      if errs[i] != Waiting {
        if !stateSet {
          var r := SetState(s, Some(create), Unsuccessful);
          s := r.status;
          if r.err == Nil {
            stateSet := true;
          }
        }
      }
    }
  }
}
