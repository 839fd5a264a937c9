/** The restore barrier: the snapshot is restored only after every machine has stopped, and until the clean-up is done
    only two machines get new plans. */
module RestoreBarrier {
  import opened Model
  import opened PlanEntry
  import opened Store
  import opened Scheduler
  import opened InitNode
  import opened ControlPlane
  import opened Process
  import opened Exclusivity
  import opened Runs
  import opened SnapshotRestore
  import opened Roster
  import InitNodeRuns
  import RestoreRuns
  import SnapshotCreate
  import CertificateRotation
  import KeyRotation
  import FullReconcile
  import Names

  // ---------------------------------------------------------------- entering the restore phase

  /** The machine has no plan, or its plan is the stop plan for this join server. */
  predicate HoldsStopPlan(c: Cluster, m: string, joinServer: string, w: World)
    requires m in c.secrets
  {
    m in c.nodes ==>
      var stop := StopPlan(c, m, joinServer, w);
      stop.Rendered? && c.nodes[m].plan == stop.plan
  }

  lemma StoppedOneMeans(s: Stopping, m: string, joinServer: string, w: World)
    requires m in s.cluster.secrets && s.err == Nil
    ensures var s' := StoppedOne(s, m, joinServer, w);
      && (s.updated ==> s'.updated)
      && (s'.err == Nil && !s'.updated ==> s' == s && HoldsStopPlan(s.cluster, m, joinServer, w))
  {
    hide PlanUpdate;
  }

  lemma {:induction false} UpdatedStays(s: Stopping, names: seq<string>, joinServer: string, w: World)
    requires Listed(s.cluster, names)
    ensures s.updated ==> StoppedAll(s, names, joinServer, w).updated
    ensures s.err != Nil ==> StoppedAll(s, names, joinServer, w).err != Nil
    decreases |names|
  {
    hide StoppedOne;
    if names != [] && s.err == Nil {
      StoppedOneMeans(s, names[0], joinServer, w);
      UpdatedStays(StoppedOne(s, names[0], joinServer, w), names[1..], joinServer, w);
    }
  }

  lemma {:induction false} StoppedAllMeans(s: Stopping, names: seq<string>, joinServer: string, w: World)
    requires Listed(s.cluster, names) && s.err == Nil && !s.updated
    ensures var s' := StoppedAll(s, names, joinServer, w);
      s'.err == Nil && !s'.updated ==>
        s' == s && forall m :: m in names ==> HoldsStopPlan(s.cluster, m, joinServer, w)
    decreases |names|
  {
    hide StoppedOne, HoldsStopPlan;
    if names != [] {
      var one := StoppedOne(s, names[0], joinServer, w);
      StoppedOneMeans(s, names[0], joinServer, w);
      UpdatedStays(one, names[1..], joinServer, w);
      if one == s {
        StoppedAllMeans(s, names[1..], joinServer, w);
        assert names == [names[0]] + names[1..];
      }
    }
  }

  lemma ElectionKeeps(cp: Object, snapshot: Option<Snapshot>, c: Cluster)
    ensures var e := RestoreElection(cp, snapshot, c);
      InitNodeRuns.Relabelled(c, e.cluster) && (e.err == Nil ==> e.cluster == c)
  {
    hide Elected, Designated, Matches, InitNodeRuns.SameButMark;
    InitNodeRuns.SameRelabelled(c);
    InitNodeRuns.ElectedRelabels(c, cp.fixedInitNode, true);
    if snapshot.Some? && snapshot.value.machineId.Some? {
      InitNodeRuns.DesignatedRelabels(c, snapshot.value.machineId.value);
    }
  }

  /** Every machine with a role, other than the Windows ones, has no plan or has its stop plan, applied. */
  ghost predicate AllStopped(c: Cluster, joinServer: string, w: World) {
    && (forall m :: m in c.machines && Matches(c, ANY_ROLE_WITHOUT_WINDOWS, m) ==>
          m in c.secrets && HoldsStopPlan(c, m, joinServer, w) && (m in c.nodes ==> c.nodes[m].inSync))
    && (forall m :: m in c.machines && Matches(c, Etcd, m) ==> !c.machines[m].deleting)
    && (exists m :: m in c.machines && Matches(c, Etcd, m))
  }

  lemma StopNil(cp: Object, snapshot: Option<Snapshot>, c: Cluster, w: World)
    ensures var stopped := ServicesStopped(cp, snapshot, c, w);
      stopped.err == Nil ==>
        && stopped.cluster == c && AllStopped(c, RestoreElection(cp, snapshot, c).joinURL, w)
        && RestoreRests(c, cp.fixedInitNode, snapshot)
  {
    hide RestoreElection, HoldsStopPlan, StoppedAll, Matches, InitNodeRuns.Relabelled, RestoreRests;
    ElectionKeeps(cp, snapshot, c);
    RestoreElectionNil(cp, snapshot, c);
    AnyRoleListed(c);
    var url := RestoreElection(cp, snapshot, c).joinURL;
    var servers := Collected(c, ANY_ROLE_WITHOUT_WINDOWS);
    StoppedAllMeans(Stopping(c, false, Nil), servers, url, w);
    if ServicesStopped(cp, snapshot, c, w).err == Nil {
      forall m | m in c.machines && Matches(c, ANY_ROLE_WITHOUT_WINDOWS, m)
        ensures m in c.secrets && HoldsStopPlan(c, m, url, w) && (m in c.nodes ==> c.nodes[m].inSync)
      {
        assert m in servers;
      }
      EtcdAlive(c);
    }
  }

  lemma EtcdAlive(c: Cluster)
    requires Collected(c, And(Etcd, Deleting)) == [] && Collected(c, And(Etcd, Not(Deleting))) != []
    ensures forall m :: m in c.machines && Matches(c, Etcd, m) ==> !c.machines[m].deleting
    ensures exists m :: m in c.machines && Matches(c, Etcd, m)
  {
    CollectedHead(c, And(Etcd, Deleting));
    forall m | m in c.machines && Matches(c, Etcd, m) ensures !c.machines[m].deleting {
      assert !Matches(c, And(Etcd, Deleting), m);
      assert Matches(c, Deleting, m) == c.machines[m].deleting;
    }
    var live := Collected(c, And(Etcd, Not(Deleting)));
    assert live[0] in live;
    assert Matches(c, And(Etcd, Not(Deleting)), live[0]);
    assert Matches(c, Etcd, live[0]);
  }

  /** The barrier: a persisted pass goes from the shutdown phase to the restore phase only when every machine has
      stopped; no etcd machine is left deleting, the election has come to rest, and nothing in the cluster is changed by
      that pass. */
  lemma RestoreOnlyAfterStop(cp: Object, c: Cluster, w: World)
    requires RestoreRuns.DownIsUninitialized(cp.status)
    ensures var p := Persisted(cp, c, w);
      cp.status.restorePhase == Shutdown && p.cp.status.restorePhase == Restoring ==>
        && p.cluster == c && (exists joinServer :: AllStopped(c, joinServer, w))
        && w.snapshot.Good? && RestoreRests(c, cp.fixedInitNode, w.snapshot.value)
  {
    hide Persisted, Acting, Planned, SnapshotCreate.Created, ServicesStopped, AllStopped, RestoreRests;
    PersistedMeans(cp, c, w);
    RestoreRuns.OtherStagesKeep(cp, c, w);
    var p := Persisted(cp, c, w);
    if cp.status.restorePhase == Shutdown && p.cp.status.restorePhase == Restoring {
      var snapshot := w.snapshot.value;
      StopNil(cp, snapshot, c, w);
      assert AllStopped(c, RestoreElection(cp, snapshot, c).joinURL, w);
    }
  }

  // ---------------------------------------------------------------- what a shutdown pass leaves

  /** The machine has its stop plan now; if that is new, the plan has no limits. */
  predicate StopStored(c: Cluster, c': Cluster, m: string, joinServer: string, w: World)
    requires m in c.secrets && m in c.nodes
  {
    && m in c'.secrets
    && var s, s' := c.secrets[m], c'.secrets[m];
       match w.render(ServiceStop, m, s.labels, s.annotations, joinServer)
       case RenderFails(_) => false
       case Rendered(plan, joinedTo) =>
         if c.nodes[m].plan == plan then s' == s
         else s'.plan == Encoded(plan) && s'.maxFailures == Absent && s'.failureThreshold == Absent &&
              s'.probeStatuses == Absent && s'.annotations.probesPassed == ""
  }

  lemma OneStored(s: Stopping, m: string, joinServer: string, w: World)
    requires m in s.cluster.secrets && s.err == Nil
    ensures var s' := StoppedOne(s, m, joinServer, w);
      s'.err == Nil && m in s.cluster.nodes ==> StopStored(s.cluster, s'.cluster, m, joinServer, w)
    ensures StoppedOne(s, m, joinServer, w).err != Waiting
  {
    hide SecretToNode;
  }

  lemma StoredFrame(a: Cluster, b: Cluster, c: Cluster, m: string, joinServer: string, w: World)
    requires m in a.secrets && m in a.nodes && m in b.secrets && b.nodes == a.nodes && b.secrets[m] == a.secrets[m]
    ensures StopStored(a, c, m, joinServer, w) <==> StopStored(b, c, m, joinServer, w)
  {
  }

  lemma {:induction false} AllStored(s: Stopping, names: seq<string>, joinServer: string, w: World)
    requires Listed(s.cluster, names) && Names.NoDuplicates(names) && s.err == Nil
    ensures var s' := StoppedAll(s, names, joinServer, w);
      && s'.err != Waiting && s'.cluster.secrets.Keys == s.cluster.secrets.Keys
      && (forall m :: m in s.cluster.secrets && m !in names ==> s'.cluster.secrets[m] == s.cluster.secrets[m])
      && (s'.err == Nil ==>
            forall m :: m in names && m in s.cluster.nodes ==> StopStored(s.cluster, s'.cluster, m, joinServer, w))
    decreases |names|
  {
    hide StoppedOne, StopStored;
    if names != [] {
      var m, rest := names[0], names[1..];
      var one, s' := StoppedOne(s, m, joinServer, w), StoppedAll(s, names, joinServer, w);
      OneStored(s, m, joinServer, w);
      assert OnlyTouches(s.cluster, one.cluster, {m});
      assert names == [m] + rest;
      assert forall i :: 0 <= i < |rest| ==> rest[i] == names[i + 1];
      assert m !in rest;
      if one.err == Nil {
        AllStored(one, rest, joinServer, w);
        if s'.err == Nil {
          forall x | x in names && x in s.cluster.nodes ensures StopStored(s.cluster, s'.cluster, x, joinServer, w) {
            if x == m {
              SameStored(s.cluster, one.cluster, s'.cluster, m, joinServer, w);
            } else {
              StoredFrame(s.cluster, one.cluster, s'.cluster, x, joinServer, w);
            }
          }
        }
      }
    }
  }

  lemma SameStored(a: Cluster, b: Cluster, c: Cluster, m: string, joinServer: string, w: World)
    requires m in a.secrets && m in a.nodes && m in b.secrets && m in c.secrets && c.secrets[m] == b.secrets[m]
    requires StopStored(a, b, m, joinServer, w)
    ensures StopStored(a, c, m, joinServer, w)
  {
  }

  /** Every machine that has a role, a plan and not Windows has its stop plan now. */
  ghost predicate EachStored(c: Cluster, c': Cluster, joinServer: string, w: World) {
    forall m :: m in c.machines && m in c.nodes && m in c.secrets && ToBeStopped(c.secrets[m].labels) ==>
      StopStored(c, c', m, joinServer, w)
  }

  predicate ToBeStopped(l: Labels) {
    (l.etcd || l.controlPlane || l.worker) && !l.windows
  }

  lemma ToBeStoppedMeans(c: Cluster, m: string)
    ensures Matches(c, ANY_ROLE_WITHOUT_WINDOWS, m) <==> m in c.secrets && ToBeStopped(c.secrets[m].labels)
  {
    assert Matches(c, Or(Filter.ControlPlane, Worker), m) <==>
      m in c.secrets && (c.secrets[m].labels.controlPlane || c.secrets[m].labels.worker);
    assert Matches(c, ANY_ROLE, m) <==>
      m in c.secrets &&
      (c.secrets[m].labels.etcd || c.secrets[m].labels.controlPlane || c.secrets[m].labels.worker);
    NotMeans(c, Windows, m);
    AndMeans(c, ANY_ROLE, Not(Windows), m);
  }

  /** Some etcd machine is deleting. */
  ghost predicate EtcdDeleting(c: Cluster) {
    exists m :: m in c.machines && m in c.secrets && c.secrets[m].labels.etcd && c.machines[m].deleting
  }

  lemma EtcdDeletingMeans(c: Cluster)
    ensures Collected(c, And(Etcd, Deleting)) == [] <==> !EtcdDeleting(c)
  {
    CollectedHead(c, And(Etcd, Deleting));
    forall m | m in c.machines
      ensures Matches(c, And(Etcd, Deleting), m) <==>
              m in c.secrets && c.secrets[m].labels.etcd && c.machines[m].deleting
    {
    }
  }

  lemma StoppingStores(c: Cluster, joinServer: string, w: World)
    ensures var r := AfterElection(c, joinServer, w);
      !EtcdDeleting(c) && (r.err == Nil || r.err == Waiting) ==> EachStored(c, r.cluster, joinServer, w)
  {
    hide StoppedAll, Matches, StopStored, SomeUnsynced, EtcdDeleting, ToBeStopped;
    EtcdDeletingMeans(c);
    AnyRoleListed(c);
    var servers := Collected(c, ANY_ROLE_WITHOUT_WINDOWS);
    AllStored(Stopping(c, false, Nil), servers, joinServer, w);
    forall m | m in c.machines && m in c.secrets && ToBeStopped(c.secrets[m].labels) ensures m in servers {
      ToBeStoppedMeans(c, m);
    }
  }

  lemma ShutdownStageStores(cp: Object, c: Cluster, w: World) returns (joinServer: string)
    requires cp.status.restorePhase == Shutdown && RestoreRuns.Asked(cp.spec) && cp.spec.restore == cp.status.restore
    requires w.snapshot.Good? && RestoreRests(c, cp.fixedInitNode, w.snapshot.value) && !EtcdDeleting(c)
    ensures var r := RestoreStage(cp, cp.status, c, w);
      r.err == Nil || r.err == Waiting ==> EachStored(c, r.cluster, joinServer, w)
  {
    hide AfterElection, RestoreElection, EtcdDeleting, EachStored, RestoreRests, InitNodeRuns.Relabelled;
    var snapshot := w.snapshot.value;
    ElectionKeeps(cp, snapshot, c);
    RestoreElectionNil(cp, snapshot, c);
    joinServer := RestoreElection(cp, snapshot, c).joinURL;
    StoppingStores(c, joinServer, w);
  }

  /** A pass that gets to its stages and reports no error has ended with nil or waiting. */
  lemma ReportsNoError(cp: Object, c: Cluster, w: World)
    ensures Planned(cp, c, w) && Persisted(cp, c, w).err == Nil ==>
      Acting(cp, c, w).err == Nil || Acting(cp, c, w).err == Waiting
  {
    hide Acting, Processed, Sane;
    if !cp.deleting { ProcessedMeans(cp, c, w); }
  }

  /** No snapshot is to be taken, and none is on record. */
  predicate NothingToTake(cp: Object) {
    cp.spec.create.None? ==> cp.status.create.None? && cp.status.createPhase == NoPhase
  }

  lemma NothingTaken(cp: Object, c: Cluster, w: World)
    requires NothingToTake(cp) && !cp.status.initialized
    ensures SnapshotCreate.Created(cp, cp.status, c, w).err == Nil
  {
  }

  lemma ShutdownActs(cp: Object, c: Cluster, w: World)
    requires cp.status.restorePhase == Shutdown && NothingToTake(cp) && !cp.status.initialized
    ensures Acting(cp, c, w) == RestoreStage(cp, cp.status, c, w)
  {
    hide SnapshotCreate.Created, RestoreStage, CertificateRotation.RotationStage, KeyRotation.KeyStage, Ordinary;
    NothingTaken(cp, c, w);
    RestoreNil(cp, cp.status, c, w);
  }

  /** A persisted pass in the shutdown phase that gets to its stages and reports no error, once the election has come to
      rest and no etcd machine is deleting, leaves every machine that has a role and a plan and is not Windows with its
      stop plan, without limits if it is new. */
  lemma ShutdownStores(cp: Object, c: Cluster, w: World) returns (joinServer: string)
    requires cp.status.restorePhase == Shutdown && RestoreRuns.Asked(cp.spec) && cp.spec.restore == cp.status.restore
    requires RestoreRuns.DownIsUninitialized(cp.status) && NothingToTake(cp) && Planned(cp, c, w)
    requires w.snapshot.Good? && RestoreRests(c, cp.fixedInitNode, w.snapshot.value) && !EtcdDeleting(c)
    ensures Persisted(cp, c, w).err == Nil ==> EachStored(c, Persisted(cp, c, w).cluster, joinServer, w)
  {
    hide Persisted, Planned, Acting, RestoreStage, EtcdDeleting, EachStored, RestoreRests;
    PersistedMeans(cp, c, w);
    ReportsNoError(cp, c, w);
    ShutdownActs(cp, c, w);
    joinServer := ShutdownStageStores(cp, c, w);
  }

  // ---------------------------------------------------------------- who is written to until the clean-up is done

  /** The plans are as before, but for these machines. */
  ghost predicate PlansKept(c: Cluster, c': Cluster, who: set<string>) {
    && c'.secrets.Keys == c.secrets.Keys
    && forall m :: m in c.secrets && m !in who ==> c'.secrets[m].plan == c.secrets[m].plan
  }

  ghost function FirstControlPlane(c: Cluster): set<string> {
    var controlPlanes := Collected(c, And(Filter.ControlPlane, Not(Deleting)));
    if controlPlanes == [] then {} else {controlPlanes[0]}
  }

  /** The machine with the init-node mark, if exactly one has it, and the first control-plane machine that is not
      deleting. */
  ghost function Writers(c: Cluster): (who: set<string>)
    ensures |who| <= 2
  {
    var initNode := if |Marks(c)| == 1 then Marks(c) else {};
    AtMostTwo(initNode, FirstControlPlane(c));
    initNode + FirstControlPlane(c)
  }

  lemma AtMostTwo(a: set<string>, b: set<string>)
    requires |a| <= 1 && |b| <= 1
    ensures |a + b| <= 2
  {
    assert a + b == a + (b - a) && b == (b - a) + (b * a);
  }

  lemma RelabelledKeepsPlans(c: Cluster, c': Cluster, who: set<string>)
    requires InitNodeRuns.Relabelled(c, c')
    ensures PlansKept(c, c', who)
  {
    forall m | m in c.secrets ensures c'.secrets[m].plan == c.secrets[m].plan {
      assert InitNodeRuns.SameButMark(c.secrets[m], c'.secrets[m]);
    }
  }

  /** There is one marked machine exactly when one is collected. */
  lemma MarkedListed(c: Cluster)
    ensures var initNodes := Collected(c, Filter.InitNode);
      && (|initNodes| == 1 ==> Marks(c) == {initNodes[0]})
      && (|Marks(c)| == 1 ==> |initNodes| == 1)
  {
    hide Matches;
    var initNodes := Collected(c, Filter.InitNode);
    assert forall m :: m in initNodes <==> m in Marks(c);
    if |initNodes| == 1 {
      assert initNodes == [initNodes[0]];
    }
    if |Marks(c)| == 1 {
      var m :| m in Marks(c);
      assert Marks(c) == {m} by { OnlyElement(Marks(c), m); }
      assert m in initNodes;
      Names.Singleton(initNodes, m);
    }
  }

  lemma OnlyElement(s: set<string>, m: string)
    requires |s| == 1 && m in s
    ensures s == {m}
  {
    assert |s - {m}| == 0;
  }

  lemma WritersAre(c: Cluster)
    ensures var initNodes := Collected(c, Filter.InitNode);
      |initNodes| == 1 ==> initNodes[0] in Writers(c)
    ensures var controlPlanes := Collected(c, And(Filter.ControlPlane, Not(Deleting)));
      controlPlanes != [] ==> controlPlanes[0] in Writers(c)
  {
    hide Matches, Marks;
    MarkedListed(c);
  }

  lemma RestoredWrites(cp: Object, snapshot: Option<Snapshot>, c: Cluster, w: World)
    ensures PlansKept(c, Restored(cp, snapshot, c, w).cluster, Writers(c))
  {
    hide RestoreElection, Assigned, Matches, Writers, InitNodeRuns.Relabelled;
    ElectionKeeps(cp, snapshot, c);
    var e := RestoreElection(cp, snapshot, c);
    RelabelledKeepsPlans(c, e.cluster, Writers(c));
    if e.err == Nil {
      WritersAre(c);
      InitNodesListed(c);
    }
  }

  lemma SameKeepsPlans(c: Cluster, who: set<string>)
    ensures PlansKept(c, c, who)
  {
  }

  lemma AssignedKeepsPlans(c: Cluster, m: string, job: Job, w: World, who: set<string>)
    requires m in c.secrets && m in who
    ensures PlansKept(c, Assigned(c, m, job, w).cluster, who)
  {
    hide Assigned;
  }

  lemma PodsCleanedWrites(cp: Object, c: Cluster, w: World)
    ensures PlansKept(c, PodsCleaned(cp, c, w).cluster, Writers(c))
  {
    hide FoundInitNode, Assigned, Matches, Writers, InitNodeRuns.Relabelled, Completed, OnlyTouches, PlansKept;
    WritersAre(c);
    InitNodesListed(c);
    InitNodeRuns.FoundRelabels(c, cp.fixedInitNode);
    RelabelledKeepsPlans(c, FoundInitNode(c, cp.fixedInitNode).cluster, Writers(c));
    SameKeepsPlans(c, Writers(c));
    var initNodes := Collected(c, Filter.InitNode);
    if |initNodes| == 1 {
      var m := initNodes[0];
      AssignedNil(c, m, Job(Desired, "", 5, 5), w);
      AssignedKeepsPlans(c, m, Job(Desired, "", 5, 5), w, Writers(c));
      AssignedKeepsPlans(c, m, Job(RestoredPods, "", 5, 5), w, Writers(c));
      var controlPlanes := Collected(c, And(Filter.ControlPlane, Not(Deleting)));
      if controlPlanes != [] {
        AssignedKeepsPlans(c, controlPlanes[0], Job(RestoredPods, FoundInitNode(c, cp.fixedInitNode).joinURL, 5, 5), w,
                           Writers(c));
      }
    }
  }

  /** In the restore and the pod-clean-up phases, a pass gives plans to the init node and to the first control-plane
      machine at most. */
  lemma PassWrites(cp: Object, c: Cluster, w: World)
    requires RestoreRuns.DownIsUninitialized(cp.status)
    requires cp.status.restorePhase == Restoring || cp.status.restorePhase == PodCleanup
    ensures PlansKept(c, Persisted(cp, c, w).cluster, Writers(c))
  {
    hide Persisted, Acting, Planned, Restored, PodsCleaned, Writers;
    PersistedMeans(cp, c, w);
    ActsBeforeOthers(cp, c, w);
    RestoredWrites(cp, if w.snapshot.Good? then w.snapshot.value else None, c, w);
    PodsCleanedWrites(cp, c, w);
    NotStartedCreates(cp, c, w);
  }

  lemma NotStartedCreates(cp: Object, c: Cluster, w: World)
    requires !cp.status.initialized
    ensures SnapshotCreate.Created(cp, cp.status, c, w).cluster == c
  {
  }

  /** While the cluster is down, no stage after the restore is reached. */
  lemma ActsBeforeOthers(cp: Object, c: Cluster, w: World)
    requires RestoreRuns.Down(cp.status.restorePhase)
    ensures || Acting(cp, c, w) == SnapshotCreate.Created(cp, cp.status, c, w)
            || Acting(cp, c, w) == RestoreStage(cp, cp.status, c, w)
  {
    hide SnapshotCreate.Created, RestoreStage, CertificateRotation.RotationStage, KeyRotation.KeyStage, Ordinary;
    RestoreNil(cp, cp.status, c, w);
  }

  // ---------------------------------------------------------------- the two machines stay the same

  lemma AssignedKeepsLabels(c: Cluster, m: string, job: Job, w: World)
    requires m in c.secrets
    ensures m in Assigned(c, m, job, w).cluster.secrets
    ensures var s, s' := c.secrets[m], Assigned(c, m, job, w).cluster.secrets[m];
      s'.labels == s.labels && s'.annotations.joinURL == s.annotations.joinURL
  {
    hide RenderedFor, SecretToNode, OnlyTouches;
  }

  lemma AssignedKeepsRoster(c: Cluster, m: string, job: Job, w: World)
    requires m in c.secrets
    ensures SameRoster(c, Assigned(c, m, job, w).cluster)
  {
    hide Assigned, SameRoster, OnlyTouches;
    AssignedKeepsLabels(c, m, job, w);
    TouchedKeepsRoster(c, Assigned(c, m, job, w).cluster, m);
  }

  lemma TouchedKeepsRoster(c: Cluster, c': Cluster, m: string)
    requires m in c.secrets && OnlyTouches(c, c', {m}) && m in c'.secrets
    requires c'.secrets[m].labels == c.secrets[m].labels
    requires c'.secrets[m].annotations.joinURL == c.secrets[m].annotations.joinURL
    ensures SameRoster(c, c')
  {
    forall x | x in c.secrets
      ensures c'.secrets[x].labels == c.secrets[x].labels
      ensures c'.secrets[x].annotations.joinURL == c.secrets[x].annotations.joinURL
    {
    }
    hide OnlyTouches;
  }

  lemma SameIsRoster(c: Cluster)
    ensures SameRoster(c, c)
  {
  }

  /** With the election at rest, a pass in the restore phase keeps the roster, marks included. */
  lemma RestoredKeepsRoster(cp: Object, snapshot: Option<Snapshot>, c: Cluster, w: World)
    requires RestoreRests(c, cp.fixedInitNode, snapshot)
    ensures SameRoster(c, Restored(cp, snapshot, c, w).cluster)
  {
    hide RestoreElection, Assigned, Matches, RestoreRests, SameRoster, InitNodeRuns.Relabelled;
    RestoreElectionNil(cp, snapshot, c);
    ElectionKeeps(cp, snapshot, c);
    SameIsRoster(c);
    InitNodesListed(c);
    var servers := Collected(c, Filter.InitNode);
    if |servers| == 1 {
      assert servers[0] in servers;
      AssignedKeepsRoster(c, servers[0], Job(SnapshotRestore, RestoreElection(cp, snapshot, c).joinURL, 1, 1), w);
    }
  }

  /** The marks are those of before, or are no longer on exactly one machine. */
  ghost predicate MarksStand(c: Cluster, c': Cluster) {
    SameRoles(c, c') && (Marks(c') == Marks(c) || |Marks(c')| != 1)
  }

  lemma RosterStands(c: Cluster, c': Cluster)
    requires SameRoster(c, c')
    ensures MarksStand(c, c')
  {
    hide Marks;
    RosterMarks(c, c');
  }

  lemma FoundStands(c: Cluster, fixed: string)
    requires |Marks(c)| == 1
    ensures MarksStand(c, FoundInitNode(c, fixed).cluster)
  {
    hide Marks, SameRoles, FoundInitNode, InitNodeRuns.Relabelled;
    var c' := FoundInitNode(c, fixed).cluster;
    InitNodeRuns.FoundRelabels(c, fixed);
    RelabelledRoles(c, c');
    FoundMarks(c, fixed);
    var m :| m in Marks(c);
    OnlyElement(Marks(c), m);
    if Marks(c) < Marks(c') {
      assert |Marks(c' )| == |Marks(c)| + |Marks(c') - Marks(c)|;
    } else if Marks(c') != {m} {
      assert Marks(c') == {};
    }
  }

  /** The pod clean-up may lose the one mark, through the label of a fixed init node, but then it is over: without
      exactly one marked machine, it does nothing. */
  lemma PodsCleanedStands(cp: Object, c: Cluster, w: World)
    ensures MarksStand(c, PodsCleaned(cp, c, w).cluster)
    ensures |Marks(c)| != 1 ==> PodsCleaned(cp, c, w).cluster == c
  {
    hide Assigned, Matches, FoundInitNode, SameRoster, MarksStand, Marks, InitNodeRuns.Relabelled, Completed;
    SameIsRoster(c);
    RosterStands(c, c);
    InitNodesListed(c);
    MarkedListed(c);
    var initNodes := Collected(c, Filter.InitNode);
    if |initNodes| == 1 {
      var m := initNodes[0];
      assert m in initNodes;
      if Matches(c, Filter.ControlPlane, m) {
        AssignedStands(c, m, Job(RestoredPods, "", 5, 5), w);
      } else {
        AssignedStands(c, m, Job(Desired, "", 5, 5), w);
        AssignedNil(c, m, Job(Desired, "", 5, 5), w);
        FoundStands(c, cp.fixedInitNode);
        InitNodeRuns.FoundRelabels(c, cp.fixedInitNode);
        var controlPlanes := Collected(c, And(Filter.ControlPlane, Not(Deleting)));
        if controlPlanes != [] {
          assert controlPlanes[0] in controlPlanes;
          AssignedStands(c, controlPlanes[0], Job(RestoredPods, FoundInitNode(c, cp.fixedInitNode).joinURL, 5, 5), w);
        }
      }
    }
  }

  lemma AssignedStands(c: Cluster, m: string, job: Job, w: World)
    requires m in c.secrets
    ensures MarksStand(c, Assigned(c, m, job, w).cluster)
  {
    hide Assigned, SameRoster, MarksStand;
    AssignedKeepsRoster(c, m, job, w);
    RosterStands(c, Assigned(c, m, job, w).cluster);
  }

  /** Since the cluster was as in c: in the restore phase the roster is the same, marks included; afterwards the roles
      are, and the mark is where it was or no longer on exactly one machine. */
  ghost predicate Stands(c: Cluster, c': Cluster, phase: SnapshotPhase) {
    if phase == Restoring then SameRoster(c, c') else MarksStand(c, c')
  }

  lemma StandsOn(a: Cluster, b: Cluster, c: Cluster, phase: SnapshotPhase)
    requires Stands(a, b, phase)
    ensures SameRoster(b, c) ==> Stands(a, c, phase)
    ensures phase != Restoring && MarksStand(b, c) && (|Marks(b)| != 1 ==> Marks(c) == Marks(b)) ==> Stands(a, c, phase)
  {
    hide Marks, SameRoster, SameRoles;
    RosterTransitive(a, b, c);
    if SameRoster(b, c) { RosterStands(b, c); RosterMarks(b, c); }
  }

  lemma PassStands(cp: Object, c: Cluster, w: World, c0: Cluster, snapshot: Option<Snapshot>)
    requires RestoreRuns.DownIsUninitialized(cp.status)
    requires cp.status.restorePhase == Restoring || cp.status.restorePhase == PodCleanup
    requires Stands(c0, c, cp.status.restorePhase) && RestoreRests(c0, cp.fixedInitNode, snapshot)
    requires w.snapshot.Good? ==> w.snapshot.value == snapshot
    ensures Stands(c0, Persisted(cp, c, w).cluster, cp.status.restorePhase)
  {
    hide Persisted, Acting, Planned, Restored, PodsCleaned, SameRoster, MarksStand, RestoreRests, Marks, Stands;
    PersistedMeans(cp, c, w);
    ActsBeforeOthers(cp, c, w);
    NotStartedCreates(cp, c, w);
    SameIsRoster(c);
    StandsOn(c0, c, c, cp.status.restorePhase);
    if cp.status.restorePhase == Restoring {
      assert SameRoster(c0, c) by { assert Stands(c0, c, Restoring); StandsRestoring(c0, c); }
      RestoreStays(c0, c, cp.fixedInitNode, snapshot);
      RestoredKeepsRoster(cp, snapshot, c, w);
      StandsOn(c0, c, Restored(cp, snapshot, c, w).cluster, Restoring);
    } else {
      PodsCleanedStands(cp, c, w);
      StandsOn(c0, c, PodsCleaned(cp, c, w).cluster, PodCleanup);
    }
  }

  lemma StandsRestoring(c: Cluster, c': Cluster)
    requires Stands(c, c', Restoring)
    ensures SameRoster(c, c')
  {
  }

  /** The two machines are the same as long as the cluster stands. */
  lemma WritersWithin(c: Cluster, c': Cluster, phase: SnapshotPhase)
    requires Stands(c, c', phase)
    ensures Writers(c') <= Writers(c)
  {
    hide Marks, SameRoster, SameRoles, Matches;
    if phase == Restoring { RosterStands(c, c'); }
    FirstStays(c, c');
  }

  lemma FirstStays(c: Cluster, c': Cluster)
    requires SameRoles(c, c')
    ensures FirstControlPlane(c') == FirstControlPlane(c)
  {
    forall m | m in c.machines
      ensures Matches(c', And(Filter.ControlPlane, Not(Deleting)), m) <==>
              Matches(c, And(Filter.ControlPlane, Not(Deleting)), m)
    {
      hide SameRoles;
      LiveControlPlane(c, c', m);
    }
    SameSelection(c, c', And(Filter.ControlPlane, Not(Deleting)));
  }

  lemma LiveControlPlane(c: Cluster, c': Cluster, m: string)
    requires SameRoles(c, c')
    ensures Matches(c', And(Filter.ControlPlane, Not(Deleting)), m) <==>
            Matches(c, And(Filter.ControlPlane, Not(Deleting)), m)
  {
    hide Matches;
    AndMeans(c, Filter.ControlPlane, Not(Deleting), m);
    AndMeans(c', Filter.ControlPlane, Not(Deleting), m);
    NotMeans(c, Deleting, m);
    NotMeans(c', Deleting, m);
    SimpleMatches(c, m);
    SimpleMatches(c', m);
  }

  lemma SimpleMatches(c: Cluster, m: string)
    ensures Matches(c, Filter.ControlPlane, m) <==> m in c.secrets && c.secrets[m].labels.controlPlane
    ensures Matches(c, Deleting, m) <==> m in c.machines && c.machines[m].deleting
  {
  }

  // ---------------------------------------------------------------- runs

  /** In this window of a run, passes start in the restore or the pod-clean-up phase and find the same snapshot, if any;
      and in between the roster stays as it is and nobody else writes plans. */
  ghost predicate Window(ms: seq<Moment>, es: seq<Event>, snapshot: Option<Snapshot>) {
    && Run(ms, es)
    && forall i :: 0 <= i < |es| ==> Inside(ms[i], es[i], ms[i + 1], snapshot)
  }

  ghost predicate Inside(a: Moment, e: Event, b: Moment, snapshot: Option<Snapshot>) {
    match e
    case Pass(w) =>
      && (a.cp.status.restorePhase == Restoring || a.cp.status.restorePhase == PodCleanup)
      && (w.snapshot.Good? ==> w.snapshot.value == snapshot)
    case Around =>
      SameRoster(a.cluster, b.cluster) && SamePlans(a.cluster, b.cluster) && b.cp.fixedInitNode == a.cp.fixedInitNode
  }

  /** The window begins in the restore phase, with the election at rest. */
  ghost predicate Begins(m: Moment, snapshot: Option<Snapshot>) {
    && RestoreRuns.DownIsUninitialized(m.cp.status) && m.cp.status.restorePhase == Restoring
    && RestoreRests(m.cluster, m.cp.fixedInitNode, snapshot)
  }

  lemma StepStands(a: Moment, e: Event, b: Moment, c0: Cluster, snapshot: Option<Snapshot>)
    requires Step(a, e, b) && Inside(a, e, b, snapshot) && RestoreRuns.DownIsUninitialized(a.cp.status)
    requires Stands(c0, a.cluster, a.cp.status.restorePhase) && RestoreRests(c0, a.cp.fixedInitNode, snapshot)
    ensures Stands(c0, b.cluster, b.cp.status.restorePhase) && b.cp.fixedInitNode == a.cp.fixedInitNode
    ensures PlansKept(a.cluster, b.cluster, Writers(c0))
  {
    hide Persisted, SameRoster, RestoreRests, Marks, Stands, Writers, MarksStand;
    WritersWithin(c0, a.cluster, a.cp.status.restorePhase);
    match e {
      case Pass(w) =>
        PersistedKeepsFixed(a.cp, a.cluster, w);
        PassStands(a.cp, a.cluster, w, c0, snapshot);
        PassWrites(a.cp, a.cluster, w);
        RestoreRuns.StepMoves(a, e, b);
        PhaseStands(c0, b.cluster, a.cp.status.restorePhase, b.cp.status.restorePhase);
      case Around =>
        StandsOn(c0, a.cluster, b.cluster, a.cp.status.restorePhase);
    }
  }

  lemma PersistedKeepsFixed(cp: Object, c: Cluster, w: World)
    ensures Persisted(cp, c, w).cp.fixedInitNode == cp.fixedInitNode
  {
    hide Persisted, Acting, Planned;
    PersistedMeans(cp, c, w);
  }

  lemma PhaseStands(c: Cluster, c': Cluster, phase: SnapshotPhase, next: SnapshotPhase)
    requires Stands(c, c', phase) && (next == Restoring ==> phase == Restoring)
    ensures Stands(c, c', next)
  {
    hide SameRoster, MarksStand;
    if phase == Restoring { RosterStands(c, c'); }
  }

  /** Throughout the window the cluster stands, and all machines but two keep their plans: the one that carried the
      init-node mark when it began, and the first control-plane machine. */
  lemma {:induction false} OthersKeepPlans(ms: seq<Moment>, es: seq<Event>, snapshot: Option<Snapshot>, i: nat)
    requires i < |ms|
    ensures Window(ms, es, snapshot) && Begins(ms[0], snapshot) ==>
      && Stands(ms[0].cluster, ms[i].cluster, ms[i].cp.status.restorePhase)
      && ms[i].cp.fixedInitNode == ms[0].cp.fixedInitNode
      && PlansKept(ms[0].cluster, ms[i].cluster, Writers(ms[0].cluster))
  {
    hide Step, Writers, Inside, RestoreRests;
    if i == 0 {
      SameIsRoster(ms[0].cluster);
    } else if Window(ms, es, snapshot) && Begins(ms[0], snapshot) {
      hide Stands;
      OthersKeepPlans(ms, es, snapshot, i - 1);
      RestoreRuns.AlwaysUninitializedWhileDown(ms, es, i - 1);
      assert Step(ms[i - 1], es[i - 1], ms[i - 1 + 1]) && Inside(ms[i - 1], es[i - 1], ms[i - 1 + 1], snapshot);
      StepStands(ms[i - 1], es[i - 1], ms[i], ms[0].cluster, snapshot);
    }
  }

  /** The stop plan of m, as the secrets have it: applied when the restore began, and still there in c'. */
  ghost predicate StaysStopped(c: Cluster, c': Cluster, m: string, joinServer: string, w: World) {
    && m in c.secrets && m in c'.secrets
    && StopPlan(c, m, joinServer, w).Rendered?
    && c.secrets[m].appliedPlan == Encoded(StopPlan(c, m, joinServer, w).plan) == c'.secrets[m].plan
  }

  ghost predicate OthersStopped(c: Cluster, c': Cluster, joinServer: string, w: World, who: set<string>) {
    forall m :: m in c.nodes && Matches(c, ANY_ROLE_WITHOUT_WINDOWS, m) && m !in who ==>
      StaysStopped(c, c', m, joinServer, w)
  }

  lemma StoppedStays(c: Cluster, c': Cluster, joinServer: string, w: World, who: set<string>)
    ensures Loaded(c) && AllStopped(c, joinServer, w) && PlansKept(c, c', who) ==>
      OthersStopped(c, c', joinServer, w, who)
  {
    hide Matches, Loaded;
    if Loaded(c) && AllStopped(c, joinServer, w) && PlansKept(c, c', who) {
      forall m | m in c.nodes && Matches(c, ANY_ROLE_WITHOUT_WINDOWS, m) && m !in who
        ensures StaysStopped(c, c', m, joinServer, w)
      {
        LoadedSync(c, m);
        assert HoldsStopPlan(c, m, joinServer, w);
      }
    }
  }

  /** The first event is the pass that enters the restore phase, and the window follows. */
  ghost predicate Restores(ms: seq<Moment>, es: seq<Event>) {
    && |es| > 0 && |ms| == |es| + 1
    && es[0].Pass? && es[0].w.snapshot.Good? && Step(ms[0], es[0], ms[1])
    && Loaded(ms[0].cluster) && RestoreRuns.DownIsUninitialized(ms[0].cp.status)
    && ms[0].cp.status.restorePhase == Shutdown && ms[1].cp.status.restorePhase == Restoring
    && Window(ms[1..], es[1..], es[0].w.snapshot.value)
  }

  /** From the pass that enters the restore phase until the pod clean-up is over, every machine with a role, other than
      the Windows ones and at most two that restore, holds the stop plan that it had applied when the restore began. */
  lemma OthersStayStopped(ms: seq<Moment>, es: seq<Event>, i: nat)
    requires |es| > 0 && es[0].Pass? && 1 <= i < |ms|
    ensures Restores(ms, es) ==>
      exists joinServer ::
        OthersStopped(ms[0].cluster, ms[i].cluster, joinServer, es[0].w, Writers(ms[0].cluster))
    ensures |Writers(ms[0].cluster)| <= 2
  {
    hide Persisted, Window, Matches, OthersStopped, AllStopped, Loaded, RestoreRuns.RestoreMove, Writers, RestoreRests,
         Stands;
    if Restores(ms, es) {
      var cp, c, w := ms[0].cp, ms[0].cluster, es[0].w;
      RestoreOnlyAfterStop(cp, c, w);
      PersistedKeepsFixed(cp, c, w);
      var joinServer :| AllStopped(c, joinServer, w);
      RestoreRuns.StepMoves(ms[0], es[0], ms[1]);
      assert Begins(ms[1..][0], w.snapshot.value);
      OthersKeepPlans(ms[1..], es[1..], w.snapshot.value, i - 1);
      StoppedStays(c, ms[i].cluster, joinServer, w, Writers(c));
    }
  }

  lemma LoadedSync(c: Cluster, m: string)
    requires Loaded(c) && m in c.nodes
    ensures m in c.secrets && m in c.machines && c.secrets[m].plan == Encoded(c.nodes[m].plan)
    ensures c.nodes[m].inSync <==> c.secrets[m].plan == c.secrets[m].appliedPlan
  {
    assert NodeOf(c, m) == NodeFrom(SecretToNode(c.secrets[m]));
  }

  // ---------------------------------------------------------------- what an advance means

  /** The machine that carries the only init-node mark. */
  ghost predicate OnlyInitNode(c: Cluster, m: string) {
    m in c.secrets && Collected(c, Filter.InitNode) == [m]
  }

  /** The init node has cleaned up the pods, or runs its desired plan and the first control-plane machine has. */
  ghost predicate PodsEarned(c: Cluster, w: World, m: string, joinServer: string) {
    && OnlyInitNode(c, m)
    && if Matches(c, Filter.ControlPlane, m) then Completed(c, m, Job(RestoredPods, "", 5, 5), w)
       else
         && Completed(c, m, Job(Desired, "", 5, 5), w)
         && var controlPlanes := Collected(c, And(Filter.ControlPlane, Not(Deleting)));
            controlPlanes != [] && Completed(c, controlPlanes[0], Job(RestoredPods, joinServer, 5, 5), w)
  }

  /** The work of the phase is done. */
  ghost predicate Earned(cp: Object, c: Cluster, w: World, m: string, joinServer: string) {
    match cp.status.restorePhase
    case Shutdown => AllStopped(c, joinServer, w)
    case Restoring => OnlyInitNode(c, m) && Completed(c, m, Job(SnapshotRestore, joinServer, 1, 1), w)
    case PodCleanup => PodsEarned(c, w, m, joinServer)
    case NodeCleanup => OnlyInitNode(c, m) && Completed(c, m, Job(RestoredNodes, "", 5, 5), w)
    case InitialRestart => FullReconcile.FullyReconciled(cp, cp.status, c, true, w).stage.err == Nil
    case RestartCluster => FullReconcile.FullyReconciled(cp, cp.status, c, true, w).stage.err == Nil
    case _ => true
  }

  lemma SingleIs(xs: seq<string>)
    requires |xs| == 1
    ensures xs == [xs[0]]
  {
  }

  lemma RestoredEarns(cp: Object, snapshot: Option<Snapshot>, c: Cluster, w: World)
    ensures var servers := Collected(c, Filter.InitNode);
      Restored(cp, snapshot, c, w).err == Nil ==>
        |servers| == 1 && OnlyInitNode(c, servers[0]) &&
        Completed(c, servers[0], Job(SnapshotRestore, RestoreElection(cp, snapshot, c).joinURL, 1, 1), w)
  {
    hide RestoreElection, Assigned, Completed, Matches, InitNodeRuns.Relabelled;
    ElectionKeeps(cp, snapshot, c);
    InitNodesListed(c);
    var servers := Collected(c, Filter.InitNode);
    if |servers| == 1 {
      SingleIs(servers);
      assert servers[0] in servers;
      AssignedNil(c, servers[0], Job(SnapshotRestore, RestoreElection(cp, snapshot, c).joinURL, 1, 1), w);
    }
  }

  lemma PodsCleanedEarns(cp: Object, c: Cluster, w: World)
    ensures var initNodes := Collected(c, Filter.InitNode);
      PodsCleaned(cp, c, w).err == Nil ==>
        |initNodes| == 1 && PodsEarned(c, w, initNodes[0], FoundInitNode(c, cp.fixedInitNode).joinURL)
  {
    hide FoundInitNode, Assigned, Completed, Matches, InitNodeRuns.Relabelled;
    InitNodesListed(c);
    var initNodes := Collected(c, Filter.InitNode);
    if |initNodes| == 1 {
      var m := initNodes[0];
      SingleIs(initNodes);
      assert m in initNodes;
      AssignedNil(c, m, Job(RestoredPods, "", 5, 5), w);
      AssignedNil(c, m, Job(Desired, "", 5, 5), w);
      InitNodeRuns.FoundRelabels(c, cp.fixedInitNode);
      var url := FoundInitNode(c, cp.fixedInitNode).joinURL;
      var controlPlanes := Collected(c, And(Filter.ControlPlane, Not(Deleting)));
      if controlPlanes != [] { AssignedNil(c, controlPlanes[0], Job(RestoredPods, url, 5, 5), w); }
    }
  }

  lemma NodesCleanedEarns(c: Cluster, w: World)
    ensures var initNodes := Collected(c, Filter.InitNode);
      NodesCleaned(c, w).err == Nil ==>
        |initNodes| == 1 && OnlyInitNode(c, initNodes[0]) && Completed(c, initNodes[0], Job(RestoredNodes, "", 5, 5), w)
  {
    hide Assigned, Completed, Matches;
    InitNodesListed(c);
    var initNodes := Collected(c, Filter.InitNode);
    if |initNodes| == 1 {
      SingleIs(initNodes);
      assert initNodes[0] in initNodes;
      AssignedNil(c, initNodes[0], Job(RestoredNodes, "", 5, 5), w);
    }
  }

  /** A restart phase is left only when full reconciliation has ended with nil. */
  lemma RestartEarns(cp: Object, c: Cluster, restore: Restore, next: SnapshotPhase, w: World)
    requires cp.status.restorePhase != next
    ensures Restarted(cp, cp.status, c, restore, next, w).status.restorePhase == next ==>
      FullReconcile.FullyReconciled(cp, cp.status, c, true, w).stage.err == Nil
  {
    hide FullReconcile.FullyReconciled;
    FullFrame(cp, cp.status, c, true, w);
  }

  /** The restore stage went on to the next phase. */
  ghost predicate Advanced(cp: Object, c: Cluster, w: World) {
    var b := RestoreStage(cp, cp.status, c, w);
    && RestoreRuns.Asked(cp.spec) && cp.spec.restore == cp.status.restore
    && (b.err == Nil || b.err == Waiting) && RestoreRuns.Advances(cp.status.restorePhase, b.status.restorePhase)
  }

  lemma StageEarns(cp: Object, c: Cluster, w: World) returns (m: string, joinServer: string)
    ensures Advanced(cp, c, w) ==> Earned(cp, c, w, m, joinServer)
  {
    hide ServicesStopped, Restored, PodsCleaned, NodesCleaned, Restarted, FullReconcile.FullyReconciled,
         RestoreElection, AllStopped, Completed, Matches, FoundInitNode;
    var initNodes := Collected(c, Filter.InitNode);
    m, joinServer := if initNodes == [] then "" else initNodes[0], "";
    if Advanced(cp, c, w) {
      var restore, snapshot := cp.spec.restore.value, w.snapshot.value;
      match cp.status.restorePhase {
        case Shutdown =>
          StopNil(cp, snapshot, c, w);
          joinServer := RestoreElection(cp, snapshot, c).joinURL;
        case Restoring =>
          RestoredEarns(cp, snapshot, c, w);
          joinServer := RestoreElection(cp, snapshot, c).joinURL;
        case PodCleanup =>
          PodsCleanedEarns(cp, c, w);
          joinServer := FoundInitNode(c, cp.fixedInitNode).joinURL;
        case NodeCleanup => NodesCleanedEarns(c, w);
        case InitialRestart => RestartEarns(cp, c, restore, NodeCleanup, w);
        case RestartCluster => RestartEarns(cp, c, restore, Finished, w);
        case _ =>
      }
    }
  }

  /** Whenever the persisted restore advances, the work of the phase that it leaves has been done: the machines have
      stopped, the one init node has restored the snapshot, the clean-ups have been applied where they belong, and the
      cluster has been fully reconciled without an error. */
  lemma RestoreAdvanceIsEarned(cp: Object, c: Cluster, w: World) returns (m: string, joinServer: string)
    requires RestoreRuns.DownIsUninitialized(cp.status)
    ensures RestoreRuns.Advances(cp.status.restorePhase, Persisted(cp, c, w).cp.status.restorePhase) ==>
      Earned(cp, c, w, m, joinServer)
  {
    hide Persisted, Acting, Planned, SnapshotCreate.Created, RestoreStage, Earned;
    PersistedMeans(cp, c, w);
    RestoreRuns.OtherStagesKeep(cp, c, w);
    RestoreRuns.RestoreStageMoves(cp, c, w);
    m, joinServer := StageEarns(cp, c, w);
  }

  // ---------------------------------------------------------------- what a move of the restore takes

  /** What has to be so for the restore to go on: the snapshot can be looked up, its recorded version, if it is asked
      for, can be read and is not older, unless the release is old itself; the cluster could be paused before the
      snapshot is restored, and unpaused before a restart. */
  predicate MayGoOn(phase: SnapshotPhase, w: World) {
    && w.snapshot.Good?
    && (w.snapshot.value.Some? ==>
          && w.snapshot.value.value.version != VersionRecord.Unreadable
          && (w.snapshot.value.value.version == Older ==> w.oldVersion))
    && (phase == Restoring ==> w.pause)
    && (phase == InitialRestart || phase == RestartCluster ==> w.unpause)
  }

  lemma StageMayGoOn(cp: Object, c: Cluster, w: World)
    ensures Advanced(cp, c, w) ==>
      && MayGoOn(cp.status.restorePhase, w)
      && (cp.status.restorePhase == Shutdown ==> RestoreStage(cp, cp.status, c, w).status.bootstrapped == No)
  {
    hide ServicesStopped, RestoreElection, PodsCleaned, NodesCleaned, FullReconcile.FullyReconciled, Assigned, Matches;
    FullFrame(cp, cp.status, c, true, w);
  }

  /** A persisted pass takes the restore further only when it may go on; and as the restore phase begins, the cluster
      no longer counts as bootstrapped. */
  lemma AdvanceIsAllowed(cp: Object, c: Cluster, w: World)
    requires RestoreRuns.DownIsUninitialized(cp.status)
    ensures var s, s' := cp.status, Persisted(cp, c, w).cp.status;
      RestoreRuns.Advances(s.restorePhase, s'.restorePhase) ==>
        MayGoOn(s.restorePhase, w) && (s.restorePhase == Shutdown ==> s'.bootstrapped == No)
  {
    hide Persisted, Acting, Planned, SnapshotCreate.Created, RestoreStage, MayGoOn;
    PersistedMeans(cp, c, w);
    PersistedIs(cp, c, w);
    RestoreRuns.OtherStagesKeep(cp, c, w);
    RestoreRuns.RestoreStageMoves(cp, c, w);
    StageMayGoOn(cp, c, w);
  }

  /** A status that is persisted is the one before, or agrees with the acting stage on whether the cluster is
      bootstrapped. */
  lemma PersistedIs(cp: Object, c: Cluster, w: World)
    ensures var s' := Persisted(cp, c, w).cp.status;
      s' == cp.status || (Planned(cp, c, w) ==> s'.bootstrapped == Acting(cp, c, w).status.bootstrapped)
  {
    hide Acting, Processed, Sane;
    if !cp.deleting { ProcessedMeans(cp, c, w); }
  }

  lemma RestoredLimits(cp: Object, snapshot: Option<Snapshot>, c: Cluster, w: World, x: string)
    requires x in c.secrets
    ensures var c' := Restored(cp, snapshot, c, w).cluster;
      x in c'.secrets && LimitedTo(c.secrets[x], c'.secrets[x], 1, 1)
  {
    hide RestoreElection, Assigned, Matches, InitNodeRuns.Relabelled, OnlyTouches, LimitedTo;
    ElectionKeeps(cp, snapshot, c);
    var e := RestoreElection(cp, snapshot, c);
    UnplannedLimits(c, e.cluster, x);
    InitNodesListed(c);
    var initNodes := Collected(c, Filter.InitNode);
    if |initNodes| == 1 {
      assert initNodes[0] in initNodes;
      AssignedLimits(c, initNodes[0], Job(SnapshotRestore, e.joinURL, 1, 1), w, x);
    }
  }

  lemma PodLimits(cp: Object, c: Cluster, w: World, x: string)
    requires x in c.secrets
    ensures var c' := PodsCleaned(cp, c, w).cluster;
      x in c'.secrets && LimitedTo(c.secrets[x], c'.secrets[x], 5, 5)
  {
    hide Assigned, Matches, FoundInitNode, InitNodeRuns.Relabelled, OnlyTouches, LimitedTo, Completed;
    SamePlanLimits(c.secrets[x]);
    InitNodesListed(c);
    var initNodes := Collected(c, Filter.InitNode);
    if |initNodes| == 1 {
      var m := initNodes[0];
      assert m in initNodes;
      AssignedLimits(c, m, Job(RestoredPods, "", 5, 5), w, x);
      AssignedLimits(c, m, Job(Desired, "", 5, 5), w, x);
      AssignedNil(c, m, Job(Desired, "", 5, 5), w);
      InitNodeRuns.FoundRelabels(c, cp.fixedInitNode);
      var f := FoundInitNode(c, cp.fixedInitNode);
      UnplannedLimits(c, f.cluster, x);
      var controlPlanes := Collected(c, And(Filter.ControlPlane, Not(Deleting)));
      if controlPlanes != [] {
        assert controlPlanes[0] in controlPlanes;
        AssignedLimits(c, controlPlanes[0], Job(RestoredPods, f.joinURL, 5, 5), w, x);
      }
    }
  }

  /** The restoration gets one attempt, and each clean-up five. */
  lemma AttemptsAreLimited(cp: Object, snapshot: Option<Snapshot>, c: Cluster, w: World, x: string)
    requires x in c.secrets
    ensures var c' := Restored(cp, snapshot, c, w).cluster;
      x in c'.secrets && LimitedTo(c.secrets[x], c'.secrets[x], 1, 1)
    ensures var c' := PodsCleaned(cp, c, w).cluster;
      x in c'.secrets && LimitedTo(c.secrets[x], c'.secrets[x], 5, 5)
    ensures var c' := NodesCleaned(c, w).cluster;
      x in c'.secrets && LimitedTo(c.secrets[x], c'.secrets[x], 5, 5)
  {
    hide Restored, PodsCleaned, Assigned, Matches, OnlyTouches, LimitedTo;
    RestoredLimits(cp, snapshot, c, w, x);
    PodLimits(cp, c, w, x);
    SamePlanLimits(c.secrets[x]);
    InitNodesListed(c);
    var initNodes := Collected(c, Filter.InitNode);
    if |initNodes| == 1 {
      assert initNodes[0] in initNodes;
      AssignedLimits(c, initNodes[0], Job(RestoredNodes, "", 5, 5), w, x);
    }
  }

  lemma SamePlanLimits(s: Secret)
    ensures forall a, b :: LimitedTo(s, s, a, b)
  {
  }

  lemma UnplannedLimits(c: Cluster, c': Cluster, x: string)
    requires InitNodeRuns.Relabelled(c, c') && x in c.secrets
    ensures x in c'.secrets && forall a, b :: LimitedTo(c.secrets[x], c'.secrets[x], a, b)
  {
    InitNodeRuns.RelabelledPlan(c, c', x);
  }

  // ---------------------------------------------------------------- what is earned is granted

  lemma {:induction false} HeldIsStopped(s: Stopping, names: seq<string>, joinServer: string, w: World)
    requires Listed(s.cluster, names) && forall m :: m in names ==> HoldsStopPlan(s.cluster, m, joinServer, w)
    ensures StoppedAll(s, names, joinServer, w) == s
    decreases |names|
  {
    hide HoldsStopPlan, StoppedOne;
    if names != [] && s.err == Nil {
      assert names[0] in names && forall m :: m in names[1..] ==> m in names;
      HeldIsKept(s, names[0], joinServer, w);
      HeldIsStopped(s, names[1..], joinServer, w);
    }
  }

  lemma HeldIsKept(s: Stopping, m: string, joinServer: string, w: World)
    requires m in s.cluster.secrets && HoldsStopPlan(s.cluster, m, joinServer, w)
    ensures StoppedOne(s, m, joinServer, w) == s
  {
    hide PlanUpdate;
  }

  lemma StoppedIsNil(cp: Object, snapshot: Option<Snapshot>, c: Cluster, w: World)
    requires RestoreRests(c, cp.fixedInitNode, snapshot) && AllStopped(c, RestoreElection(cp, snapshot, c).joinURL, w)
    ensures ServicesStopped(cp, snapshot, c, w) == Given(c, Nil)
  {
    hide RestoreElection, HoldsStopPlan, StoppedAll, Matches, InitNodeRuns.Relabelled, RestoreRests;
    ElectionKeeps(cp, snapshot, c);
    RestoreElectionNil(cp, snapshot, c);
    AnyRoleListed(c);
    var url := RestoreElection(cp, snapshot, c).joinURL;
    var servers := Collected(c, ANY_ROLE_WITHOUT_WINDOWS);
    HeldIsStopped(Stopping(c, false, Nil), servers, url, w);
    CollectedHead(c, And(Etcd, Deleting));
    CollectedHead(c, And(Etcd, Not(Deleting)));
    forall m | m in c.machines
      ensures Matches(c, And(Etcd, Deleting), m) <==> Matches(c, Etcd, m) && c.machines[m].deleting
      ensures Matches(c, And(Etcd, Not(Deleting)), m) <==> Matches(c, Etcd, m) && !c.machines[m].deleting
    {
      SimpleMatches(c, m);
      NotMeans(c, Deleting, m);
      AndMeans(c, Etcd, Deleting, m);
      AndMeans(c, Etcd, Not(Deleting), m);
    }
  }

  /** The work of the phase is done, for the one init node m. */
  ghost predicate WorkDone(cp: Object, c: Cluster, w: World, m: string)
    requires w.snapshot.Good?
  {
    var e, f := RestoreElection(cp, w.snapshot.value, c), FoundInitNode(c, cp.fixedInitNode);
    match cp.status.restorePhase
    case Started => true
    case Shutdown => e.err == Nil && AllStopped(c, e.joinURL, w)
    case Restoring => e.err == Nil && OnlyInitNode(c, m) && Completed(c, m, Job(SnapshotRestore, e.joinURL, 1, 1), w)
    case PodCleanup =>
      PodsEarned(c, w, m, f.joinURL) && (!Matches(c, Filter.ControlPlane, m) ==> f.err == Nil && f.joinURL != "")
    case NodeCleanup => OnlyInitNode(c, m) && Completed(c, m, Job(RestoredNodes, "", 5, 5), w)
    case InitialRestart => FullReconcile.FullyReconciled(cp, cp.status, c, true, w).stage.err == Nil
    case RestartCluster => FullReconcile.FullyReconciled(cp, cp.status, c, true, w).stage.err == Nil
    case _ => false
  }

  lemma RestoredIsNil(cp: Object, snapshot: Option<Snapshot>, c: Cluster, w: World, m: string)
    requires w.pause && RestoreElection(cp, snapshot, c).err == Nil && OnlyInitNode(c, m)
    requires Completed(c, m, Job(SnapshotRestore, RestoreElection(cp, snapshot, c).joinURL, 1, 1), w)
    ensures Restored(cp, snapshot, c, w).err == Nil
  {
    hide RestoreElection, Assigned, Completed, Matches, InitNodeRuns.Relabelled;
    ElectionKeeps(cp, snapshot, c);
    InitNodesListed(c);
    AssignedNil(c, m, Job(SnapshotRestore, RestoreElection(cp, snapshot, c).joinURL, 1, 1), w);
  }

  lemma PodsCleanedNil(cp: Object, c: Cluster, w: World, m: string)
    requires PodsEarned(c, w, m, FoundInitNode(c, cp.fixedInitNode).joinURL)
    requires !Matches(c, Filter.ControlPlane, m) ==>
      FoundInitNode(c, cp.fixedInitNode).err == Nil && FoundInitNode(c, cp.fixedInitNode).joinURL != ""
    ensures PodsCleaned(cp, c, w).err == Nil
  {
    hide FoundInitNode, Assigned, Completed, Matches, InitNodeRuns.Relabelled;
    InitNodesListed(c);
    AssignedNil(c, m, Job(RestoredPods, "", 5, 5), w);
    AssignedNil(c, m, Job(Desired, "", 5, 5), w);
    InitNodeRuns.FoundRelabels(c, cp.fixedInitNode);
    var url := FoundInitNode(c, cp.fixedInitNode).joinURL;
    var controlPlanes := Collected(c, And(Filter.ControlPlane, Not(Deleting)));
    if controlPlanes != [] {
      assert controlPlanes[0] in controlPlanes;
      AssignedNil(c, controlPlanes[0], Job(RestoredPods, url, 5, 5), w);
    }
  }

  lemma NodesCleanedNil(c: Cluster, w: World, m: string)
    requires OnlyInitNode(c, m) && Completed(c, m, Job(RestoredNodes, "", 5, 5), w)
    ensures NodesCleaned(c, w).err == Nil
  {
    hide Assigned, Completed, Matches;
    InitNodesListed(c);
    AssignedNil(c, m, Job(RestoredNodes, "", 5, 5), w);
  }

  /** What the phase waits for has ended without an error. */
  ghost predicate PhaseIsNil(cp: Object, c: Cluster, w: World)
    requires w.snapshot.Good?
  {
    match cp.status.restorePhase
    case Started => true
    case Shutdown => ServicesStopped(cp, w.snapshot.value, c, w).err == Nil
    case Restoring => Restored(cp, w.snapshot.value, c, w).err == Nil
    case PodCleanup => PodsCleaned(cp, c, w).err == Nil
    case NodeCleanup => NodesCleaned(c, w).err == Nil
    case InitialRestart => w.unpause && FullReconcile.FullyReconciled(cp, cp.status, c, true, w).stage.err == Nil
    case RestartCluster => w.unpause && FullReconcile.FullyReconciled(cp, cp.status, c, true, w).stage.err == Nil
    case _ => false
  }

  lemma WorkIsNil(cp: Object, c: Cluster, w: World, m: string)
    requires MayGoOn(cp.status.restorePhase, w) && WorkDone(cp, c, w, m)
    ensures PhaseIsNil(cp, c, w)
  {
    hide ServicesStopped, Restored, PodsCleaned, NodesCleaned, FullReconcile.FullyReconciled, RestoreElection,
         AllStopped, Completed, Matches, FoundInitNode, RestoreRests, PodsEarned;
    var snapshot := w.snapshot.value;
    match cp.status.restorePhase {
      case Shutdown =>
        RestoreElectionNil(cp, snapshot, c);
        StoppedIsNil(cp, snapshot, c, w);
      case Restoring => RestoredIsNil(cp, snapshot, c, w, m);
      case PodCleanup => PodsCleanedNil(cp, c, w, m);
      case NodeCleanup => NodesCleanedNil(c, w, m);
      case _ =>
    }
  }

  lemma PhaseGrants(cp: Object, c: Cluster, restore: Restore, w: World)
    requires w.snapshot.Good? && PhaseIsNil(cp, c, w) && cp.status.restore == Some(restore)
    ensures var r := InPhase(cp, cp.status, c, restore, w.snapshot.value, w);
      r.err == Waiting && RestoreRuns.Advances(cp.status.restorePhase, r.status.restorePhase)
  {
    hide ServicesStopped, Restored, PodsCleaned, NodesCleaned, Restarted, FullReconcile.FullyReconciled;
    match cp.status.restorePhase {
      case InitialRestart => RestartGrants(cp, c, restore, NodeCleanup, w);
      case RestartCluster => RestartGrants(cp, c, restore, Finished, w);
      case _ =>
    }
  }

  lemma StageGrants(cp: Object, c: Cluster, w: World, m: string)
    requires RestoreRuns.Asked(cp.spec) && cp.spec.restore == cp.status.restore
    requires MayGoOn(cp.status.restorePhase, w) && WorkDone(cp, c, w, m)
    ensures var r := RestoreStage(cp, cp.status, c, w);
      r.err == Waiting && RestoreRuns.Advances(cp.status.restorePhase, r.status.restorePhase)
  {
    hide InPhase, WorkDone, PhaseIsNil;
    WorkIsNil(cp, c, w, m);
    PhaseGrants(cp, c, cp.spec.restore.value, w);
  }

  lemma RestartGrants(cp: Object, c: Cluster, restore: Restore, next: SnapshotPhase, w: World)
    requires w.unpause && FullReconcile.FullyReconciled(cp, cp.status, c, true, w).stage.err == Nil
    requires cp.status.restorePhase != next
    ensures var r := Restarted(cp, cp.status, c, restore, next, w);
      r.err == Waiting && r.status.restorePhase == next
  {
    hide FullReconcile.FullyReconciled;
  }

  lemma RestoreActs(cp: Object, c: Cluster, w: World)
    requires SnapshotCreate.Created(cp, cp.status, c, w).err == Nil && Planned(cp, c, w) && w.saved
    ensures var r := RestoreStage(cp, cp.status, c, w);
      r.err == Waiting ==> Persisted(cp, c, w).cp.status.restorePhase == r.status.restorePhase
  {
    hide SnapshotCreate.Created, RestoreStage, CertificateRotation.RotationStage, KeyRotation.KeyStage, Ordinary, Sane,
         Processed;
    ProcessedMeans(cp, c, w);
  }

  /** The other way round: a pass that gets to the restore and can store its status takes it on once the work of the
      phase is done and it may go on. */
  lemma DoneIsGranted(cp: Object, c: Cluster, w: World, m: string)
    requires SnapshotCreate.Created(cp, cp.status, c, w).err == Nil && Planned(cp, c, w) && w.saved
    requires RestoreRuns.Asked(cp.spec) && cp.spec.restore == cp.status.restore
    requires MayGoOn(cp.status.restorePhase, w) && WorkDone(cp, c, w, m)
    ensures RestoreRuns.Advances(cp.status.restorePhase, Persisted(cp, c, w).cp.status.restorePhase)
  {
    hide Persisted, RestoreStage, Planned, WorkDone, MayGoOn, SnapshotCreate.Created;
    StageGrants(cp, c, w, m);
    RestoreActs(cp, c, w);
  }
}
