/** Persisted runs of snapshot creation. */
module CreateRuns {
  import opened Model
  import opened PlanEntry
  import opened Store
  import opened Scheduler
  import opened InitNode
  import opened ControlPlane
  import opened Process
  import opened Exclusivity
  import opened Runs
  import opened SnapshotCreate
  import InitNodeRuns
  import FullReconcile
  import SnapshotRestore
  import CertificateRotation
  import KeyRotation
  import Names

  // ---------------------------------------------------------------- what a pass may do to the creation state

  predicate CreatePhase(p: SnapshotPhase) {
    p == Started || p == RestartCluster || p == Unsuccessful || p == Finished
  }

  predicate Kept(s: Status, s': Status) {
    s'.create == s.create && s'.createPhase == s.createPhase
  }

  /** The phase is kept; or it goes from the snapshots to their failure or to the restart, or from the restart to the
      end, for the snapshot asked for; or it is reset when none is asked for; or it starts for one that is new or whose
      phase is none of the known ones. */
  predicate CreateMove(spec: Spec, s: Status, s': Status) {
    || Kept(s, s')
    || (spec.create.Some? && s.create == s'.create == spec.create &&
        (|| (s.createPhase == Started && (s'.createPhase == RestartCluster || s'.createPhase == Unsuccessful))
         || (s.createPhase == RestartCluster && s'.createPhase == Finished)))
    || (spec.create.None? && s'.create.None? && s'.createPhase == NoPhase)
    || (spec.create.Some? && s'.create == spec.create && s'.createPhase == Started &&
        (s.create != spec.create || !CreatePhase(s.createPhase)))
  }

  lemma CreateStageMoves(cp: Object, c: Cluster, w: World)
    ensures CreateMove(cp.spec, cp.status, Created(cp, cp.status, c, w).status)
  {
    hide FoundInitNode, Taken, ServicesStarted, SomeFailed;
  }

  lemma OtherStagesKeepCreate(cp: Object, c: Cluster, w: World)
    ensures var s := cp.status;
      Acting(cp, c, w) == Created(cp, s, c, w) || Kept(s, Acting(cp, c, w).status)
  {
    hide Created, SnapshotRestore.RestoreStage, CertificateRotation.RotationStage, KeyRotation.KeyStage,
         FullReconcile.FullyReconciled, EtcdReplaced;
    var s := cp.status;
    RestoreFrame(cp, s, c, w);
    RotationFrame(cp, s, c, w);
    KeyFrame(cp, s, c, w);
    FullFrame(cp, s, c, false, w);
  }

  lemma MoveThenKept(spec: Spec, s: Status, s1: Status, s2: Status)
    requires Kept(s1, s2) && CreateMove(spec, s, s1)
    ensures CreateMove(spec, s, s2)
  {
  }

  /** Every pass moves the persisted creation by the rules, and whatever others do in between leaves it alone. So a
      snapshot that is finished or has failed is not taken again until the spec asks for another one. */
  lemma StepMoves(a: Moment, e: Event, b: Moment)
    requires Step(a, e, b)
    ensures if e.Pass? then CreateMove(a.cp.spec, a.cp.status, b.cp.status) else Kept(a.cp.status, b.cp.status)
  {
    if e.Pass? {
      hide Persisted, Acting, Created, Planned, CreateMove;
      PersistedMeans(a.cp, a.cluster, e.w);
      OtherStagesKeepCreate(a.cp, a.cluster, e.w);
      CreateStageMoves(a.cp, a.cluster, e.w);
      KeptMoves(a.cp.spec, a.cp.status);
      var acted := Acting(a.cp, a.cluster, e.w).status;
      if Kept(acted, b.cp.status) && CreateMove(a.cp.spec, a.cp.status, acted) {
        MoveThenKept(a.cp.spec, a.cp.status, acted, b.cp.status);
      } else {
        MoveThenKept(a.cp.spec, a.cp.status, a.cp.status, b.cp.status);
      }
    }
  }

  lemma KeptMoves(spec: Spec, s: Status)
    ensures CreateMove(spec, s, s)
  {
  }

  lemma {:induction false} OverStaysOver(ms: seq<Moment>, es: seq<Event>, create: int, i: nat)
    requires Run(ms, es) && i < |ms|
    requires forall j :: 0 <= j < |ms| ==> ms[j].cp.spec.create == Some(create)
    requires ms[0].cp.status.create == Some(create)
    requires ms[0].cp.status.createPhase == Finished || ms[0].cp.status.createPhase == Unsuccessful
    ensures Kept(ms[0].cp.status, ms[i].cp.status)
  {
    hide Step;
    if i > 0 {
      OverStaysOver(ms, es, create, i - 1);
      assert Step(ms[i - 1], es[i - 1], ms[i - 1 + 1]);
      StepMoves(ms[i - 1], es[i - 1], ms[i]);
    }
  }

  // ---------------------------------------------------------------- what an advance means

  lemma {:induction false} ErrsStay(t: Taking, names: seq<string>, joinServer: string, w: World)
    requires Listed(t.cluster, names) && t.errs != []
    ensures TakenFrom(t, names, joinServer, w).errs != []
    decreases |names|
  {
    hide Assigned;
    if names != [] && !t.aborted {
      ErrsStay(TakenOne(t, names[0], joinServer, w), names[1..], joinServer, w);
    }
  }

  lemma {:induction false} TakenMeans(c: Cluster, names: seq<string>, joinServer: string, w: World)
    requires Listed(c, names)
    ensures var t := TakenFrom(Taking(c, [], false), names, joinServer, w);
      t.errs == [] ==> t.cluster == c && AllCompleted(c, names, TakeJob(joinServer), w)
    decreases |names|
  {
    hide Assigned, Completed;
    if names != [] {
      var start := Taking(c, [], false);
      var one := TakenOne(start, names[0], joinServer, w);
      AssignedNil(c, names[0], TakeJob(joinServer), w);
      if one.errs == [] {
        RenderFailsErrs(c, names[0], joinServer, w);
        assert one == start;
        TakenMeans(c, names[1..], joinServer, w);
        assert names == [names[0]] + names[1..];
      } else {
        ErrsStay(one, names[1..], joinServer, w);
      }
    }
  }

  lemma RenderFailsErrs(c: Cluster, m: string, joinServer: string, w: World)
    requires m in c.secrets
    ensures TakenOne(Taking(c, [], false), m, joinServer, w).errs == [] ==>
      Assigned(c, m, TakeJob(joinServer), w).err == Nil && !TakenOne(Taking(c, [], false), m, joinServer, w).aborted
  {
    hide Assigned;
  }

  /** Every etcd machine has taken its snapshot, and there is one. */
  ghost predicate AllTaken(c: Cluster, joinServer: string, w: World) {
    Collected(c, Etcd) != [] && AllCompleted(c, Collected(c, Etcd), TakeJob(joinServer), w)
  }

  /** Every etcd machine that is neither init node nor deleting holds its desired plan again, applied and healthy. */
  ghost predicate AllBack(c: Cluster, joinServer: string, w: World) {
    AllCompleted(c, RestartNames(c, Collected(c, Etcd)), RestartJob(joinServer), w)
  }

  lemma StageMeans(cp: Object, c: Cluster, w: World) returns (joinServer: string)
    requires cp.spec.create == cp.status.create
    ensures var r := Created(cp, cp.status, c, w);
      && (cp.status.createPhase == Started && r.status.createPhase == RestartCluster ==>
            r.cluster == c && AllTaken(c, joinServer, w))
      && (cp.status.createPhase == RestartCluster && r.status.createPhase == Finished ==>
            AllBack(r.cluster, joinServer, w))
  {
    hide Taken, ServicesStarted, FoundInitNode, SomeFailed, AllTaken, AllBack, InitNodeRuns.Relabelled;
    joinServer := "";
    if cp.status.createPhase == Started {
      InitNodeRuns.FoundRelabels(c, cp.fixedInitNode);
      joinServer := FoundInitNode(c, cp.fixedInitNode).joinURL;
      TakingMeans(c, joinServer, w);
    } else if cp.status.createPhase == RestartCluster {
      joinServer := StartingMeans(cp, c, w);
    }
  }

  lemma TakingMeans(c: Cluster, joinServer: string, w: World)
    ensures var t := Taken(c, joinServer, w);
      t.errs == [] ==> t.cluster == c && AllTaken(c, joinServer, w)
  {
    hide Matches, AllCompleted, TakenFrom;
    FullReconcile.TierListed(c, Etcd);
    TakenMeans(c, Collected(c, Etcd), joinServer, w);
  }

  lemma StartingMeans(cp: Object, c: Cluster, w: World) returns (joinServer: string)
    ensures var r := ServicesStarted(cp, c, Etcd, w);
      r.err == Nil ==> AllBack(r.cluster, joinServer, w)
  {
    hide Reconciled, FoundInitNode, AllCompleted, Rolled, RestartNames, RoleFilter, SettingsOf;
    FullReconcile.TierListed(c, Etcd);
    var t := Reconciled(c, FullReconcile.BootstrapTier(cp.spec.strategy.controlPlaneDrain), SettingsOf(cp, w));
    var f := FoundInitNode(t.cluster, cp.fixedInitNode);
    joinServer := f.joinURL;
    RolesListed(f.cluster, Etcd) by { EtcdRole(); }
    RolledNil(f.cluster, RestartNames(f.cluster, Collected(f.cluster, Etcd)), RestartJob(joinServer), w);
  }

  /** The persisted creation goes on to the restart only when every etcd machine has applied its snapshot plan, and is
      finished only when every etcd machine but the init node and the deleting ones runs its desired plan again. */
  lemma AdvanceIsEarned(cp: Object, c: Cluster, w: World) returns (joinServer: string)
    ensures var p := Persisted(cp, c, w);
      && (cp.status.createPhase == Started && p.cp.status.createPhase == RestartCluster ==>
            p.cluster == c && AllTaken(c, joinServer, w))
      && (cp.status.createPhase == RestartCluster && p.cp.status.createPhase == Finished ==>
            AllBack(p.cluster, joinServer, w))
  {
    hide Persisted, Acting, Created, Planned, AllTaken, AllBack;
    PersistedMeans(cp, c, w);
    OtherStagesKeepCreate(cp, c, w);
    CreateStageMoves(cp, c, w);
    joinServer := "";
    if cp.spec.create == cp.status.create {
      joinServer := StageMeans(cp, c, w);
    }
  }

  // ---------------------------------------------------------------- when a snapshot counts as failed

  /** The snapshot of the machine has failed: its plan cannot be generated, or it holds the plan and the plan has
      failed, or it does not hold the plan and storing it leaves a secret that cannot be read. */
  predicate Fails(c: Cluster, m: string, joinServer: string, w: World)
    requires m in c.secrets
  {
    var s := c.secrets[m];
    match w.render(TakeSnapshot, m, s.labels, s.annotations, joinServer)
    case RenderFails(_) => true
    case Rendered(plan, joinedTo) =>
      if m in c.nodes && c.nodes[m].plan == plan then c.nodes[m].failed
      else SecretToNode(WithPlan(s, plan, joinedTo, 3, 3)).Unreadable?
  }

  ghost predicate AnyFails(c: Cluster, names: seq<string>, joinServer: string, w: World)
    requires Listed(c, names)
  {
    exists m :: m in names && Fails(c, m, joinServer, w)
  }

  lemma OneFails(t: Taking, m: string, joinServer: string, w: World)
    requires m in t.cluster.secrets
    ensures var one := TakenOne(t, m, joinServer, w);
      && OnlyTouches(t.cluster, one.cluster, {m})
      && (SomeFailed(one.errs) <==>
            Fails(t.cluster, m, joinServer, w) ||
            (SomeFailed(t.errs) && !w.render(TakeSnapshot, m, t.cluster.secrets[m].labels,
                                             t.cluster.secrets[m].annotations, joinServer).RenderFails?))
      && (one.aborted ==> SomeFailed(one.errs))
  {
    hide WithPlan, SecretToNode;
    var job := TakeJob(joinServer);
    var a := Assigned(t.cluster, m, job, w);
    AssignedKinds(t.cluster, m, joinServer, w);
    var one := TakenOne(t, m, joinServer, w);
    if one.aborted {
      assert one.errs[0] != Waiting;
    } else if a.err != Nil {
      assert one.errs == t.errs + [a.err];
      assert forall i :: 0 <= i < |t.errs| ==> one.errs[i] == t.errs[i];
      assert one.errs[|t.errs|] == a.err;
    }
  }

  lemma AssignedKinds(c: Cluster, m: string, joinServer: string, w: World)
    requires m in c.secrets
    ensures var err := Assigned(c, m, TakeJob(joinServer), w).err;
      err != Nil && err != Waiting <==> Fails(c, m, joinServer, w)
  {
    hide WithPlan, SecretToNode;
  }

  lemma FailsFrame(c: Cluster, c': Cluster, names: seq<string>, m: string, joinServer: string, w: World)
    requires Listed(c, names) && OnlyTouches(c, c', {m}) && m !in names
    ensures Listed(c', names) && (AnyFails(c', names, joinServer, w) <==> AnyFails(c, names, joinServer, w))
  {
    hide WithPlan, SecretToNode;
    forall x | x in names ensures Fails(c', x, joinServer, w) <==> Fails(c, x, joinServer, w) {
      assert c'.secrets[x] == c.secrets[x];
    }
  }

  /** What is collected holds a real failure exactly when some machine fails. */
  lemma {:induction false} TakenFails(t: Taking, names: seq<string>, joinServer: string, w: World)
    requires Listed(t.cluster, names) && Names.NoDuplicates(names) && !t.aborted
    ensures SomeFailed(TakenFrom(t, names, joinServer, w).errs) <==>
      AnyFails(t.cluster, names, joinServer, w) || SomeFailed(t.errs)
    decreases |names|
  {
    hide TakenOne, SomeFailed, Fails;
    if names != [] {
      var m, rest := names[0], names[1..];
      var one := TakenOne(t, m, joinServer, w);
      OneFails(t, m, joinServer, w);
      assert names == [m] + rest;
      DistinctRest(names);
      FailsFrame(t.cluster, one.cluster, rest, m, joinServer, w);
      assert AnyFails(t.cluster, names, joinServer, w) <==>
        Fails(t.cluster, m, joinServer, w) || AnyFails(t.cluster, rest, joinServer, w);
      if !one.aborted {
        TakenFails(one, rest, joinServer, w);
        NotAborted(t, m, joinServer, w);
      } else {
        AbortedFails(t, m, joinServer, w);
      }
    }
  }

  lemma DistinctRest(names: seq<string>)
    requires Names.NoDuplicates(names) && names != []
    ensures Names.NoDuplicates(names[1..]) && names[0] !in names[1..]
  {
    assert forall i :: 0 <= i < |names[1..]| ==> names[1..][i] == names[i + 1];
  }

  lemma NotAborted(t: Taking, m: string, joinServer: string, w: World)
    requires m in t.cluster.secrets && !TakenOne(t, m, joinServer, w).aborted
    ensures var s := t.cluster.secrets[m];
      !w.render(TakeSnapshot, m, s.labels, s.annotations, joinServer).RenderFails?
  {
    hide Assigned;
  }

  lemma AbortedFails(t: Taking, m: string, joinServer: string, w: World)
    requires m in t.cluster.secrets && TakenOne(t, m, joinServer, w).aborted
    ensures Fails(t.cluster, m, joinServer, w)
  {
    hide Assigned;
  }

  /** There is no etcd machine, or the snapshot of one of them has failed. */
  ghost predicate SnapshotFails(c: Cluster, joinServer: string, w: World) {
    || (forall m :: m in c.machines ==> !(m in c.secrets && c.secrets[m].labels.etcd))
    || (exists m :: m in c.machines && m in c.secrets && c.secrets[m].labels.etcd && Fails(c, m, joinServer, w))
  }

  lemma SnapshotFailsMeans(c: Cluster, joinServer: string, w: World)
    ensures SomeFailed(Taken(c, joinServer, w).errs) <==> SnapshotFails(c, joinServer, w)
  {
    hide TakenFrom, Fails;
    FullReconcile.TierListed(c, Etcd);
    var servers := Collected(c, Etcd);
    forall m ensures m in servers <==> m in c.machines && m in c.secrets && c.secrets[m].labels.etcd {
    }
    if servers == [] {
      assert Taken(c, joinServer, w).errs[0] != Waiting;
      forall m | m in c.machines ensures !(m in c.secrets && c.secrets[m].labels.etcd) {
        assert m !in servers;
      }
    } else {
      TakenFails(Taking(c, [], false), servers, joinServer, w);
      assert servers[0] in servers;
    }
  }

  /** The snapshot that the spec asks for is being taken, and the cluster has an init node that can be joined. */
  ghost predicate TakesSnapshot(cp: Object, c: Cluster) {
    var f := FoundInitNode(c, cp.fixedInitNode);
    && cp.spec.create.Some? && cp.status.create == cp.spec.create && cp.status.createPhase == Started
    && cp.status.initialized && cp.status.bootstrapped == Yes && f.err == Nil && f.joinURL != ""
  }

  lemma StartedFails(cp: Object, c: Cluster, w: World)
    requires cp.spec.create == cp.status.create && cp.status.createPhase == Started
    ensures var r, url := Created(cp, cp.status, c, w), FoundInitNode(c, cp.fixedInitNode).joinURL;
      && (r.status.createPhase == Unsuccessful <==> TakesSnapshot(cp, c) && SnapshotFails(c, url, w))
      && (TakesSnapshot(cp, c) ==> r.err == Waiting)
  {
    hide Taken, FoundInitNode, SomeFailed, SnapshotFails, InitNodeRuns.Relabelled;
    InitNodeRuns.FoundRelabels(c, cp.fixedInitNode);
    SnapshotFailsMeans(c, FoundInitNode(c, cp.fixedInitNode).joinURL, w);
    NoneFailed();
  }

  lemma NoneFailed()
    ensures !SomeFailed([])
  {
  }

  /** A snapshot that is being taken is recorded as failed by a persisted pass only when there is no etcd machine, or
      the snapshot of one has failed. Otherwise, as long as the spec asks for that snapshot, it is still being taken or
      the restart begins. */
  lemma FailureIsReal(cp: Object, c: Cluster, w: World)
    requires cp.status.createPhase == Started
    ensures var s', url := Persisted(cp, c, w).cp.status, FoundInitNode(c, cp.fixedInitNode).joinURL;
      && (s'.createPhase == Unsuccessful ==> TakesSnapshot(cp, c) && SnapshotFails(c, url, w))
      && (cp.spec.create == cp.status.create && cp.spec.create.Some? && !SnapshotFails(c, url, w) ==>
            s'.create == cp.spec.create && (s'.createPhase == Started || s'.createPhase == RestartCluster))
  {
    hide Persisted, Acting, Created, Planned, SnapshotFails, TakesSnapshot, FoundInitNode;
    PersistedMeans(cp, c, w);
    OtherStagesKeepCreate(cp, c, w);
    CreateStageMoves(cp, c, w);
    if cp.spec.create == cp.status.create { StartedFails(cp, c, w); }
  }

  lemma CreatedActs(cp: Object, c: Cluster, w: World)
    requires Created(cp, cp.status, c, w).err != Nil
    ensures Acting(cp, c, w) == Created(cp, cp.status, c, w)
  {
    hide Created, SnapshotRestore.RestoreStage, CertificateRotation.RotationStage, KeyRotation.KeyStage, Ordinary;
  }

  // ---------------------------------------------------------------- the end of the creation

  /** The restart concerns the etcd machines that are neither the init node nor deleting. */
  predicate IsRestarted(c: Cluster, m: string) {
    && m in c.machines && m in c.secrets && c.secrets[m].labels.etcd
    && c.secrets[m].labels.initNode != "true" && !c.machines[m].deleting
  }

  lemma RestartedMeans(c: Cluster)
    ensures forall m :: m in RestartNames(c, Collected(c, Etcd)) <==> IsRestarted(c, m)
  {
    hide Matches;
    RestartElements(c, Collected(c, Etcd));
    forall m ensures m in Collected(c, Etcd) && Restartable(c, m) <==> IsRestarted(c, m) {
      EtcdMeans(c, m);
      OrMeans(c, Filter.InitNode, Deleting, m);
    }
  }

  lemma EtcdMeans(c: Cluster, m: string)
    ensures Matches(c, Etcd, m) <==> m in c.secrets && c.secrets[m].labels.etcd
    ensures Matches(c, Filter.InitNode, m) <==> m in c.secrets && c.secrets[m].labels.initNode == "true"
    ensures Matches(c, Deleting, m) <==> m in c.machines && c.machines[m].deleting
  {
  }

  lemma {:induction false} RestartElements(c: Cluster, names: seq<string>)
    ensures forall m :: m in RestartNames(c, names) <==> m in names && Restartable(c, m)
  {
    hide Restartable;
    if names != [] {
      RestartElements(c, names[1..]);
      assert names == [names[0]] + names[1..];
    }
  }

  /** The bootstrap tier ended with nil, and every etcd machine but the init node and the deleting ones has applied its
      desired plan for this join URL. */
  ghost predicate CameBack(cp: Object, c: Cluster, c': Cluster, joinServer: string, w: World) {
    var tier := Tier(true, Etcd, IS_NOT_INIT_NODE_OR_IS_DELETING, Number(1), "", cp.spec.strategy.controlPlaneDrain);
    && Listed(c, Collected(c, tier.filter)) && Reconciled(c, tier, SettingsOf(cp, w)).err == Nil
    && forall m :: IsRestarted(c', m) ==> Completed(c', m, Job(Desired, joinServer, 1, -1), w)
  }

  lemma ServicesCameBack(cp: Object, c: Cluster, w: World) returns (joinServer: string)
    ensures var r := ServicesStarted(cp, c, Etcd, w);
      r.err == Nil ==> joinServer != "" && CameBack(cp, c, r.cluster, joinServer, w)
  {
    hide Reconciled, FoundInitNode, AllCompleted, Rolled, RestartNames, RoleFilter, SettingsOf, Completed, IsRestarted,
         Matches, InitNodeRuns.Relabelled;
    FullReconcile.TierListed(c, Etcd);
    var t := Reconciled(c, FullReconcile.BootstrapTier(cp.spec.strategy.controlPlaneDrain), SettingsOf(cp, w));
    InitNodeRuns.FoundRelabels(t.cluster, cp.fixedInitNode);
    var f := FoundInitNode(t.cluster, cp.fixedInitNode);
    joinServer := f.joinURL;
    if t.err == Nil && f.err == Nil && f.joinURL != "" {
      RolesListed(f.cluster, Etcd) by { EtcdRole(); }
      var names := RestartNames(f.cluster, Collected(f.cluster, Etcd));
      RolledNil(f.cluster, names, RestartJob(joinServer), w);
      RestartedMeans(f.cluster);
      if Rolled(f.cluster, names, RestartJob(joinServer), w).err == Nil {
        forall m | IsRestarted(f.cluster, m) ensures Completed(f.cluster, m, RestartJob(joinServer), w) {
          assert m in names;
          InNames(f.cluster, names, RestartJob(joinServer), w, m);
        }
      }
    }
  }

  lemma InNames(c: Cluster, names: seq<string>, job: Job, w: World, m: string)
    requires AllCompleted(c, names, job, w) && m in names
    ensures Completed(c, m, job, w)
  {
  }

  lemma StageCameBack(cp: Object, c: Cluster, w: World) returns (joinServer: string)
    requires cp.spec.create == cp.status.create && cp.status.createPhase == RestartCluster
    ensures var r := Created(cp, cp.status, c, w);
      r.status.createPhase == Finished ==> joinServer != "" && CameBack(cp, c, r.cluster, joinServer, w)
  {
    hide ServicesStarted, CameBack;
    joinServer := ServicesCameBack(cp, c, w);
  }

  /** The persisted creation is finished only when the cluster has come back: the init node rests, and every other etcd
      machine that is not deleting has applied its desired plan again. */
  lemma FinishIsEarned(cp: Object, c: Cluster, w: World) returns (joinServer: string)
    ensures var p := Persisted(cp, c, w);
      cp.status.createPhase == RestartCluster && p.cp.status.createPhase == Finished ==>
        joinServer != "" && CameBack(cp, c, p.cluster, joinServer, w)
  {
    hide Persisted, Acting, Created, Planned, CameBack;
    PersistedMeans(cp, c, w);
    OtherStagesKeepCreate(cp, c, w);
    CreateStageMoves(cp, c, w);
    joinServer := "";
    if cp.spec.create == cp.status.create && cp.status.createPhase == RestartCluster {
      joinServer := StageCameBack(cp, c, w);
    }
  }

  // ---------------------------------------------------------------- what is earned is granted

  lemma {:induction false} AllCompletedTaken(c: Cluster, names: seq<string>, joinServer: string, w: World)
    requires Listed(c, names) && AllCompleted(c, names, TakeJob(joinServer), w)
    ensures TakenFrom(Taking(c, [], false), names, joinServer, w) == Taking(c, [], false)
  {
    hide Assigned, Completed;
    if names != [] {
      assert names[0] in names;
      CompletedTaken(c, names[0], joinServer, w);
      assert forall m :: m in names[1..] ==> m in names;
      AllCompletedTaken(c, names[1..], joinServer, w);
    }
  }

  lemma CompletedTaken(c: Cluster, m: string, joinServer: string, w: World)
    requires m in c.secrets && Completed(c, m, TakeJob(joinServer), w)
    ensures TakenOne(Taking(c, [], false), m, joinServer, w) == Taking(c, [], false)
  {
    hide PlanUpdate;
  }

  lemma TakenExactly(c: Cluster, joinServer: string, w: World)
    ensures Taken(c, joinServer, w).errs == [] <==> AllTaken(c, joinServer, w)
    ensures AllTaken(c, joinServer, w) ==> Taken(c, joinServer, w).cluster == c
  {
    hide Matches, AllCompleted, TakenFrom;
    FullReconcile.TierListed(c, Etcd);
    TakingMeans(c, joinServer, w);
    if AllTaken(c, joinServer, w) { AllCompletedTaken(c, Collected(c, Etcd), joinServer, w); }
  }

  lemma StartedAdvances(cp: Object, c: Cluster, w: World)
    requires TakesSnapshot(cp, c)
    ensures var r, url := Created(cp, cp.status, c, w), FoundInitNode(c, cp.fixedInitNode).joinURL;
      && r.err == Waiting
      && (r.status.createPhase == RestartCluster <==> AllTaken(c, url, w))
      && (r.status.createPhase == Unsuccessful <==> SnapshotFails(c, url, w))
      && (r.status.createPhase == RestartCluster || r.status.createPhase == Unsuccessful ||
          r.status.createPhase == Started)
  {
    hide Taken, FoundInitNode, SomeFailed, SnapshotFails, AllTaken, InitNodeRuns.Relabelled;
    InitNodeRuns.FoundRelabels(c, cp.fixedInitNode);
    SnapshotFailsMeans(c, FoundInitNode(c, cp.fixedInitNode).joinURL, w);
    TakenExactly(c, FoundInitNode(c, cp.fixedInitNode).joinURL, w);
    NoneFailed();
  }

  /** The cluster is back, with an init node that can be joined at this URL. */
  ghost predicate IsBack(cp: Object, c: Cluster, joinServer: string, w: World) {
    var tier := Tier(true, Etcd, IS_NOT_INIT_NODE_OR_IS_DELETING, Number(1), "", cp.spec.strategy.controlPlaneDrain);
    Listed(c, Collected(c, tier.filter)) &&
    var t := Reconciled(c, tier, SettingsOf(cp, w));
    var f := FoundInitNode(t.cluster, cp.fixedInitNode);
    && t.err == Nil && f.err == Nil && f.joinURL == joinServer != ""
    && forall m :: IsRestarted(t.cluster, m) ==> Completed(t.cluster, m, Job(Desired, joinServer, 1, -1), w)
  }

  lemma BackStarts(cp: Object, c: Cluster, joinServer: string, w: World)
    requires IsBack(cp, c, joinServer, w)
    ensures ServicesStarted(cp, c, Etcd, w).err == Nil
  {
    hide Reconciled, FoundInitNode, Rolled, RestartNames, RoleFilter, SettingsOf, Completed, IsRestarted, Matches,
         InitNodeRuns.Relabelled;
    FullReconcile.TierListed(c, Etcd);
    var t := Reconciled(c, FullReconcile.BootstrapTier(cp.spec.strategy.controlPlaneDrain), SettingsOf(cp, w));
    InitNodeRuns.FoundRelabels(t.cluster, cp.fixedInitNode);
    var f := FoundInitNode(t.cluster, cp.fixedInitNode);
    RolesListed(f.cluster, Etcd) by { EtcdRole(); }
    var names := RestartNames(f.cluster, Collected(f.cluster, Etcd));
    RestartedMeans(f.cluster);
    assert AllCompleted(f.cluster, names, RestartJob(joinServer), w);
    RolledNil(f.cluster, names, RestartJob(joinServer), w);
  }

  lemma RestartAdvances(cp: Object, c: Cluster, joinServer: string, w: World)
    requires cp.spec.create.Some? && cp.status.create == cp.spec.create && cp.status.createPhase == RestartCluster
    requires cp.status.initialized && cp.status.bootstrapped == Yes && IsBack(cp, c, joinServer, w)
    ensures var r := Created(cp, cp.status, c, w);
      r.err == Waiting && r.status.createPhase == Finished
  {
    hide ServicesStarted, IsBack;
    BackStarts(cp, c, joinServer, w);
  }

  /** The other way round: a pass that gets to its stages and can store its status grants what is earned. A snapshot
      that is being taken goes on to the restart exactly when every etcd machine has taken it, and counts as failed
      exactly when one has failed; and the creation is finished once the cluster is back. */
  lemma EarnedIsGranted(cp: Object, c: Cluster, joinServer: string, w: World)
    requires Planned(cp, c, w) && w.saved
    ensures var s', url := Persisted(cp, c, w).cp.status, FoundInitNode(c, cp.fixedInitNode).joinURL;
      && (TakesSnapshot(cp, c) ==>
            && (s'.createPhase == RestartCluster <==> AllTaken(c, url, w))
            && (s'.createPhase == Unsuccessful <==> SnapshotFails(c, url, w)))
      && (cp.spec.create.Some? && cp.status.create == cp.spec.create && cp.status.createPhase == RestartCluster &&
          cp.status.initialized && cp.status.bootstrapped == Yes && IsBack(cp, c, joinServer, w) ==>
            s'.createPhase == Finished)
  {
    hide Acting, Created, SnapshotFails, FoundInitNode, Sane, Stages, AllTaken, IsBack, TakesSnapshot;
    ProcessedMeans(cp, c, w);
    if TakesSnapshot(cp, c) {
      StartedAdvances(cp, c, w);
      CreatedActs(cp, c, w);
    } else if cp.spec.create.Some? && cp.status.create == cp.spec.create && cp.status.createPhase == RestartCluster &&
              cp.status.initialized && cp.status.bootstrapped == Yes && IsBack(cp, c, joinServer, w) {
      RestartAdvances(cp, c, joinServer, w);
      CreatedActs(cp, c, w);
    }
    if TakesSnapshot(cp, c) { NotRestarting(cp, c); }
  }

  lemma NotRestarting(cp: Object, c: Cluster)
    requires TakesSnapshot(cp, c)
    ensures cp.status.createPhase == Started
  {
  }
}
