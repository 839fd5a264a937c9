/** What each stage of a pass may change, and that at most one stage of a pass does anything. */
module Exclusivity {
  import opened Model
  import opened PlanEntry
  import opened Store
  import opened Scheduler
  import opened InitNode
  import opened ControlPlane
  import opened Process
  import InitNodeRuns
  import FullReconcile
  import SnapshotCreate
  import SnapshotRestore
  import CertificateRotation
  import KeyRotation

  // ---------------------------------------------------------------- which fields of the status a stage may change

  lemma CreatedFrame(cp: Object, s: Status, c: Cluster, w: World)
    ensures var s' := SnapshotCreate.Created(cp, s, c, w).status;
      s' == s.(create := s'.create, createPhase := s'.createPhase)
  {
    hide SnapshotCreate.WhenStarted, SnapshotCreate.WhenRestarting;
    if cp.spec.create.Some? {
      var r := SnapshotCreate.StartOrRestart(s, cp.spec.create.value).status;
      StartedFrame(cp, r, c, cp.spec.create.value, w);
      RestartingFrame(cp, r, c, cp.spec.create.value, w);
    }
  }

  lemma StartedFrame(cp: Object, s: Status, c: Cluster, create: int, w: World)
    ensures var s' := SnapshotCreate.WhenStarted(cp, s, c, create, w).status;
      s' == s.(create := s'.create, createPhase := s'.createPhase)
  {
    hide FoundInitNode, SnapshotCreate.Taken, SnapshotCreate.SomeFailed;
  }

  lemma RestartingFrame(cp: Object, s: Status, c: Cluster, create: int, w: World)
    ensures var s' := SnapshotCreate.WhenRestarting(cp, s, c, create, w).status;
      s' == s.(create := s'.create, createPhase := s'.createPhase)
  {
    hide SnapshotCreate.ServicesStarted;
  }

  predicate FullLeaves(s: Status, s': Status) {
    s' == s.(initialized := s'.initialized, ready := s'.ready, bootstrapped := s'.bootstrapped)
  }

  lemma ControlPlanesFrame(cp: Object, s: Status, c: Cluster, limits: FullReconcile.Limits, joinServer: string,
                           seen: bool, w: World, done: seq<FullReconcile.Ran>)
    ensures FullLeaves(s, FullReconcile.ControlPlanes(cp, s, c, limits, joinServer, seen, w, done).stage.status)
  {
    hide FullReconcile.RanOf, Matches, Listed, SettingsOf, FullReconcile.IgnoreErrors, Reconciled, Collected;
  }

  lemma EtcdsFrame(cp: Object, s: Status, c: Cluster, limits: FullReconcile.Limits, joinServer: string, seen: bool,
                   w: World, done: seq<FullReconcile.Ran>)
    ensures FullLeaves(s, FullReconcile.Etcds(cp, s, c, limits, joinServer, seen, w, done).stage.status)
  {
    hide FullReconcile.RanOf, FullReconcile.ControlPlanes, Matches, Listed, SettingsOf, FullReconcile.IgnoreErrors,
         Reconciled;
    FullReconcile.TierListed(c, Etcd);
    var t := FullReconcile.RanOf(c, FullReconcile.EtcdTier(joinServer, limits.controlPlaneDrain), SettingsOf(cp, w));
    ControlPlanesFrame(cp, s, t.cluster, limits, joinServer, FullReconcile.IgnoreErrors(seen, t.err).seen, w,
                       done + [t]);
  }

  lemma JoiningFrame(cp: Object, s: Status, c: Cluster, limits: FullReconcile.Limits, elected: string, seen: bool,
                     w: World, done: seq<FullReconcile.Ran>)
    ensures FullLeaves(s, FullReconcile.Joining(cp, s, c, limits, elected, seen, w, done).stage.status)
  {
    hide FoundInitNode, FullReconcile.Etcds;
    var f := FoundInitNode(c, cp.fixedInitNode);
    EtcdsFrame(cp, s, c, limits, elected, seen, w, done);
    EtcdsFrame(cp, s, f.cluster, limits, f.joinURL, seen, w, done);
  }

  lemma FullFrame(cp: Object, s: Status, c: Cluster, ignoreLimits: bool, w: World)
    ensures FullLeaves(s, FullReconcile.FullyReconciled(cp, s, c, ignoreLimits, w).stage.status)
  {
    hide Elected, FullReconcile.RanOf, FullReconcile.Joining, Matches, Listed, SettingsOf,
         FullReconcile.LimitsOf, FullReconcile.IgnoreErrors, Reconciled;
    var e := Elected(c, cp.fixedInitNode, true);
    if e.err == Nil {
      var limits := FullReconcile.LimitsOf(cp.spec.strategy, ignoreLimits);
      FullReconcile.TierListed(e.cluster, Etcd);
      var t := FullReconcile.RanOf(e.cluster, FullReconcile.BootstrapTier(limits.controlPlaneDrain), SettingsOf(cp, w));
      JoiningFrame(cp, s.(bootstrapped := Yes), t.cluster, limits, e.joinURL,
                   FullReconcile.IgnoreErrors(false, t.err).seen, w, [t]);
    }
  }

  predicate RestoreLeaves(s: Status, s': Status) {
    && s'.create == s.create && s'.createPhase == s.createPhase
    && s'.keys == s.keys && s'.keyPhase == s.keyPhase && s'.keyLeader == s.keyLeader
    && s'.certificateGeneration == s.certificateGeneration
  }

  /** Restoring leaves the fields of snapshot creation and of the two rotations alone. */
  lemma RestoreFrame(cp: Object, s: Status, c: Cluster, w: World)
    ensures RestoreLeaves(s, SnapshotRestore.RestoreStage(cp, s, c, w).status)
  {
    hide SnapshotRestore.InPhase;
    if cp.spec.restore.Some? && w.snapshot.Good? {
      RestorePhaseFrame(cp, s, c, cp.spec.restore.value, w.snapshot.value, w);
    }
  }

  lemma SettingLeaves(s: Status, restore: Restore, phase: SnapshotPhase)
    ensures RestoreLeaves(s, s) && RestoreLeaves(s, SnapshotRestore.SetState(s, Some(restore), phase).status)
  {
  }

  lemma RestartedFrame(cp: Object, s: Status, c: Cluster, restore: Restore, next: SnapshotPhase, w: World)
    ensures RestoreLeaves(s, SnapshotRestore.Restarted(cp, s, c, restore, next, w).status)
  {
    hide FullReconcile.FullyReconciled;
    FullFrame(cp, s, c, true, w);
  }

  lemma AdvancedFrame(s: Status, given: Given, restore: Restore, next: SnapshotPhase)
    ensures RestoreLeaves(s, SnapshotRestore.Advanced(s, given, restore, next).status)
  {
  }

  lemma RestorePhaseFrame(cp: Object, s: Status, c: Cluster, restore: Restore, snapshot: Option<Snapshot>, w: World)
    ensures RestoreLeaves(s, SnapshotRestore.InPhase(cp, s, c, restore, snapshot, w).status)
  {
    hide SnapshotRestore.ServicesStopped, SnapshotRestore.Restored, SnapshotRestore.PodsCleaned,
         SnapshotRestore.NodesCleaned, SnapshotRestore.Restarted, SnapshotRestore.Advanced, SnapshotRestore.SetState;
    SettingLeaves(s, restore, Started);
    SettingLeaves(s.(initialized := false, ready := false), restore, Shutdown);
    SettingLeaves(s.(bootstrapped := No), restore, Restoring);
    SettingLeaves(s.(configGeneration := s.configGeneration + 1), restore, PodCleanup);
    RestartedFrame(cp, s, c, restore, NodeCleanup, w);
    RestartedFrame(cp, s, c, restore, Finished, w);
    AdvancedFrame(s, SnapshotRestore.PodsCleaned(cp, c, w), restore, InitialRestart);
    AdvancedFrame(s, SnapshotRestore.NodesCleaned(c, w), restore, RestartCluster);
  }

  lemma RotationFrame(cp: Object, s: Status, c: Cluster, w: World)
    ensures var r := CertificateRotation.RotationStage(cp, s, c, w);
      && r.status == s.(certificateGeneration := r.status.certificateGeneration)
      && (r.err == Nil ==> r.status == s && r.cluster == c)
  {
    hide CertificateRotation.Wave, Matches, FoundInitNode, CertificateRotation.FirstFailsToRender, Rolled,
         InitNodeRuns.Relabelled;
    InitNodeRuns.FoundRelabels(c, cp.fixedInitNode);
  }

  // ---------------------------------------------------------------- nil means that nothing was done

  /** Taking snapshots and starting the services again end with a change of the phase, hence with an error. */
  lemma CreatedNil(cp: Object, s: Status, c: Cluster, w: World)
    requires s.createPhase == cp.status.createPhase
    ensures var r := SnapshotCreate.Created(cp, s, c, w);
      r.err == Nil ==> r.status == s && r.cluster == c
  {
    hide FoundInitNode, SnapshotCreate.Taken, SnapshotCreate.ServicesStarted, InitNodeRuns.Relabelled;
    InitNodeRuns.FoundRelabels(c, cp.fixedInitNode);
  }

  lemma RestoreNil(cp: Object, s: Status, c: Cluster, w: World)
    requires s.restorePhase == cp.status.restorePhase
    ensures var r := SnapshotRestore.RestoreStage(cp, s, c, w);
      r.err == Nil ==> r.status == s && r.cluster == c &&
                       (s.restorePhase == NoPhase || s.restorePhase == Finished)
  {
    hide SnapshotRestore.ServicesStopped, SnapshotRestore.Restored, SnapshotRestore.PodsCleaned,
         SnapshotRestore.NodesCleaned, FullReconcile.FullyReconciled;
  }

  lemma NodesRestartedNil(cp: Object, s: Status, c: Cluster, joinServer: string, leader: string, initNode: string,
                          w: World)
    requires leader in c.secrets && initNode in c.secrets
    ensures var r := KeyRotation.NodesRestarted(cp, s, c, joinServer, leader, initNode, w);
      r.err == Nil ==> r.status == s && r.cluster == c
  {
    hide KeyRotation.ServiceRestarted, KeyRotation.FollowerRestarted, KeyRotation.FollowersRestarted, Matches;
    KeyRotation.OthersListed(c, cp.status.keyLeader);
  }

  lemma CommandedNil(s: Status, phase: KeyPhase, c: Cluster, joinServer: string, leader: string, w: World)
    requires leader in c.secrets
    ensures var r := KeyRotation.Commanded(s, phase, c, joinServer, leader, w);
      r.err == Nil ==> r.status == s && r.cluster == c
  {
    hide Assigned;
    AssignedNil(c, leader, KeyRotation.CommandJob(phase, joinServer), w);
  }

  lemma KeyNil(cp: Object, s: Status, c: Cluster, w: World)
    requires s.keyPhase == cp.status.keyPhase
    ensures var r := KeyRotation.KeyStage(cp, s, c, w);
      r.err == Nil ==> r.status == s && r.cluster == c
  {
    hide FoundInitNode, KeyRotation.Leader, KeyRotation.Commanded, KeyRotation.NodesRestarted,
         InitNodeRuns.Relabelled;
    InitNodeRuns.FoundRelabels(c, cp.fixedInitNode);
    var f := FoundInitNode(c, cp.fixedInitNode);
    if f.err == Nil {
      KeyRotation.FoundHasSecret(c, cp.fixedInitNode);
      KeyRotation.LeaderHasSecret(s, f.cluster, f.node.value);
      var leader := KeyRotation.Leader(s, f.cluster, f.node.value);
      if leader.Some? {
        CommandedNil(s, cp.status.keyPhase, f.cluster, f.joinURL, leader.value, w);
        NodesRestartedNil(cp, s, f.cluster, f.joinURL, leader.value, f.node.value, w);
      }
    }
  }

  // ---------------------------------------------------------------- key rotation only touches its own fields

  predicate OnlyKeys(s: Status, s': Status) {
    s' == s.(keys := s'.keys, keyPhase := s'.keyPhase, keyLeader := s'.keyLeader)
  }

  lemma SettingsOnlyKeys(s: Status, keys: Option<int>, phase: KeyPhase, leader: string)
    ensures OnlyKeys(s, s) && OnlyKeys(s, KeyRotation.Failing(s))
    ensures OnlyKeys(s, KeyRotation.SetState(s, keys, phase).status)
    ensures OnlyKeys(s, KeyRotation.SetState(s.(keyLeader := ""), keys, phase).status)
    ensures OnlyKeys(s, s.(keyLeader := leader)) && OnlyKeys(s, KeyRotation.ResetState(s).status)
  {
  }

  lemma KeyFrame(cp: Object, s: Status, c: Cluster, w: World)
    ensures OnlyKeys(s, KeyRotation.KeyStage(cp, s, c, w).status)
  {
    hide FoundInitNode, KeyRotation.InPhase, KeyRotation.Leader, OnlyKeys, KeyRotation.SetState,
         KeyRotation.ResetState, KeyRotation.ShouldRestart;
    SettingsOnlyKeys(s, cp.spec.keys, KeysFailed, "");
    SettingsOnlyKeys(s, cp.spec.keys, Prepare, "");
    var f := FoundInitNode(c, cp.fixedInitNode);
    if f.err == Nil {
      KeyRotation.FoundHasSecret(c, cp.fixedInitNode);
      KeyRotation.LeaderHasSecret(s, f.cluster, f.node.value);
      var leader := KeyRotation.Leader(s, f.cluster, f.node.value);
      if leader.Some? {
        SettingsOnlyKeys(s, cp.spec.keys, Prepare, leader.value);
        InPhaseFrame(cp, s, f.cluster, f.joinURL, leader.value, f.node.value, w);
      }
    }
  }

  lemma InPhaseFrame(cp: Object, s: Status, c: Cluster, joinServer: string, leader: string, initNode: string, w: World)
    requires leader in c.secrets && initNode in c.secrets
    ensures OnlyKeys(s, KeyRotation.InPhase(cp, s, c, joinServer, leader, initNode, w).status)
  {
    hide KeyRotation.Commanded, KeyRotation.NodesRestarted, OnlyKeys, KeyRotation.SetState, KeyRotation.Failing;
    var phase := cp.status.keyPhase;
    SettingsOnlyKeys(s, cp.spec.keys, KeyRotation.NextPhase(phase), "");
    CommandedFrame(s, phase, c, joinServer, leader, w);
    RestartFrame(cp, s, c, joinServer, leader, initNode, w);
    CommandedNil(s, phase, c, joinServer, leader, w);
    NodesRestartedNil(cp, s, c, joinServer, leader, initNode, w);
  }

  predicate KeptOrFailing(s: Status, s': Status) {
    s' == s || s' == KeyRotation.Failing(s)
  }

  lemma CommandedFrame(s: Status, phase: KeyPhase, c: Cluster, joinServer: string, leader: string, w: World)
    requires leader in c.secrets
    ensures KeptOrFailing(s, KeyRotation.Commanded(s, phase, c, joinServer, leader, w).status)
  {
    hide Assigned;
  }

  lemma ServiceFrame(s: Status, phase: KeyPhase, c: Cluster, joinServer: string, m: string, scrape: bool,
                     leaderStage: string, w: World)
    requires m in c.secrets
    ensures KeptOrFailing(s, KeyRotation.ServiceRestarted(s, phase, c, joinServer, m, scrape, leaderStage, w).status)
    ensures KeptOrFailing(s, KeyRotation.FollowerRestarted(s, phase, c, joinServer, m, scrape, leaderStage, w).status)
  {
    hide Assigned, Matches, KeyRotation.Failing;
  }

  lemma {:induction false} FollowersFrame(s: Status, phase: KeyPhase, c: Cluster, joinServer: string,
                                          names: seq<string>, scrape: bool, leaderStage: string, w: World)
    requires Listed(c, names)
    ensures KeptOrFailing(s,
      KeyRotation.FollowersRestarted(s, phase, c, joinServer, names, scrape, leaderStage, w).status)
    decreases |names|
  {
    hide KeyRotation.FollowerRestarted, KeyRotation.Failing;
    if names != [] {
      ServiceFrame(s, phase, c, joinServer, names[0], scrape, leaderStage, w);
      FollowersFrame(s, phase, c, joinServer, names[1..], scrape, leaderStage, w);
    }
  }

  lemma LeaderFrame(cp: Object, s: Status, c: Cluster, joinServer: string, leader: string, w: World)
    requires leader in c.secrets
    ensures KeptOrFailing(s, KeyRotation.LeaderRestarted(cp, s, c, joinServer, leader, w).status)
  {
    hide KeyRotation.ServiceRestarted, KeyRotation.FollowersRestarted, KeyRotation.Failing;
    var phase, keyLeader := cp.status.keyPhase, cp.status.keyLeader;
    KeyRotation.OthersListed(c, keyLeader);
    ServiceFrame(s, phase, c, joinServer, leader, true, "", w);
    var stage := KeyRotation.ServiceRestarted(s, phase, c, joinServer, leader, true, "", w).stage;
    FollowersFrame(s, phase, c, joinServer, Collected(c, KeyRotation.OtherControlPlane(keyLeader)), true, stage, w);
  }

  lemma RestartFrame(cp: Object, s: Status, c: Cluster, joinServer: string, leader: string, initNode: string, w: World)
    requires leader in c.secrets && initNode in c.secrets
    ensures KeptOrFailing(s, KeyRotation.NodesRestarted(cp, s, c, joinServer, leader, initNode, w).status)
  {
    hide KeyRotation.FollowerRestarted, KeyRotation.FollowersRestarted, KeyRotation.LeaderRestarted, Matches,
         KeyRotation.Failing;
    var phase, keyLeader := cp.status.keyPhase, cp.status.keyLeader;
    KeyRotation.OthersListed(c, keyLeader);
    ServiceFrame(s, phase, c, joinServer, initNode, false, "", w);
    FollowersFrame(s, phase, c, joinServer, Collected(c, KeyRotation.OtherEtcd(keyLeader)), false, "", w);
    LeaderFrame(cp, s, c, joinServer, leader, w);
  }

  // ---------------------------------------------------------------- at most one stage acts

  /** In every pass, each stage but the last one run has changed nothing: neither the status, nor a plan, nor anything
      else in the cluster. So at most one of the four operations and ordinary reconciliation acts, and ordinary
      reconciliation runs only when all four operations ended with nil and did nothing. */
  lemma StagesExclude(cp: Object, s: Status, c: Cluster, w: World)
    requires s.createPhase == cp.status.createPhase && s.restorePhase == cp.status.restorePhase
    requires s.keyPhase == cp.status.keyPhase
    ensures var stages := Stages(cp, s, c, w);
      && (forall i :: 0 <= i < |stages| - 1 ==> stages[i] == Stage(s, c, Nil))
      && (|stages| == 5 ==> stages[4] == Ordinary(cp, s, c, w))
  {
    hide SnapshotCreate.Created, SnapshotRestore.RestoreStage, CertificateRotation.RotationStage, KeyRotation.KeyStage,
         Ordinary;
    CreatedNil(cp, s, c, w);
    RestoreNil(cp, s, c, w);
    RotationFrame(cp, s, c, w);
    KeyNil(cp, s, c, w);
  }

  /** The one stage that acts, for a pass that starts from the persisted status. */
  ghost function Acting(cp: Object, c: Cluster, w: World): Stage
  {
    var s := cp.status;
    var a := SnapshotCreate.Created(cp, s, c, w);
    var b := SnapshotRestore.RestoreStage(cp, s, c, w);
    var d := CertificateRotation.RotationStage(cp, s, c, w);
    var e := KeyRotation.KeyStage(cp, s, c, w);
    if a.err != Nil then a
    else if b.err != Nil then b
    else if d.err != Nil then d
    else if e.err != Nil then e
    else Ordinary(cp, s, c, w)
  }

  lemma ActingIsLast(cp: Object, c: Cluster, w: World)
    ensures var stages := Stages(cp, cp.status, c, w);
      stages[|stages| - 1] == Acting(cp, c, w)
  {
    hide SnapshotCreate.Created, SnapshotRestore.RestoreStage, CertificateRotation.RotationStage, KeyRotation.KeyStage,
         Ordinary;
    CreatedNil(cp, cp.status, c, w);
    RestoreNil(cp, cp.status, c, w);
    RotationFrame(cp, cp.status, c, w);
    KeyNil(cp, cp.status, c, w);
  }

  // ---------------------------------------------------------------- what is persisted

  /** The fields of the status that the phase machines work with. */
  predicate SameProgress(s: Status, s': Status) {
    && s'.initialized == s.initialized && s'.ready == s.ready
    && s'.configGeneration == s.configGeneration && s'.certificateGeneration == s.certificateGeneration
    && s'.create == s.create && s'.createPhase == s.createPhase
    && s'.restore == s.restore && s'.restorePhase == s.restorePhase
    && s'.keys == s.keys && s'.keyPhase == s.keyPhase && s'.keyLeader == s.keyLeader
  }

  /** The cluster was set up enough to be planned for, and the pass got as far as its stages. */
  ghost predicate Planned(cp: Object, c: Cluster, w: World) {
    !cp.deleting && w.preamble == PlanLoaded && Sane(c) && w.tokens
  }

  lemma ProcessedMeans(cp: Object, c: Cluster, w: World)
    requires !cp.deleting
    ensures var p := Processed(cp, cp.status, c, w);
      if Planned(cp, c, w) then p == Acting(cp, c, w)
      else p.cluster == c && (SameProgress(cp.status, p.status) ||
                              SameProgress(cp.status.(initialized := false, ready := false), p.status))
  {
    hide Stages, Acting, Sane;
    if Planned(cp, c, w) { ActingIsLast(cp, c, w); }
  }

  lemma ChangedMeans(cp: Object, c: Cluster, w: World)
    requires !cp.deleting
    ensures var p, r := Processed(cp, cp.status, c, w), Changed(cp, cp.status, c, w);
      r.cluster == p.cluster && SameProgress(p.status, r.status) && (r.err == Nil ==> p.err == Nil || p.err == Waiting)
  {
    hide Processed;
  }

  /** What a persisted pass leaves: either the progress is as before, or it is that of the one stage that acted, which
      ended with nil or waiting, or the cluster was found unfit and the control plane is no longer initialized. */
  lemma PersistedMeans(cp: Object, c: Cluster, w: World)
    ensures var p := Persisted(cp, c, w);
      && p.cp.spec == cp.spec && p.cp.fixedInitNode == cp.fixedInitNode && p.cp.deleting == cp.deleting
      && p.cluster == (if Planned(cp, c, w) then Acting(cp, c, w).cluster else c)
      && (|| SameProgress(cp.status, p.cp.status)
          || (Planned(cp, c, w) && (Acting(cp, c, w).err == Nil || Acting(cp, c, w).err == Waiting) &&
              SameProgress(Acting(cp, c, w).status, p.cp.status))
          || (!Planned(cp, c, w) &&
              SameProgress(cp.status.(initialized := false, ready := false), p.cp.status)))
  {
    hide Changed, Acting, Sane, Processed;
    if cp.deleting {
      DeletingMeans(cp, c, w);
    } else {
      ProcessedMeans(cp, c, w);
      ChangedMeans(cp, c, w);
    }
  }

  lemma DeletingMeans(cp: Object, c: Cluster, w: World)
    requires cp.deleting
    ensures Changed(cp, cp.status, c, w) == Stage(cp.status, c, Nil)
  {
  }
}
