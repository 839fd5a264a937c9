/** What a pass does to clusters that it cannot plan for, and what the persisted conditions of the control plane
    mean. */
module PassOutcomes {
  import opened Model
  import opened PlanEntry
  import opened Store
  import opened Scheduler
  import opened ControlPlane
  import opened FullReconcile
  import opened Gating
  import opened Process
  import opened Exclusivity
  import opened PassRuns
  import FullOutcomes
  import SnapshotCreate
  import SnapshotRestore
  import CertificateRotation
  import KeyRotation

  // ---------------------------------------------------------------- clusters that cannot be planned for

  predicate Live(c: Cluster, m: string) {
    m in c.machines && m in c.secrets && !c.machines[m].deleting
  }

  /** There is a machine that is not deleting for each of the three roles. */
  ghost predicate Complete(c: Cluster) {
    && (exists m :: Live(c, m) && c.secrets[m].labels.etcd)
    && (exists m :: Live(c, m) && c.secrets[m].labels.controlPlane)
    && (exists m :: Live(c, m) && c.secrets[m].labels.worker)
  }

  lemma RoleMeans(c: Cluster, m: string)
    ensures var s := m in c.secrets;
      && (Matches(c, Etcd, m) <==> s && c.secrets[m].labels.etcd)
      && (Matches(c, Filter.ControlPlane, m) <==> s && c.secrets[m].labels.controlPlane)
      && (Matches(c, Worker, m) <==> s && c.secrets[m].labels.worker)
      && (Matches(c, Deleting, m) <==> m in c.machines && c.machines[m].deleting)
      && (Matches(c, HasJoinURL, m) <==> s && c.secrets[m].annotations.joinURL != "")
      && (Matches(c, HasJoinedTo, m) <==> s && c.secrets[m].annotations.joinedTo != "")
      && (Matches(c, HasPlan, m) <==> m in c.nodes)
  {
  }

  lemma LiveMeans(c: Cluster, m: string)
    requires m in c.machines
    ensures Matches(c, And(Etcd, Not(Deleting)), m) <==> Live(c, m) && c.secrets[m].labels.etcd
    ensures Matches(c, And(Filter.ControlPlane, Not(Deleting)), m) <==> Live(c, m) && c.secrets[m].labels.controlPlane
    ensures Matches(c, And(Worker, Not(Deleting)), m) <==> Live(c, m) && c.secrets[m].labels.worker
  {
    hide Matches;
    RoleMeans(c, m);
    NotMeans(c, Deleting, m);
    AndMeans(c, Etcd, Not(Deleting), m);
    AndMeans(c, Filter.ControlPlane, Not(Deleting), m);
    AndMeans(c, Worker, Not(Deleting), m);
  }

  lemma SaneMeans(c: Cluster)
    ensures Sane(c) <==> Complete(c)
  {
    hide Matches;
    CollectedHead(c, And(Etcd, Not(Deleting)));
    CollectedHead(c, And(Filter.ControlPlane, Not(Deleting)));
    CollectedHead(c, And(Worker, Not(Deleting)));
    forall m | m in c.machines
      ensures Matches(c, And(Etcd, Not(Deleting)), m) <==> Live(c, m) && c.secrets[m].labels.etcd
      ensures Matches(c, And(Filter.ControlPlane, Not(Deleting)), m) <==>
              Live(c, m) && c.secrets[m].labels.controlPlane
      ensures Matches(c, And(Worker, Not(Deleting)), m) <==> Live(c, m) && c.secrets[m].labels.worker
    {
      LiveMeans(c, m);
    }
  }

  /** A pass over a cluster that lacks a live machine of some role changes nothing in it. The control plane is then
      neither initialized nor ready, if its status can be stored. */
  lemma IncompleteIsLeftAlone(cp: Object, c: Cluster, w: World)
    requires !cp.deleting && w.preamble == PlanLoaded && !Complete(c)
    ensures var p := Persisted(cp, c, w);
      && p.cluster == c && !Planned(cp, c, w)
      && (w.saved && (cp.status.initialized || cp.status.ready) ==> !p.cp.status.initialized && !p.cp.status.ready)
  {
    SaneMeans(c);
    hide Sane, Complete, Stages;
  }

  /** Some machine has joined, or can be joined, or the cluster is known to have been bootstrapped; and yet no etcd
      machine has a plan. */
  ghost predicate LostEtcd(s: Status, c: Cluster) {
    && (s.bootstrapped == Yes ||
        exists m :: m in c.machines && m in c.secrets &&
                    (c.secrets[m].annotations.joinURL != "" || c.secrets[m].annotations.joinedTo != ""))
    && forall m :: m in c.machines && m in c.secrets && c.secrets[m].labels.etcd ==> m !in c.nodes
  }

  lemma LostEtcdMeans(s: Status, c: Cluster)
    ensures EtcdReplaced(s, c) <==> LostEtcd(s, c)
  {
    hide Matches;
    CollectedHead(c, Or(HasJoinURL, HasJoinedTo));
    CollectedHead(c, And(Etcd, HasPlan));
    forall m | m in c.machines
      ensures Matches(c, Or(HasJoinURL, HasJoinedTo), m) <==>
              m in c.secrets && (c.secrets[m].annotations.joinURL != "" || c.secrets[m].annotations.joinedTo != "")
      ensures Matches(c, And(Etcd, HasPlan), m) <==> m in c.secrets && c.secrets[m].labels.etcd && m in c.nodes
    {
      RoleMeans(c, m);
      OrMeans(c, HasJoinURL, HasJoinedTo, m);
      AndMeans(c, Etcd, HasPlan, m);
    }
  }

  /** An ordinary pass over a cluster that is paused, or that has lost its etcd, changes nothing in it; a loss is noted
      as an unstable cluster. */
  lemma LostEtcdIsLeftAlone(cp: Object, c: Cluster, w: World)
    requires OperationsRest(cp, c, w) && Planned(cp, c, w)
    ensures var p := Persisted(cp, c, w);
      && (w.paused || LostEtcd(cp.status, c) ==> p.cluster == c)
      && (!w.paused && LostEtcd(cp.status, c) && w.saved ==> p.cp.status.stable == No)
      && (!w.paused && !LostEtcd(cp.status, c) ==>
            p.cluster == FullyReconciled(cp, cp.status, c, false, w).stage.cluster)
  {
    LostEtcdMeans(cp.status, c);
    hide Processed, Acting, LostEtcd, EtcdReplaced, FullyReconciled, OperationsRest, Planned;
    PersistedMeans(cp, c, w);
    RestingIsOrdinary(cp, c, w);
    PersistsStage(cp, c, w);
    ActingIsOrdinary(cp, c, w);
  }

  lemma ActingIsOrdinary(cp: Object, c: Cluster, w: World)
    requires OperationsRest(cp, c, w)
    ensures Acting(cp, c, w) == Ordinary(cp, cp.status, c, w)
  {
    hide SnapshotCreate.Created, SnapshotRestore.RestoreStage, CertificateRotation.RotationStage, KeyRotation.KeyStage,
         Ordinary;
  }

  // ---------------------------------------------------------------- what the conditions mean

  /** What is persisted of the stage that acted, if the status can be stored: after nil, all conditions are good and the
      spec is on record as applied; after waiting, readiness is unclear; after any other error, nothing at all. */
  lemma PersistsStage(cp: Object, c: Cluster, w: World)
    requires Planned(cp, c, w)
    ensures var a, p := Acting(cp, c, w), Persisted(cp, c, w);
      var s, s' := a.status, p.cp.status;
      if a.err == Nil then
        w.saved ==>
          && p.err == Nil && s'.readyCondition == Yes == s'.stable && s'.reconciled == Yes
          && s'.appliedSpec == Some(cp.spec)
      else if a.err == Waiting then
        w.saved ==>
          && p.err == Nil && s'.readyCondition == Unclear && s'.stable == s.stable && s'.appliedSpec == s.appliedSpec
          && s'.reconciled == (if s.appliedSpec == Some(cp.spec) then s.reconciled else Unclear)
      else p.err == a.err && s' == cp.status
    ensures !w.saved ==> Persisted(cp, c, w).cp.status == cp.status
  {
    hide Acting, Processed, Sane;
    ProcessedMeans(cp, c, w);
  }

  lemma RestoreKeepsSpec(cp: Object, c: Cluster, w: World)
    ensures SnapshotRestore.RestoreStage(cp, cp.status, c, w).status.appliedSpec == cp.status.appliedSpec
  {
    hide SnapshotRestore.ServicesStopped, SnapshotRestore.Restored, SnapshotRestore.PodsCleaned,
         SnapshotRestore.NodesCleaned, FullyReconciled;
    FullFrame(cp, cp.status, c, true, w);
  }

  lemma StagesKeepSpec(cp: Object, c: Cluster, w: World)
    ensures Acting(cp, c, w).status.appliedSpec == cp.status.appliedSpec
  {
    hide SnapshotCreate.Created, SnapshotRestore.RestoreStage, CertificateRotation.RotationStage, KeyRotation.KeyStage,
         FullyReconciled, EtcdReplaced;
    var s := cp.status;
    CreatedFrame(cp, s, c, w);
    RestoreKeepsSpec(cp, c, w);
    RotationFrame(cp, s, c, w);
    KeyFrame(cp, s, c, w);
    FullFrame(cp, s, c, false, w);
  }

  /** No operation has anything to do, and full reconciliation reached all four tiers, which all ended with nil. */
  ghost predicate AllDone(cp: Object, c: Cluster, w: World) {
    var f := FullyReconciled(cp, cp.status, c, false, w);
    OperationsRest(cp, c, w) && |f.tiers| == 4 && forall i :: 0 <= i < 4 ==> f.tiers[i].err == Nil
  }

  lemma NilIsDone(cp: Object, c: Cluster, w: World)
    ensures Acting(cp, c, w).err == Nil ==> AllDone(cp, c, w)
  {
    hide SnapshotCreate.Created, SnapshotRestore.RestoreStage, CertificateRotation.RotationStage, KeyRotation.KeyStage,
         FullyReconciled, EtcdReplaced;
    FullOutcomes.FullEnds(cp, cp.status, c, false, w);
    hide FullOutcomes.ServersUp;
  }

  /** A persisted pass puts a spec on record as applied, or makes the control plane ready, only when all is done: no
      operation is under way, and every tier of the cluster ended with nil for this very spec. */
  lemma AppliedIsDone(cp: Object, c: Cluster, w: World)
    requires Planned(cp, c, w)
    ensures var s, s' := cp.status, Persisted(cp, c, w).cp.status;
      && (s'.appliedSpec != s.appliedSpec ==> s'.appliedSpec == Some(cp.spec) && AllDone(cp, c, w))
      && (s'.readyCondition == Yes != s.readyCondition ==> AllDone(cp, c, w))
  {
    hide Acting, Persisted, Planned, AllDone;
    PersistsStage(cp, c, w);
    StagesKeepSpec(cp, c, w);
    NilIsDone(cp, c, w);
  }
}
