/** Process: the four operations and ordinary reconciliation, composed; and what of it is persisted. */
module Process {
  import opened Model
  import opened PlanEntry
  import opened Store
  import opened Scheduler
  import opened ControlPlane
  import FullReconcile
  import SnapshotCreate
  import SnapshotRestore
  import CertificateRotation
  import KeyRotation

  // ---------------------------------------------------------------- clusters that cannot be planned for

  /** There is a machine that is not deleting for each of the three roles. */
  ghost predicate Sane(c: Cluster) {
    && Collected(c, And(Etcd, Not(Deleting))) != []
    && Collected(c, And(Filter.ControlPlane, Not(Deleting))) != []
    && Collected(c, And(Worker, Not(Deleting))) != []
  }

  ghost function Uninitialized(s: Status, c: Cluster, w: World): Stage {
    var unstable := s.(stable := No);
    if s.initialized || s.ready then Stage(unstable.(initialized := false, ready := false), c, Waiting)
    else if w.resetCluster && Collected(c, And(Etcd, Deleting)) != [] && !w.forceDelete then Stage(unstable, c, Other)
    else Stage(unstable, c, Waiting)
  }

  // ---------------------------------------------------------------- ordinary reconciliation

  /** The cluster was set up before, but no etcd machine has a plan: the etcd plane has been replaced. */
  ghost predicate EtcdReplaced(s: Status, c: Cluster) {
    && (s.bootstrapped == Yes || Collected(c, Or(HasJoinURL, HasJoinedTo)) != [])
    && Collected(c, And(Etcd, HasPlan)) == []
  }

  ghost function Ordinary(cp: Object, s: Status, c: Cluster, w: World): Stage {
    if w.paused then Stage(s, c, Waiting)
    else if EtcdReplaced(s, c) then Stage(s.(stable := No), c, Waiting)
    else FullReconcile.FullyReconciled(cp, s, c, false, w).stage
  }

  // ---------------------------------------------------------------- the composition

  /** The stages that a pass runs, in order: each of the four operations in turn, and ordinary reconciliation after
      them. A stage that ends with an error is the last one. */
  ghost function Stages(cp: Object, s: Status, c: Cluster, w: World): (r: seq<Stage>)
    ensures 1 <= |r| <= 5
  {
    var a := SnapshotCreate.Created(cp, s, c, w);
    if a.err != Nil then [a] else
    var b := SnapshotRestore.RestoreStage(cp, a.status, a.cluster, w);
    if b.err != Nil then [a, b] else
    var d := CertificateRotation.RotationStage(cp, b.status, b.cluster, w);
    if d.err != Nil then [a, b, d] else
    var e := KeyRotation.KeyStage(cp, d.status, d.cluster, w);
    if e.err != Nil then [a, b, d, e] else
    [a, b, d, e, Ordinary(cp, e.status, e.cluster, w)]
  }

  ghost function Processed(cp: Object, s: Status, c: Cluster, w: World): Stage
  {
    match w.preamble
    case VersionError => Stage(s, c, Other)
    case WaitingForOthers => Stage(s, c, Waiting)
    case LookupError => Stage(s, c, Other)
    case ClusterDeleting => Stage(s, c, Nil)
    case LoadError => Stage(s, c, Other)
    case PlanLoaded =>
      if !Sane(c) then Uninitialized(s, c, w)
      else if !w.tokens then Stage(s, c, Other)
      else
        var stages := Stages(cp, s, c, w);
        stages[|stages| - 1]
  }

  /** The controller: waiting is turned into success with the condition unknown. */
  ghost function Changed(cp: Object, s: Status, c: Cluster, w: World): Stage
  {
    if cp.deleting then Stage(s, c, Nil) else
    var p := Processed(cp, s, c, w);
    match p.err
    case Waiting =>
      var waiting := p.status.(readyCondition := Unclear);
      Stage(if waiting.appliedSpec != Some(cp.spec) then waiting.(reconciled := Unclear) else waiting, p.cluster, Nil)
    case Skip => p
    case Nil =>
      Stage(p.status.(readyCondition := Yes, stable := Yes, reconciled := Yes, appliedSpec := Some(cp.spec)),
            p.cluster, Nil)
    case _ => p.(status := p.status.(readyCondition := No, reconciled := No))
  }

  datatype Synced = Synced(cp: Object, cluster: Cluster, err: Err)

  /** The status handler: an error reverts the status, and a status that changed is written to the API server. */
  ghost function Persisted(cp: Object, c: Cluster, w: World): Synced
  {
    var r := Changed(cp, cp.status, c, w);
    var status := if r.err != Nil then cp.status else r.status;
    if status == cp.status then Synced(cp, r.cluster, r.err)
    else if w.saved then Synced(cp.(status := status), r.cluster, r.err)
    else Synced(cp, r.cluster, if r.err != Nil then r.err else Other)
  }

  // ---------------------------------------------------------------- as it runs

  method ClusterIsSane(c: Cluster) returns (sane: bool)
    ensures sane == Sane(c)
  {
    hide Matches;
    var etcds := Collect(c, And(Etcd, Not(Deleting)));
    var controlPlanes := Collect(c, And(Filter.ControlPlane, Not(Deleting)));
    var workers := Collect(c, And(Worker, Not(Deleting)));
    if |etcds| == 0 || |controlPlanes| == 0 || |workers| == 0 {
      return false;
    }
    return true;
  }

  method Uninitialize(status: Status, c: Cluster, w: World) returns (s: Status, err: Err)
    ensures Stage(s, c, err) == Uninitialized(status, c, w)
  {
    hide Matches;
    s := status.(stable := No);
    if s.initialized || s.ready {
      s := s.(initialized := false, ready := false);
      return s, Waiting;
    }
    if !w.resetCluster {
      return s, Waiting;
    }
    var deleting := Collect(c, And(Etcd, Deleting));
    if |deleting| != 0 && !w.forceDelete {
      return s, Other;
    }
    return s, Waiting;
  }

  method ReconcileOrdinarily(store: PlanStore, cp: Object, status: Status, w: World) returns (s: Status, err: Err)
    modifies store
    ensures Stage(s, store.cluster, err) == Ordinary(cp, status, old(store.cluster), w)
  {
    hide Matches, FullReconcile.FullyReconciled;
    s := status;
    if w.paused {
      return s, Waiting;
    }
    var joined := Collect(store.cluster, Or(HasJoinURL, HasJoinedTo));
    var planned := Collect(store.cluster, And(Etcd, HasPlan));
    if (s.bootstrapped == Yes || |joined| != 0) && |planned| == 0 {
      s := s.(stable := No);
      return s, Waiting;
    }
    s, err := FullReconcile.ReconcileAll(store, cp, s, false, w);
  }

  method RunStages(store: PlanStore, cp: Object, status: Status, w: World) returns (s: Status, err: Err)
    modifies store
    ensures var stages := Stages(cp, status, old(store.cluster), w);
      Stage(s, store.cluster, err) == stages[|stages| - 1]
  {
    hide SnapshotCreate.Created, SnapshotRestore.RestoreStage, CertificateRotation.RotationStage, KeyRotation.KeyStage,
         Ordinary;
    s, err := SnapshotCreate.CreateEtcdSnapshot(store, cp, status, w);
    if err != Nil {
      return;
    }
    s, err := SnapshotRestore.RestoreEtcdSnapshot(store, cp, s, w);
    if err != Nil {
      return;
    }
    s, err := CertificateRotation.RotateCertificates(store, cp, s, w);
    if err != Nil {
      return;
    }
    s, err := KeyRotation.RotateEncryptionKeys(store, cp, s, w);
    if err != Nil {
      return;
    }
    s, err := ReconcileOrdinarily(store, cp, s, w);
  }

  method RunPass(store: PlanStore, cp: Object, status: Status, w: World) returns (s: Status, err: Err)
    modifies store
    ensures Stage(s, store.cluster, err) == Processed(cp, status, old(store.cluster), w)
  {
    hide Stages, Sane, Uninitialized;
    s := status;
    match w.preamble {
      case VersionError => return s, Other;
      case WaitingForOthers => return s, Waiting;
      case LookupError => return s, Other;
      case ClusterDeleting => return s, Nil;
      case LoadError => return s, Other;
      case PlanLoaded =>
    }
    var sane := ClusterIsSane(store.cluster);
    if !sane {
      s, err := Uninitialize(s, store.cluster, w);
      return;
    }
    if !w.tokens {
      return s, Other;
    }
    s, err := RunStages(store, cp, s, w);
  }

  /** The object of the API server, as the status handler updates it. */
  class StatusHandler {
    const store: PlanStore
    var cp: Object

    constructor (store: PlanStore, cp: Object)
      ensures this.store == store && this.cp == cp
    {
      this.store := store;
      this.cp := cp;
    }

    method OnChange(status: Status, w: World) returns (s: Status, err: Err)
      modifies store
      ensures Stage(s, store.cluster, err) == Changed(cp, status, old(store.cluster), w)
    {
      if cp.deleting {
        return status, Nil;
      }
      hide Processed;
      s, err := RunPass(store, cp, status, w);
      if err != Nil {
        if err == Waiting {
          s := s.(readyCondition := Unclear);
          if s.appliedSpec != Some(cp.spec) {
            s := s.(reconciled := Unclear);
          }
          return s, Nil;
        }
        if err == Skip {
          return;
        }
        s := s.(readyCondition := No, reconciled := No);
        return;
      }
      s := s.(readyCondition := Yes, stable := Yes);
      s := s.(appliedSpec := Some(cp.spec), reconciled := Yes);
    }

    method Sync(w: World) returns (err: Err)
      modifies this, store
      ensures Synced(cp, store.cluster, err) == Persisted(old(cp), old(store.cluster), w)
    {
      hide Changed;
      var original := cp.status;
      var newStatus;
      newStatus, err := OnChange(original, w);
      if err != Nil {
        newStatus := original;
      }
      if newStatus != original {
        if w.saved {
          cp := cp.(status := newStatus);
        } else if err == Nil {
          err := Other;
        }
      }
    }
  }
}
