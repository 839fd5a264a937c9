/** Persisted restore runs. */
module RestoreRuns {
  import opened Model
  import opened PlanEntry
  import opened Store
  import opened Scheduler
  import opened InitNode
  import opened ControlPlane
  import opened Process
  import opened Exclusivity
  import opened Runs
  import FullReconcile
  import SnapshotCreate
  import opened SnapshotRestore
  import CertificateRotation
  import KeyRotation

  // ---------------------------------------------------------------- what a pass may do to the restore state

  predicate Asked(spec: Spec) {
    spec.restore.Some? && spec.restore.value.name != ""
  }

  predicate Advances(a: SnapshotPhase, b: SnapshotPhase) {
    || (a == Started && b == Shutdown)
    || (a == Shutdown && b == Restoring)
    || (a == Restoring && b == PodCleanup)
    || (a == PodCleanup && b == InitialRestart)
    || (a == InitialRestart && b == NodeCleanup)
    || (a == NodeCleanup && b == RestartCluster)
    || (a == RestartCluster && b == Finished)
  }

  predicate RestorePhase(p: SnapshotPhase) {
    p == Started || p == Shutdown || p == Restoring || p == PodCleanup || p == InitialRestart || p == NodeCleanup ||
    p == RestartCluster || p == Finished
  }

  function Restored1(s: Status, s': Status): nat {
    if s.restorePhase == Restoring && s'.restorePhase == PodCleanup then 1 else 0
  }

  /** The phase is kept, or advances exactly one place for the restore asked for, or is reset when none is asked for, or
      starts again for a restore that is new or whose phase is none of the known ones. The configuration generation
      grows by one exactly when the snapshot has been restored. */
  predicate RestoreMove(spec: Spec, s: Status, s': Status) {
    && (|| (s'.restore == s.restore && s'.restorePhase == s.restorePhase)
        || (Asked(spec) && s.restore == s'.restore == spec.restore && Advances(s.restorePhase, s'.restorePhase))
        || (!Asked(spec) && s'.restore == None && s'.restorePhase == NoPhase)
        || (Asked(spec) && s'.restore == spec.restore && s'.restorePhase == Started &&
            (s.restore != spec.restore || !RestorePhase(s.restorePhase))))
    && s'.configGeneration == s.configGeneration + Restored1(s, s')
  }

  predicate Down(p: SnapshotPhase) {
    p == Shutdown || p == Restoring || p == PodCleanup
  }

  /** While the cluster is shut down for a restore, the control plane is neither initialized nor ready. */
  predicate DownIsUninitialized(s: Status) {
    Down(s.restorePhase) ==> !s.initialized && !s.ready
  }

  lemma RestartedMoves(cp: Object, s: Status, c: Cluster, restore: Restore, next: SnapshotPhase, w: World)
    requires s == cp.status && cp.spec.restore == Some(restore) == s.restore && restore.name != ""
    requires Advances(s.restorePhase, next) && !Down(s.restorePhase) && !Down(next)
    ensures var b := Restarted(cp, s, c, restore, next, w);
      (b.err == Nil || b.err == Waiting ==> RestoreMove(cp.spec, s, b.status)) && DownIsUninitialized(b.status)
  {
    hide FullReconcile.FullyReconciled;
    FullFrame(cp, s, c, true, w);
  }

  lemma RestorePhaseMoves(cp: Object, c: Cluster, restore: Restore, snapshot: Option<Snapshot>, w: World)
    requires DownIsUninitialized(cp.status) && Asked(cp.spec)
    requires cp.spec.restore == Some(restore) == cp.status.restore
    ensures var b := InPhase(cp, cp.status, c, restore, snapshot, w);
      b.err == Nil || b.err == Waiting ==> RestoreMove(cp.spec, cp.status, b.status) && DownIsUninitialized(b.status)
  {
    hide ServicesStopped, SnapshotRestore.Restored, PodsCleaned, NodesCleaned, Restarted;
    var s := cp.status;
    if s.restorePhase == InitialRestart { RestartedMoves(cp, s, c, restore, NodeCleanup, w); }
    if s.restorePhase == RestartCluster { RestartedMoves(cp, s, c, restore, Finished, w); }
  }

  lemma RestoreStageMoves(cp: Object, c: Cluster, w: World)
    requires DownIsUninitialized(cp.status)
    ensures var b := RestoreStage(cp, cp.status, c, w);
      b.err == Nil || b.err == Waiting ==> RestoreMove(cp.spec, cp.status, b.status) && DownIsUninitialized(b.status)
  {
    hide InPhase;
    if Asked(cp.spec) && cp.status.restore == cp.spec.restore && w.snapshot.Good? {
      RestorePhaseMoves(cp, c, cp.spec.restore.value, w.snapshot.value, w);
    }
  }

  /** The stages other than the restore leave its state alone; ordinary reconciliation is only reached when no restore
      is under way. */
  lemma OtherStagesKeep(cp: Object, c: Cluster, w: World)
    ensures var s, s' := cp.status, Acting(cp, c, w).status;
      || (SnapshotCreate.Created(cp, s, c, w).err == Nil && RestoreStage(cp, s, c, w).err != Nil &&
          Acting(cp, c, w) == RestoreStage(cp, s, c, w))
      || (s'.restore == s.restore && s'.restorePhase == s.restorePhase && s'.configGeneration == s.configGeneration &&
          (Down(s.restorePhase) ==> s'.initialized == s.initialized && s'.ready == s.ready))
  {
    hide SnapshotCreate.Created, RestoreStage, CertificateRotation.RotationStage, KeyRotation.KeyStage,
         FullReconcile.FullyReconciled, EtcdReplaced;
    var s := cp.status;
    CreatedFrame(cp, s, c, w);
    RestoreNil(cp, s, c, w);
    RotationFrame(cp, s, c, w);
    KeyFrame(cp, s, c, w);
    FullFrame(cp, s, c, false, w);
  }

  // ---------------------------------------------------------------- runs

  /** Moves are about the progress only. */
  lemma ProgressMoves(spec: Spec, s: Status, a: Status, b: Status)
    requires SameProgress(a, b)
    ensures RestoreMove(spec, s, a) ==> RestoreMove(spec, s, b)
    ensures DownIsUninitialized(a) ==> DownIsUninitialized(b)
    ensures RestoreMove(spec, s, b) ==> b.configGeneration == s.configGeneration + Restored1(s, b)
    ensures RestoreMove(spec, s, s) && DownIsUninitialized(s.(initialized := false, ready := false))
    ensures RestoreMove(spec, s, s.(initialized := false, ready := false))
  {
  }

  lemma ActingMoves(cp: Object, c: Cluster, w: World)
    requires DownIsUninitialized(cp.status)
    ensures var d := Acting(cp, c, w);
      d.err == Nil || d.err == Waiting ==> RestoreMove(cp.spec, cp.status, d.status) && DownIsUninitialized(d.status)
  {
    hide Acting, RestoreStage, SnapshotCreate.Created;
    OtherStagesKeep(cp, c, w);
    RestoreStageMoves(cp, c, w);
  }

  lemma PassMoves(cp: Object, c: Cluster, w: World)
    requires DownIsUninitialized(cp.status)
    ensures var s, s' := cp.status, Persisted(cp, c, w).cp.status;
      RestoreMove(cp.spec, s, s') && DownIsUninitialized(s') &&
      s'.configGeneration == s.configGeneration + Restored1(s, s')
  {
    hide Persisted, Acting, Planned, RestoreMove, DownIsUninitialized, SameProgress, Restored1;
    var s, s' := cp.status, Persisted(cp, c, w).cp.status;
    PersistedMeans(cp, c, w);
    ActingMoves(cp, c, w);
    ProgressMoves(cp.spec, s, s, s) by { SameIsProgress(s); }
    var lost := s.(initialized := false, ready := false);
    if SameProgress(s, s') { ProgressMoves(cp.spec, s, s, s'); }
    if SameProgress(Acting(cp, c, w).status, s') { ProgressMoves(cp.spec, s, Acting(cp, c, w).status, s'); }
    if SameProgress(lost, s') { ProgressMoves(cp.spec, s, lost, s'); }
  }

  lemma SameIsProgress(s: Status)
    ensures SameProgress(s, s)
  {
  }

  lemma StepMoves(a: Moment, e: Event, b: Moment)
    requires Step(a, e, b) && DownIsUninitialized(a.cp.status)
    ensures DownIsUninitialized(b.cp.status)
    ensures e.Pass? ==> RestoreMove(a.cp.spec, a.cp.status, b.cp.status)
    ensures b.cp.status.configGeneration == a.cp.status.configGeneration + Restored1(a.cp.status, b.cp.status)
  {
    if e.Pass? {
      PassMoves(a.cp, a.cluster, e.w);
    }
  }

  /** In every run, whatever happens in between, the control plane is neither initialized nor ready in the phases in
      which the cluster is down. */
  lemma {:induction false} AlwaysUninitializedWhileDown(ms: seq<Moment>, es: seq<Event>, i: nat)
    requires Run(ms, es) && i < |ms| && DownIsUninitialized(ms[0].cp.status)
    ensures DownIsUninitialized(ms[i].cp.status)
  {
    hide Step;
    if i > 0 {
      AlwaysUninitializedWhileDown(ms, es, i - 1);
      assert Step(ms[i - 1], es[i - 1], ms[i - 1 + 1]);
      StepMoves(ms[i - 1], es[i - 1], ms[i]);
    }
  }

  /** Every pass of every run moves the restore by the rules. */
  lemma EveryPassMoves(ms: seq<Moment>, es: seq<Event>, i: nat)
    requires Run(ms, es) && i < |es| && es[i].Pass? && DownIsUninitialized(ms[0].cp.status)
    ensures RestoreMove(ms[i].cp.spec, ms[i].cp.status, ms[i + 1].cp.status)
  {
    hide Step, RestoreMove;
    AlwaysUninitializedWhileDown(ms, es, i);
    assert Step(ms[i], es[i], ms[i + 1]);
    StepMoves(ms[i], es[i], ms[i + 1]);
  }

  function Restorations(ms: seq<Moment>): nat {
    if |ms| < 2 then 0
    else Restorations(ms[..|ms| - 1]) + Restored1(ms[|ms| - 2].cp.status, ms[|ms| - 1].cp.status)
  }

  /** Over every run the configuration generation grows by the number of restorations, so every restoration restarts the
      nodes exactly once. */
  lemma {:induction false} GenerationCountsRestorations(ms: seq<Moment>, es: seq<Event>)
    requires Run(ms, es) && DownIsUninitialized(ms[0].cp.status)
    ensures ms[|es|].cp.status.configGeneration == ms[0].cp.status.configGeneration + Restorations(ms)
    decreases |es|
  {
    hide Step, Restored1;
    if es != [] {
      var n := |es| - 1;
      RunPrefix(ms, es);
      assert ms[..|es|][n] == ms[n] && ms[..|ms| - 1] == ms[..|es|];
      GenerationCountsRestorations(ms[..|es|], es[..n]);
      AlwaysUninitializedWhileDown(ms, es, n);
      StepMoves(ms[n], es[n], ms[n + 1]);
    }
  }
}
