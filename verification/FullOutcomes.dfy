/** How full reconciliation ends, when workers get their turn, and when the control plane counts as initialized. */
module FullOutcomes {
  import opened Model
  import opened PlanEntry
  import opened Store
  import opened Scheduler
  import opened ControlPlane
  import opened FullReconcile
  import opened Gating
  import opened InitNode
  import opened Process
  import opened Exclusivity
  import SnapshotCreate
  import SnapshotRestore
  import CertificateRotation
  import KeyRotation

  // ---------------------------------------------------------------- one pass of full reconciliation

  /** There is a control-plane machine that can be joined. */
  ghost predicate Joinable(c: Cluster) {
    exists m :: m in c.machines && m in c.secrets && !c.machines[m].deleting &&
                c.secrets[m].labels.controlPlane && c.secrets[m].annotations.joinURL != ""
  }

  lemma JoinableListed(c: Cluster)
    ensures Collected(c, JOINABLE_CONTROL_PLANE) != [] <==> Joinable(c)
  {
    hide Matches;
    CollectedHead(c, JOINABLE_CONTROL_PLANE);
    forall m | m in c.machines
      ensures Matches(c, JOINABLE_CONTROL_PLANE, m) <==>
              m in c.secrets && !c.machines[m].deleting && c.secrets[m].labels.controlPlane &&
              c.secrets[m].annotations.joinURL != ""
    {
      JoinableMeans(c, m);
    }
  }

  ghost predicate AllQuiet(tiers: seq<Ran>) {
    forall i :: 0 <= i < |tiers| ==> QuietErr(tiers[i].err)
  }

  ghost predicate SomeIgnored(tiers: seq<Ran>) {
    exists i :: 0 <= i < |tiers| && tiers[i].err == Ignore
  }

  /** The three server tiers went by, and then the control plane could be joined. */
  ghost predicate ServersUp(f: Full) {
    |f.tiers| >= 3 && AllQuiet(f.tiers[..3]) && Joinable(f.tiers[2].cluster)
  }

  /** The pass ends with nil exactly when all four tiers were reached and ended with nil. Workers get their turn only
      when the server tiers went by, the control plane can be joined, and it already counted as initialized and ready.
      It comes to count as such only in a pass that stops right after the server tiers, and never ceases to. */
  ghost predicate Ended(f: Full, s: Status) {
    var s' := f.stage.status;
    && (f.stage.err == Nil <==> |f.tiers| == 4 && forall i :: 0 <= i < 4 ==> f.tiers[i].err == Nil)
    && (|f.tiers| == 4 ==> ServersUp(f) && s.initialized && s.ready)
    && (s'.initialized != s.initialized || s'.ready != s.ready ==>
          && |f.tiers| == 3 && ServersUp(f) && f.stage.cluster == f.tiers[2].cluster && f.stage.err == Waiting
          && s'.initialized && s'.ready)
  }

  lemma MoreQuiet(done: seq<Ran>, t: Ran, seen: bool)
    requires AllQuiet(done) && (seen <==> SomeIgnored(done))
    ensures QuietErr(t.err) ==> AllQuiet(done + [t])
    ensures IgnoreErrors(seen, t.err).err == Nil <==> QuietErr(t.err)
    ensures IgnoreErrors(seen, t.err).seen <==> SomeIgnored(done + [t])
    ensures (done + [t])[..|done|] == done && (done + [t])[|done|] == t
  {
    var all := done + [t];
    assert forall i :: 0 <= i < |done| ==> all[i] == done[i];
    if SomeIgnored(done) {
      var i :| 0 <= i < |done| && done[i].err == Ignore;
      assert all[i].err == Ignore;
    }
    if t.err == Ignore { assert all[|done|].err == Ignore; }
  }

  lemma NilMeans(tiers: seq<Ran>)
    requires AllQuiet(tiers)
    ensures !SomeIgnored(tiers) <==> forall i :: 0 <= i < |tiers| ==> tiers[i].err == Nil
  {
  }

  lemma AvailableEnds(cp: Object, status: Status, c: Cluster, limits: Limits, seen: bool, w: World, done: seq<Ran>)
    requires |done| == 3 && AllQuiet(done) && (seen <==> SomeIgnored(done)) && c == done[2].cluster
    ensures Ended(Available(cp, status, c, limits, seen, w, done), status)
  {
    hide Reconciled, Matches, SettingsOf, Joinable, SomeIgnored, QuietErr, IgnoreErrors;
    JoinableListed(c);
    TierListed(c, IS_ONLY_WORKER);
    var t := RanOf(c, WorkerTier(limits), SettingsOf(cp, w));
    MoreQuiet(done, t, seen);
    if QuietErr(t.err) {
      NilMeans(done + [t]);
    } else {
      LoudIsNotNil(t.err, seen);
    }
    assert done[..3] == done;
  }

  lemma LoudIsNotNil(err: Err, seen: bool)
    requires !QuietErr(err)
    ensures err != Nil && IgnoreErrors(seen, err).err == err
  {
  }

  lemma StopsEarly(f: Full, status: Status)
    requires |f.tiers| < 4 && f.stage.err != Nil
    requires f.stage.status.initialized == status.initialized && f.stage.status.ready == status.ready
    ensures Ended(f, status)
  {
  }

  lemma ControlPlanesEnds(cp: Object, status: Status, c: Cluster, limits: Limits, url: string, seen: bool, w: World,
                          done: seq<Ran>)
    requires |done| == 2 && AllQuiet(done) && (seen <==> SomeIgnored(done))
    ensures Ended(ControlPlanes(cp, status, c, limits, url, seen, w, done), status)
  {
    hide Reconciled, Matches, SettingsOf, Available, SomeIgnored, QuietErr, IgnoreErrors, Ended, AllQuiet;
    TierListed(c, Filter.ControlPlane);
    var t := RanOf(c, ControlPlaneTier(url, limits), SettingsOf(cp, w));
    MoreQuiet(done, t, seen);
    if QuietErr(t.err) {
      AvailableEnds(cp, status, t.cluster, limits, IgnoreErrors(seen, t.err).seen, w, done + [t]);
    } else {
      StopsEarly(ControlPlanes(cp, status, c, limits, url, seen, w, done), status);
    }
  }

  lemma EtcdsEnds(cp: Object, status: Status, c: Cluster, limits: Limits, url: string, seen: bool, w: World,
                  done: seq<Ran>)
    requires |done| == 1 && AllQuiet(done) && (seen <==> SomeIgnored(done))
    ensures Ended(Etcds(cp, status, c, limits, url, seen, w, done), status)
  {
    hide Reconciled, Matches, SettingsOf, ControlPlanes, SomeIgnored, QuietErr, IgnoreErrors, Ended, AllQuiet;
    TierListed(c, Etcd);
    var t := RanOf(c, EtcdTier(url, limits.controlPlaneDrain), SettingsOf(cp, w));
    MoreQuiet(done, t, seen);
    if QuietErr(t.err) {
      ControlPlanesEnds(cp, status, t.cluster, limits, url, IgnoreErrors(seen, t.err).seen, w, done + [t]);
    } else {
      StopsEarly(Etcds(cp, status, c, limits, url, seen, w, done), status);
    }
  }

  lemma JoiningEnds(cp: Object, status: Status, c: Cluster, limits: Limits, elected: string, seen: bool, w: World,
                    done: seq<Ran>)
    requires |done| == 1 && AllQuiet(done) && (seen <==> SomeIgnored(done))
    ensures Ended(Joining(cp, status, c, limits, elected, seen, w, done), status)
  {
    hide Etcds, FoundInitNode, Ended, AllQuiet, SomeIgnored;
    var f := FoundInitNode(c, cp.fixedInitNode);
    if elected != "" {
      EtcdsEnds(cp, status, c, limits, elected, seen, w, done);
    } else if f.err == Nil && f.joinURL != "" {
      EtcdsEnds(cp, status, f.cluster, limits, f.joinURL, seen, w, done);
    } else {
      StopsEarly(Joining(cp, status, c, limits, elected, seen, w, done), status);
    }
  }

  lemma FullEnds(cp: Object, status: Status, c: Cluster, ignore: bool, w: World)
    ensures Ended(FullyReconciled(cp, status, c, ignore, w), status)
  {
    hide Reconciled, Elected, Joining, Matches, SettingsOf, SomeIgnored, QuietErr, IgnoreErrors, Ended, AllQuiet,
         LimitsOf;
    var e := Elected(c, cp.fixedInitNode, true);
    var f := FullyReconciled(cp, status, c, ignore, w);
    if e.err == Nil {
      TierListed(e.cluster, Etcd);
      var limits := LimitsOf(cp.spec.strategy, ignore);
      var t := RanOf(e.cluster, BootstrapTier(limits.controlPlaneDrain), SettingsOf(cp, w));
      NoneYet();
      MoreQuiet([], t, false);
      assert [] + [t] == [t];
      if QuietErr(t.err) {
        JoiningEnds(cp, status.(bootstrapped := Yes), t.cluster, limits, e.joinURL, IgnoreErrors(false, t.err).seen, w,
                    [t]);
        EndedSame(f, status.(bootstrapped := Yes), status);
      } else {
        StopsEarly(f, status);
      }
    } else {
      StopsEarly(f, status);
    }
  }

  lemma NoneYet()
    ensures AllQuiet([]) && !SomeIgnored([])
  {
  }

  lemma EndedSame(f: Full, s: Status, s': Status)
    requires Ended(f, s) && s'.initialized == s.initialized && s'.ready == s.ready
    ensures Ended(f, s')
  {
    hide ServersUp;
  }

  // ---------------------------------------------------------------- what is persisted

  /** A persisted pass in which the control plane comes to count as initialized is one of full reconciliation, ordinary
      or after a restore, that stopped right after the server tiers: these went by, and a control-plane machine can be
      joined. */
  ghost predicate CameUp(cp: Object, c: Cluster, w: World, ignore: bool) {
    var f, p := FullyReconciled(cp, cp.status, c, ignore, w), Persisted(cp, c, w);
    p.cluster == f.stage.cluster && |f.tiers| == 3 && ServersUp(f) && Joinable(p.cluster)
  }

  lemma RestoreInitializes(cp: Object, c: Cluster, w: World)
    ensures var r, f := SnapshotRestore.RestoreStage(cp, cp.status, c, w), FullyReconciled(cp, cp.status, c, true, w);
      r.status.initialized && !cp.status.initialized ==> r == f.stage
  {
    hide SnapshotRestore.ServicesStopped, SnapshotRestore.Restored, SnapshotRestore.PodsCleaned,
         SnapshotRestore.NodesCleaned, FullyReconciled;
  }

  lemma StageInitializes(cp: Object, c: Cluster, w: World) returns (ignore: bool)
    ensures var r, f := Acting(cp, c, w), FullyReconciled(cp, cp.status, c, ignore, w);
      r.status.initialized && !cp.status.initialized ==> r == f.stage
  {
    hide SnapshotCreate.Created, SnapshotRestore.RestoreStage, CertificateRotation.RotationStage, KeyRotation.KeyStage,
         FullyReconciled, EtcdReplaced;
    var s := cp.status;
    CreatedFrame(cp, s, c, w);
    RestoreInitializes(cp, c, w);
    RotationFrame(cp, s, c, w);
    KeyFrame(cp, s, c, w);
    ignore := Acting(cp, c, w) == SnapshotRestore.RestoreStage(cp, s, c, w);
  }

  lemma InitializedIsEarned(cp: Object, c: Cluster, w: World) returns (ignore: bool)
    requires !cp.status.initialized
    ensures Persisted(cp, c, w).cp.status.initialized ==> CameUp(cp, c, w, ignore)
  {
    hide Persisted, Acting, Planned, FullyReconciled, Joinable, AllQuiet;
    PersistedMeans(cp, c, w);
    ignore := StageInitializes(cp, c, w);
    FullEnds(cp, cp.status, c, ignore, w);
  }
}
