/** Runs in which the persisted passes of the planner alternate with the other parties. */
module PassRuns {
  import opened Model
  import opened Store
  import opened ControlPlane
  import opened Process
  import opened Exclusivity
  import Budget
  import SnapshotCreate
  import SnapshotRestore
  import CertificateRotation
  import KeyRotation

  /** A pass of the planner with whatever control plane and outside it finds; a step of one of the other parties; or a
      change of the roster, of labels or of annotations by anybody else. */
  datatype Event = Pass(cp: Object, w: World) | Others(e: Budget.Event) | Changes

  /** c goes to c' by the event; a pass whose secrets do not all load does nothing. */
  ghost predicate Step(c: Cluster, e: Event, c': Cluster) {
    match e
    case Pass(cp, w) =>
      var loaded := Budget.Refreshed(c);
      c' == if Loaded(loaded) then Persisted(cp, loaded, w).cluster else c
    case Others(o) => !o.Pass? && Budget.Step(c, o, c')
    case Changes => true
  }

  ghost predicate Run(cs: seq<Cluster>, es: seq<Event>) {
    |cs| == |es| + 1 && forall i :: 0 <= i < |es| ==> Step(cs[i], es[i], cs[i + 1])
  }

  lemma RunPrefix(cs: seq<Cluster>, es: seq<Event>)
    requires Run(cs, es) && es != []
    ensures var n := |es| - 1;
      Run(cs[..|es|], es[..n]) && cs[..|es|][n] == cs[n] && Step(cs[n], es[n], cs[|es|])
  {
    hide Step;
    var n := |es| - 1;
    assert Step(cs[n], es[n], cs[n + 1]);
    var cs', es' := cs[..|es|], es[..n];
    forall i | 0 <= i < n ensures Step(cs'[i], es'[i], cs'[i + 1]) {
      assert cs'[i] == cs[i] && cs'[i + 1] == cs[i + 1] && es'[i] == es[i];
    }
  }

  /** None of the four operations has anything to do. */
  ghost predicate OperationsRest(cp: Object, c: Cluster, w: World)
  {
    && SnapshotCreate.Created(cp, cp.status, c, w).err == Nil
    && SnapshotRestore.RestoreStage(cp, cp.status, c, w).err == Nil
    && CertificateRotation.RotationStage(cp, cp.status, c, w).err == Nil
    && KeyRotation.KeyStage(cp, cp.status, c, w).err == Nil
  }

  /** Then a pass that gets to its stages is an ordinary one. */
  lemma RestingIsOrdinary(cp: Object, c: Cluster, w: World)
    requires OperationsRest(cp, c, w)
    ensures Persisted(cp, c, w).cluster == if Planned(cp, c, w) then Ordinary(cp, cp.status, c, w).cluster else c
  {
    hide SnapshotCreate.Created, SnapshotRestore.RestoreStage, CertificateRotation.RotationStage, KeyRotation.KeyStage,
         Ordinary, Persisted, Planned;
    PersistedMeans(cp, c, w);
  }
}
