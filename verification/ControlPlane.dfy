/** The control-plane object, its persisted status, and what a planner pass is told from outside. */
module ControlPlane {
  import opened Model
  import opened PlanEntry
  import opened Store
  import opened Scheduler
  import Join

  // ---------------------------------------------------------------- the object

  datatype Cond = Yes | No | Unclear

  datatype Restore = Restore(name: string, generation: int, config: string)

  datatype Rotation = Rotation(generation: int, services: seq<string>)

  /** How ordinary updates are rolled out. */
  datatype Strategy = Strategy(
    controlPlaneConcurrency: Concurrency, workerConcurrency: Concurrency,
    controlPlaneDrain: DrainOptions, workerDrain: DrainOptions)

  datatype Spec = Spec(
    restore: Option<Restore>, create: Option<int>, certificates: Option<Rotation>, keys: Option<int>,
    strategy: Strategy)

  /** The phases that snapshot creation and restore share. */
  datatype SnapshotPhase =
    | NoPhase | Started | Shutdown | Restoring | PodCleanup | InitialRestart | NodeCleanup | RestartCluster
    | Finished | Unsuccessful | Unheard(phase: string)

  datatype KeyPhase =
    | NoKeyPhase | Prepare | PostPrepareRestart | Rotate | PostRotateRestart | Reencrypt | PostReencryptRestart
    | KeysDone | KeysFailed | UnheardKeys(phase: string)

  datatype Status = Status(
    initialized: bool, ready: bool,
    readyCondition: Cond, bootstrapped: Cond, stable: Cond, reconciled: Cond,
    agentConnected: bool,
    configGeneration: int,
    certificateGeneration: int,
    restore: Option<Restore>, restorePhase: SnapshotPhase,
    create: Option<int>, createPhase: SnapshotPhase,
    keys: Option<int>, keyPhase: KeyPhase, keyLeader: string,
    appliedSpec: Option<Spec>)

  /** fixedInitNode is the label that names the machine to be the init node, or empty. */
  datatype Object = Object(spec: Spec, status: Status, fixedInitNode: string, deleting: bool)

  // ---------------------------------------------------------------- the outside

  /** What a plan is generated for. */
  datatype Purpose =
    | Desired
    | TakeSnapshot | ServiceStop | SnapshotRestore | RestoredPods | RestoredNodes
    | CertificatePlan
    | KeyCommand(command: KeyPhase) | KeyRestart(restart: KeyPhase, leaderStage: string)

  /** A stored snapshot object: where it lies and which version it records. */
  datatype VersionRecord = NotRecorded | Unreadable | Older | Newer

  datatype Snapshot = Snapshot(s3: bool, machineId: Option<string>, version: VersionRecord)

  /** How far a pass gets before the cluster plan is loaded. */
  datatype Preamble = VersionError | WaitingForOthers | LookupError | ClusterDeleting | LoadError | PlanLoaded

  /** Everything a pass is told or that happens to its calls: generated plans, lookups, failing calls. */
  datatype World = World(
    desired: Generator,
    render: (Purpose, string, Labels, Annotations, string) -> Rendered,
    crc: Join.Crc,
    statusFails: string -> bool,
    preamble: Preamble,
    resetCluster: bool,
    forceDelete: bool,
    tokens: bool,
    pause: bool,
    unpause: bool,
    paused: bool,
    snapshot: Try<Option<Snapshot>>,
    oldVersion: bool,
    keysSupported: Try<bool>,
    stageOf: string -> Option<string>,
    saved: bool)

  /** What a stage of the planner leaves: the status, the cluster and the error. */
  datatype Stage = Stage(status: Status, cluster: Cluster, err: Err)

  function SettingsOf(cp: Object, w: World): Settings {
    Settings(cp.status.agentConnected, w.desired, w.crc, w.statusFails)
  }

  const NO_DRAIN := DrainOptions(false, [], [], "")

  // ---------------------------------------------------------------- giving plans to machines

  /** A plan to give: what for, the server to join, and the two limits as assignAndCheckPlan receives them. */
  datatype Job = Job(purpose: Purpose, url: string, threshold: int, retries: int)

  datatype Given = Given(cluster: Cluster, err: Err)

  function RenderedFor(c: Cluster, m: string, purpose: Purpose, url: string, w: World): Rendered
    requires m in c.secrets
  {
    var s := c.secrets[m];
    if purpose == Desired then w.desired(m, s.labels, s.annotations, url)
    else w.render(purpose, m, s.labels, s.annotations, url)
  }

  /** The plan is generated, assigned unless it is there already, and checked. */
  function Assigned(c: Cluster, m: string, job: Job, w: World): (r: Given)
    requires m in c.secrets
    ensures OnlyTouches(c, r.cluster, {m})
  {
    match RenderedFor(c, m, job.purpose, job.url, w)
    case RenderFails(ignorable) => Given(c, RenderErr(ignorable))
    case Rendered(plan, joinedTo) =>
      var a := PlanAssignment(c, m, NodeOf(c, m), plan, joinedTo, job.threshold, job.retries);
      Given(a.cluster, a.err)
  }

  /** The machine holds the plan of the job, and it is applied, healthy and not failed. */
  predicate Completed(c: Cluster, m: string, job: Job, w: World) {
    && m in c.secrets && m in c.nodes
    && var r := RenderedFor(c, m, job.purpose, job.url, w);
       r.Rendered? && c.nodes[m].plan == r.plan && !c.nodes[m].failed && c.nodes[m].inSync && c.nodes[m].healthy
  }

  /** An assignment answers nil exactly for a machine that has completed the job, and then changes nothing. */
  lemma AssignedNil(c: Cluster, m: string, job: Job, w: World)
    requires m in c.secrets
    ensures Assigned(c, m, job, w).err == Nil <==> Completed(c, m, job, w)
    ensures Assigned(c, m, job, w).err == Nil ==> Assigned(c, m, job, w).cluster == c
  {
    hide PlanUpdate;
  }

  /** An assignment leaves the secret alone, or gives it a plan with the limits of the job. */
  predicate LimitedTo(s: Secret, s': Secret, maxFailures: int, failureThreshold: int) {
    s'.plan != s.plan ==>
      s'.maxFailures == Limit(maxFailures) && s'.failureThreshold == Limit(failureThreshold)
  }

  lemma AssignedLimits(c: Cluster, m: string, job: Job, w: World, x: string)
    requires m in c.secrets && x in c.secrets
    ensures var c' := Assigned(c, m, job, w).cluster;
      x in c'.secrets && LimitedTo(c.secrets[x], c'.secrets[x], job.threshold, job.retries)
  {
    hide SecretToNode, RenderedFor;
  }

  lemma RenderFailsKeeps(c: Cluster, m: string, job: Job, w: World)
    requires m in c.secrets && RenderedFor(c, m, job.purpose, job.url, w).RenderFails?
    ensures Assigned(c, m, job, w).cluster == c
  {
  }

  method Assign(store: PlanStore, m: string, job: Job, w: World) returns (err: Err)
    requires m in store.cluster.secrets
    modifies store
    ensures Given(store.cluster, err) == Assigned(old(store.cluster), m, job, w)
  {
    hide PlanAssignment;
    var s := store.cluster.secrets[m];
    var rendered := if job.purpose == Desired then w.desired(m, s.labels, s.annotations, job.url)
                    else w.render(job.purpose, m, s.labels, s.annotations, job.url);
    if rendered.RenderFails? {
      return RenderErr(rendered.ignorable);
    }
    var node;
    err, node := store.AssignAndCheckPlan(m, NodeOf(store.cluster, m), rendered.plan, rendered.joinedTo,
                                          job.threshold, job.retries);
  }

  // ---------------------------------------------------------------- giving one plan after the other

  /** The machines are given the plan one by one; the first one that has not completed it ends the row. */
  ghost function Rolled(c: Cluster, names: seq<string>, job: Job, w: World): (r: Given)
    requires Listed(c, names)
    ensures r.err == Nil ==> r.cluster == c
  {
    if names == [] then Given(c, Nil) else
    var first := Assigned(c, names[0], job, w);
    AssignedNil(c, names[0], job, w);
    if first.err != Nil then first else Rolled(c, names[1..], job, w)
  }

  ghost predicate AllCompleted(c: Cluster, names: seq<string>, job: Job, w: World) {
    forall m :: m in names ==> Completed(c, m, job, w)
  }

  /** The row ends without an error exactly when every machine has completed the job. Otherwise only the first machine
      that has not is touched. */
  lemma {:induction false} RolledMeans(c: Cluster, names: seq<string>, job: Job, w: World) returns (k: nat)
    requires Listed(c, names)
    ensures k <= |names|
    ensures AllCompleted(c, names[..k], job, w)
    ensures var r := Rolled(c, names, job, w);
      && (r.err == Nil <==> k == |names|)
      && (k < |names| ==> !Completed(c, names[k], job, w) && r == Assigned(c, names[k], job, w))
  {
    hide Completed, Assigned;
    if names == [] {
      return 0;
    }
    AssignedNil(c, names[0], job, w);
    if !Completed(c, names[0], job, w) {
      return 0;
    }
    var j := RolledMeans(c, names[1..], job, w);
    k := j + 1;
    assert names[..k] == [names[0]] + names[1..][..j];
    forall m | m in names[..k] ensures Completed(c, m, job, w) {
      assert m == names[0] || m in names[1..][..j];
    }
  }

  /** The row is complete exactly when it ends without an error. */
  lemma RolledNil(c: Cluster, names: seq<string>, job: Job, w: World)
    requires Listed(c, names)
    ensures Rolled(c, names, job, w).err == Nil <==> AllCompleted(c, names, job, w)
  {
    hide Completed, Assigned, Rolled;
    var k := RolledMeans(c, names, job, w);
    if k == |names| {
      assert names[..k] == names;
    } else {
      assert names[k] in names;
    }
  }

  // ---------------------------------------------------------------- listing machines by role

  /** These filters only select machines that have a secret. */
  predicate RoleFilter(f: Filter) {
    match f
    case And(l, r) => RoleFilter(l) || RoleFilter(r)
    case Or(l, r) => RoleFilter(l) && RoleFilter(r)
    case Not(_) => false
    case Etcd => true
    case ControlPlane => true
    case Worker => true
    case InitNode => true
    case _ => false
  }

  lemma {:induction false} RoleNeedsSecret(c: Cluster, f: Filter, m: string)
    requires RoleFilter(f) && Matches(c, f, m)
    ensures m in c.secrets
    decreases f
  {
    match f
    case And(l, r) => if RoleFilter(l) { RoleNeedsSecret(c, l, m); } else { RoleNeedsSecret(c, r, m); }
    case Or(l, r) => if Matches(c, l, m) { RoleNeedsSecret(c, l, m); } else { RoleNeedsSecret(c, r, m); }
    case _ =>
  }

  lemma RolesListed(c: Cluster, f: Filter)
    requires RoleFilter(f)
    ensures Listed(c, Collected(c, f))
  {
    forall m | m in Collected(c, f) ensures m in c.secrets {
      RoleNeedsSecret(c, f, m);
    }
  }
}
