/** The order of certificate rotation, and its wave through the machines over whole runs. */
module CertificateRuns {
  import opened Model
  import opened PlanEntry
  import opened Store
  import opened Scheduler
  import opened InitNode
  import opened ControlPlane
  import opened Process
  import opened Exclusivity
  import opened CertificateRotation
  import opened PassRuns
  import InitNodeRuns
  import SnapshotCreate
  import SnapshotRestore
  import FullReconcile
  import KeyRotation
  import PlanSecret
  import MachineDrain
  import Budget
  import Names

  // ---------------------------------------------------------------- the order

  /** etcd machines first, those without the control-plane role before those with it; then the control plane, then the
      workers. */
  function Rank(c: Cluster, m: string): nat {
    if Matches(c, Etcd, m) then (if Matches(c, Filter.ControlPlane, m) then 1 else 0)
    else if Matches(c, Filter.ControlPlane, m) then 2 else 3
  }

  predicate HasRole(c: Cluster, m: string) {
    Matches(c, Etcd, m) || Matches(c, Filter.ControlPlane, m) || Matches(c, Worker, m)
  }

  predicate Before(c: Cluster, a: string, b: string) {
    Rank(c, a) < Rank(c, b) || (Rank(c, a) == Rank(c, b) && Names.Less(a, b))
  }

  /** xs lists the machines of one rank in name order. */
  ghost predicate Segment(c: Cluster, xs: seq<string>, rank: nat) {
    && Names.Sorted(xs)
    && forall m :: m in xs <==> m in c.machines && HasRole(c, m) && Rank(c, m) == rank
  }

  lemma SegmentsOf(c: Cluster)
    ensures Segment(c, Collected(c, IS_ONLY_ETCD), 0)
    ensures Segment(c, Collected(c, IS_CONTROL_PLANE_AND_ETCD), 1)
    ensures Segment(c, Collected(c, IS_ONLY_CONTROL_PLANE), 2)
    ensures Segment(c, Collected(c, IS_ONLY_WORKER), 3)
  {
    forall m
      ensures Matches(c, IS_ONLY_ETCD, m) <==> HasRole(c, m) && Rank(c, m) == 0
      ensures Matches(c, IS_CONTROL_PLANE_AND_ETCD, m) <==> HasRole(c, m) && Rank(c, m) == 1
      ensures Matches(c, IS_ONLY_CONTROL_PLANE, m) <==> HasRole(c, m) && Rank(c, m) == 2
      ensures Matches(c, IS_ONLY_WORKER, m) <==> HasRole(c, m) && Rank(c, m) == 3
    {
      RolesMean(c, m);
    }
  }

  lemma RolesMean(c: Cluster, m: string)
    ensures var etcd, controlPlane := Matches(c, Etcd, m), Matches(c, Filter.ControlPlane, m);
      && (Matches(c, IS_ONLY_ETCD, m) <==> etcd && !controlPlane)
      && (Matches(c, IS_CONTROL_PLANE_AND_ETCD, m) <==> etcd && controlPlane)
      && (Matches(c, IS_ONLY_CONTROL_PLANE, m) <==> !etcd && controlPlane)
      && (Matches(c, IS_ONLY_WORKER, m) <==> !etcd && !controlPlane && Matches(c, Worker, m))
  {
    hide Matches;
    var neither := And(Not(Etcd), Not(Filter.ControlPlane));
    NotMeans(c, Etcd, m);
    NotMeans(c, Filter.ControlPlane, m);
    AndMeans(c, Etcd, Not(Filter.ControlPlane), m);
    AndMeans(c, Filter.ControlPlane, Etcd, m);
    AndMeans(c, Not(Etcd), Filter.ControlPlane, m);
    AndMeans(c, Not(Etcd), Not(Filter.ControlPlane), m);
    AndMeans(c, neither, Worker, m);
    assert IS_ONLY_WORKER == And(neither, Worker);
  }

  /** Lists in order, of which the second only holds later machines, make one list in order. */
  lemma InOrderConcat(c: Cluster, xs: seq<string>, ys: seq<string>)
    requires forall i, j :: 0 <= i < j < |xs| ==> Before(c, xs[i], xs[j])
    requires forall i, j :: 0 <= i < j < |ys| ==> Before(c, ys[i], ys[j])
    requires forall x, y :: x in xs && y in ys ==> Rank(c, x) < Rank(c, y)
    ensures forall i, j :: 0 <= i < j < |xs + ys| ==> Before(c, (xs + ys)[i], (xs + ys)[j])
    ensures forall m :: m in xs + ys <==> m in xs || m in ys
  {
    hide Rank;
    var all := xs + ys;
    forall i, j | 0 <= i < j < |all| ensures Before(c, all[i], all[j]) {
      if i < |xs| <= j {
        assert xs[i] in xs && ys[j - |xs|] in ys;
      } else if |xs| <= i {
        assert all[i] == ys[i - |xs|] && all[j] == ys[j - |xs|];
      }
    }
  }

  /** The order of rotation lists every machine with a role exactly once, by rank, and by name within a rank. */
  lemma RotationOrderMeans(c: Cluster)
    ensures var order := RotationOrder(c);
      && Names.NoDuplicates(order)
      && (forall m :: m in order <==> m in c.machines && HasRole(c, m))
      && (forall i, j :: 0 <= i < j < |order| ==> Before(c, order[i], order[j]))
  {
    SegmentsOf(c);
    hide Matches, Rank, HasRole;
    var a, b := Collected(c, IS_ONLY_ETCD), Collected(c, IS_CONTROL_PLANE_AND_ETCD);
    var d, e := Collected(c, IS_ONLY_CONTROL_PLANE), Collected(c, IS_ONLY_WORKER);
    InOrderConcat(c, a, b);
    InOrderConcat(c, a + b, d);
    InOrderConcat(c, a + b + d, e);
    var order := RotationOrder(c);
    forall m ensures m in order <==> m in c.machines && HasRole(c, m) {
      RankBound(c, m);
    }
    forall i, j | 0 <= i < j < |order| ensures order[i] != order[j] {
      assert Before(c, order[i], order[j]);
      Names.LessIrreflexive(order[i]);
    }
  }

  lemma RankBound(c: Cluster, m: string)
    ensures Rank(c, m) <= 3
  {
  }

  // ---------------------------------------------------------------- the generation

  /** The recorded generation advances in a persisted pass only when every machine that the rotation applies to holds
      its rotation plan, applied, healthy and not failed, all in that one pass. */
  lemma GenerationMeansAllRotated(cp: Object, c: Cluster, w: World) returns (joinServer: string)
    ensures var s' := Persisted(cp, c, w).cp.status;
      s'.certificateGeneration != cp.status.certificateGeneration ==>
        && Due(cp) && s'.certificateGeneration == cp.spec.certificates.value.generation
        && AllCompleted(c, Wave(c, cp.spec.certificates.value.services), RotationJob(joinServer), w)
        && Persisted(cp, c, w).cluster == c
  {
    hide Persisted, Acting, RotationStage, Planned, Wave, AllCompleted;
    PersistedMeans(cp, c, w);
    OtherStagesKeepGeneration(cp, c, w);
    joinServer := StageGeneration(cp, cp.status, c, w);
  }

  lemma StageGeneration(cp: Object, s: Status, c: Cluster, w: World) returns (joinServer: string)
    ensures var r := RotationStage(cp, s, c, w);
      r.status.certificateGeneration != s.certificateGeneration ==>
        && Due(cp) && r.status.certificateGeneration == cp.spec.certificates.value.generation
        && AllCompleted(c, Wave(c, cp.spec.certificates.value.services), RotationJob(joinServer), w) && r.cluster == c
  {
    hide FoundInitNode, Wave, FirstFailsToRender, AllCompleted, Rolled, Matches;
    InitNodeRuns.FoundRelabels(c, cp.fixedInitNode);
    joinServer := FoundInitNode(c, cp.fixedInitNode).joinURL;
    if cp.spec.certificates.Some? {
      RolledNil(c, Wave(c, cp.spec.certificates.value.services), RotationJob(joinServer), w);
    }
  }

  lemma OtherStagesKeepGeneration(cp: Object, c: Cluster, w: World)
    ensures var s := cp.status;
      Acting(cp, c, w) == RotationStage(cp, s, c, w) ||
      Acting(cp, c, w).status.certificateGeneration == s.certificateGeneration
  {
    hide SnapshotCreate.Created, SnapshotRestore.RestoreStage, RotationStage, KeyRotation.KeyStage,
         FullReconcile.FullyReconciled, EtcdReplaced;
    var s := cp.status;
    CreatedFrame(cp, s, c, w);
    RestoreFrame(cp, s, c, w);
    KeyFrame(cp, s, c, w);
    FullFrame(cp, s, c, false, w);
  }

  /** And only for an initialized control plane, for a generation that is not on record, and once the cluster could be
      unpaused. */
  lemma GenerationIsDue(cp: Object, c: Cluster, w: World)
    ensures var s' := Persisted(cp, c, w).cp.status;
      s'.certificateGeneration != cp.status.certificateGeneration ==>
        && cp.spec.certificates.Some? && s'.certificateGeneration == cp.spec.certificates.value.generation
        && cp.status.initialized && w.unpause
  {
    hide Persisted, Acting, RotationStage, Planned;
    PersistedMeans(cp, c, w);
    OtherStagesKeepGeneration(cp, c, w);
    StageIsDue(cp, c, w);
  }

  lemma StageIsDue(cp: Object, c: Cluster, w: World)
    ensures var s' := RotationStage(cp, cp.status, c, w).status;
      s'.certificateGeneration != cp.status.certificateGeneration ==>
        && cp.spec.certificates.Some? && s'.certificateGeneration == cp.spec.certificates.value.generation
        && cp.status.initialized && w.unpause
  {
    hide FoundInitNode, Wave, FirstFailsToRender, Rolled, Matches;
  }

  /** The other way round: a pass that gets to the rotation and can store its status records the generation once every
      machine that it applies to has applied it, and the cluster could be unpaused. */
  lemma RotatedIsRecorded(cp: Object, c: Cluster, w: World)
    requires Planned(cp, c, w) && w.saved && w.unpause && Due(cp)
    requires SnapshotCreate.Created(cp, cp.status, c, w).err == Nil
    requires SnapshotRestore.RestoreStage(cp, cp.status, c, w).err == Nil
    ensures var f := FoundInitNode(c, cp.fixedInitNode);
      f.err == Nil && f.joinURL != "" &&
      AllCompleted(c, Wave(c, cp.spec.certificates.value.services), RotationJob(f.joinURL), w) ==>
        Persisted(cp, c, w).cp.status.certificateGeneration == cp.spec.certificates.value.generation
  {
    hide Acting, FoundInitNode, Sane, Stages, Wave, AllCompleted, Rolled, SnapshotCreate.Created,
         SnapshotRestore.RestoreStage, KeyRotation.KeyStage, Ordinary, FirstFailsToRender, InitNodeRuns.Relabelled;
    ProcessedMeans(cp, c, w);
    InitNodeRuns.FoundRelabels(c, cp.fixedInitNode);
    var f := FoundInitNode(c, cp.fixedInitNode);
    RolledNil(c, Wave(c, cp.spec.certificates.value.services), RotationJob(f.joinURL), w);
    RotationActs(cp, c, w);
  }

  lemma RotationActs(cp: Object, c: Cluster, w: World)
    requires SnapshotCreate.Created(cp, cp.status, c, w).err == Nil
    requires SnapshotRestore.RestoreStage(cp, cp.status, c, w).err == Nil
    ensures RotationStage(cp, cp.status, c, w).err != Nil ==> Acting(cp, c, w) == RotationStage(cp, cp.status, c, w)
  {
    hide SnapshotCreate.Created, SnapshotRestore.RestoreStage, KeyRotation.KeyStage, Ordinary, RotationStage;
  }

  /** While a machine is waited for, the cluster is paused: a rotation that is not complete and cannot pause the cluster
      does not wait but fails. */
  lemma WaitingIsPaused(cp: Object, s: Status, c: Cluster, w: World)
    ensures var r, f := RotationStage(cp, s, c, w), FoundInitNode(c, cp.fixedInitNode);
      r.err == Waiting && !AllCompleted(c, Wave(c, cp.spec.certificates.value.services), RotationJob(f.joinURL), w) ==>
        w.pause
  {
    hide FoundInitNode, Wave, AllCompleted, Rolled, Matches, InitNodeRuns.Relabelled;
    InitNodeRuns.FoundRelabels(c, cp.fixedInitNode);
    var f := FoundInitNode(c, cp.fixedInitNode);
    if Due(cp) {
      var names, job := Wave(c, cp.spec.certificates.value.services), RotationJob(f.joinURL);
      RolledNil(c, names, job, w);
      FailsToRenderIs(c, names, job, w);
    }
  }

  lemma {:induction false} FailsToRenderIs(c: Cluster, names: seq<string>, job: Job, w: World)
    requires Listed(c, names)
    ensures FirstFailsToRender(c, names, job, w) ==> Rolled(c, names, job, w).err != Waiting
  {
    if names != [] {
      AssignedNil(c, names[0], job, w);
      FailsToRenderIs(c, names[1..], job, w);
    }
  }

  // ---------------------------------------------------------------- which service runs where

  /** The service has certificates on machines with these roles. */
  predicate RunsOn(service: string, etcd: bool, controlPlane: bool, worker: bool) {
    if service == "etcd" then etcd
    else if service in ["scheduler", "controller-manager", "cloud-controller", "admin", "rke2-controller",
                        "k3s-controller"] then controlPlane
    else if service in ["api-server", "kube-proxy", "auth-proxy"] then worker || controlPlane
    else service in ["kubelet", "k3s-server", "rke2-server"] && (etcd || controlPlane || worker)
  }

  predicate RunsHere(c: Cluster, service: string, m: string) {
    m in c.secrets &&
    RunsOn(service, c.secrets[m].labels.etcd, c.secrets[m].labels.controlPlane, c.secrets[m].labels.worker)
  }

  /** A rotation of a single service applies to the machines that the service runs on, and to no other. */
  lemma OneServiceApplies(c: Cluster, service: string, m: string)
    ensures Applicable(c, [service], m) <==> RunsHere(c, service, m)
  {
    assert [service][0] == service;
  }

  /** A rotation applies to every machine when it names no service, and otherwise to those that one of the services it
      names runs on. */
  lemma ServicesApply(c: Cluster, services: seq<string>, m: string)
    ensures Applicable(c, services, m) <==>
      services == [] || exists i :: 0 <= i < |services| && RunsHere(c, services[i], m)
  {
    forall i | 0 <= i < |services| ensures services[i] in RelevantServices(c, m) <==> RunsHere(c, services[i], m) {
      OneServiceApplies(c, services[i], m);
      assert [services[i]][0] == services[i];
    }
  }

  lemma RelabelledRuns(c: Cluster, c': Cluster, service: string, m: string)
    requires InitNodeRuns.Relabelled(c, c')
    ensures RunsHere(c', service, m) <==> RunsHere(c, service, m)
  {
    if m in c.secrets { assert InitNodeRuns.SameButMark(c.secrets[m], c'.secrets[m]); }
  }

  /** What the stage does to the plans of the machines: only those that the rotation applies to can get a new one. */
  lemma RotationWritesWithin(cp: Object, s: Status, c: Cluster, w: World, m: string)
    requires m in c.secrets
    ensures var r := RotationStage(cp, s, c, w);
      && m in r.cluster.secrets
      && (r.cluster.secrets[m].plan != c.secrets[m].plan ==>
            && cp.spec.certificates.Some?
            && var services := cp.spec.certificates.value.services;
               services == [] || exists i :: 0 <= i < |services| && RunsHere(c, services[i], m))
  {
    hide FoundInitNode, Wave, FirstFailsToRender, Rolled, Matches, InitNodeRuns.Relabelled, RunsHere;
    InitNodeRuns.FoundRelabels(c, cp.fixedInitNode);
    var f := FoundInitNode(c, cp.fixedInitNode);
    InitNodeRuns.RelabelledPlan(c, f.cluster, m);
    if cp.spec.certificates.Some? {
      var services := cp.spec.certificates.value.services;
      RolledWithin(f.cluster, Wave(f.cluster, services), RotationJob(f.joinURL), w, m);
      if m in Wave(f.cluster, services) {
        WaveApplies(f.cluster, services, m);
        ServicesApply(f.cluster, services, m);
        forall i | 0 <= i < |services| ensures RunsHere(f.cluster, services[i], m) <==> RunsHere(c, services[i], m) {
          RelabelledRuns(c, f.cluster, services[i], m);
        }
      }
    }
  }

  lemma RolledWithin(c: Cluster, names: seq<string>, job: Job, w: World, m: string)
    requires Listed(c, names) && m in c.secrets
    ensures m in Rolled(c, names, job, w).cluster.secrets
    ensures Rolled(c, names, job, w).cluster.secrets[m] != c.secrets[m] ==> m in names
  {
    hide Completed, Assigned, Rolled;
    var k := RolledMeans(c, names, job, w);
    if k < |names| {
      assert names[k] in names;
      assert OnlyTouches(c, Assigned(c, names[k], job, w).cluster, {names[k]});
    }
  }

  lemma WaveApplies(c: Cluster, services: seq<string>, m: string)
    ensures m in Wave(c, services) <==> m in RotationOrder(c) && Applicable(c, services, m)
  {
  }

  /** A rotation of the etcd certificates alone gives no plan to a machine without the etcd role. */
  lemma EtcdRotationSparesOthers(cp: Object, s: Status, c: Cluster, w: World, m: string)
    requires cp.spec.certificates.Some? && cp.spec.certificates.value.services == ["etcd"]
    requires m in c.secrets && !c.secrets[m].labels.etcd
    ensures var c' := RotationStage(cp, s, c, w).cluster;
      m in c'.secrets && c'.secrets[m].plan == c.secrets[m].plan
  {
    hide RotationStage;
    RotationWritesWithin(cp, s, c, w, m);
  }

  /** A generation is recorded only when every machine with a role that one of its services runs on, or every machine
      with a role when it names none, has applied its rotation plan. */
  lemma RotatedWhereItRuns(cp: Object, c: Cluster, w: World, m: string) returns (joinServer: string)
    requires m in c.machines && HasRole(c, m)
    ensures Persisted(cp, c, w).cp.status.certificateGeneration != cp.status.certificateGeneration ==>
      && cp.spec.certificates.Some?
      && var services := cp.spec.certificates.value.services;
         (services == [] || exists i :: 0 <= i < |services| && RunsHere(c, services[i], m)) ==>
           Completed(c, m, RotationJob(joinServer), w)
  {
    hide Persisted, HasRole, Applicable, Completed, RunsHere;
    joinServer := GenerationMeansAllRotated(cp, c, w);
    if cp.spec.certificates.Some? {
      var services := cp.spec.certificates.value.services;
      RotationOrderMeans(c);
      ServicesApply(c, services, m);
      WaveApplies(c, services, m);
    }
  }

  // ---------------------------------------------------------------- the wave

  type Wanted = map<string, NodePlan>

  predicate Holds(c: Cluster, want: Wanted, m: string) {
    m in c.secrets && m in want && c.secrets[m].plan == Encoded(want[m])
  }

  predicate Applied(c: Cluster, want: Wanted, m: string) {
    Holds(c, want, m) && c.secrets[m].appliedPlan == Encoded(want[m])
  }

  /** The first k machines hold their rotation plan and the others do not; of the first k, all but the last have applied
      it. */
  ghost predicate WaveAt(c: Cluster, names: seq<string>, want: Wanted, k: nat) {
    && k <= |names|
    && (forall i :: 0 <= i < |names| ==> (Holds(c, want, names[i]) <==> i < k))
    && (forall i :: 0 <= i < k - 1 ==> Applied(c, want, names[i]))
  }

  ghost predicate InWave(c: Cluster, names: seq<string>, want: Wanted) {
    exists k: nat :: WaveAt(c, names, want, k)
  }

  /** The rotation plans are those wanted. */
  ghost predicate Renders(c: Cluster, names: seq<string>, want: Wanted, job: Job, w: World) {
    forall m :: m in names ==>
      && m in c.secrets && m in want
      && var r := RenderedFor(c, m, job.purpose, job.url, w);
         r.Rendered? && r.plan == want[m]
  }

  lemma CompletedApplied(c: Cluster, names: seq<string>, want: Wanted, job: Job, w: World, m: string)
    requires Loaded(c) && Renders(c, names, want, job, w) && m in names && Completed(c, m, job, w)
    ensures Applied(c, want, m)
  {
    assert NodeOf(c, m) == NodeFrom(SecretToNode(c.secrets[m]));
  }

  /** A machine that holds its plan is not written to. Another one gets the plan. */
  lemma AssignedHolds(c: Cluster, names: seq<string>, want: Wanted, job: Job, w: World, m: string)
    requires Loaded(c) && Renders(c, names, want, job, w) && m in names && job.threshold == job.retries == 0
    ensures var c' := Assigned(c, m, job, w).cluster;
      && c'.secrets.Keys == c.secrets.Keys
      && (forall x :: x in c.secrets && x != m ==> c'.secrets[x] == c.secrets[x])
      && (if Holds(c, want, m) then c' == c else Holds(c', want, m))
  {
    assert NodeOf(c, m) == NodeFrom(SecretToNode(c.secrets[m]));
  }

  /** One more machine of the order is given its plan: the one before it has applied its own. */
  lemma WaveGrows(c: Cluster, c': Cluster, names: seq<string>, want: Wanted, k: nat, j: nat)
    requires WaveAt(c, names, want, k) && j < |names| && !Holds(c, want, names[j]) && Holds(c', want, names[j])
    requires Names.NoDuplicates(names) && (forall i :: 0 <= i < j ==> Applied(c, want, names[i]))
    requires forall x :: x != names[j] ==> (Holds(c', want, x) <==> Holds(c, want, x))
    requires forall x :: x != names[j] && Applied(c, want, x) ==> Applied(c', want, x)
    ensures WaveAt(c', names, want, k + 1)
  {
    assert j == 0 || Applied(c, want, names[j - 1]);
    assert k == j;
  }

  lemma SameButOne(c: Cluster, c': Cluster, want: Wanted, m: string)
    requires c'.secrets.Keys == c.secrets.Keys && forall x :: x in c.secrets && x != m ==> c'.secrets[x] == c.secrets[x]
    ensures forall x :: x != m ==> (Holds(c', want, x) <==> Holds(c, want, x))
    ensures forall x :: x != m && Applied(c, want, x) ==> Applied(c', want, x)
  {
  }

  lemma RolledWave(c: Cluster, names: seq<string>, want: Wanted, job: Job, w: World)
    requires Loaded(c) && Listed(c, names) && Names.NoDuplicates(names)
    requires Renders(c, names, want, job, w) && job.threshold == job.retries == 0
    requires InWave(c, names, want)
    ensures InWave(Rolled(c, names, job, w).cluster, names, want)
  {
    hide Loaded, Completed, Assigned, Renders, WaveAt, Holds;
    var k: nat :| WaveAt(c, names, want, k);
    var j := RolledMeans(c, names, job, w);
    var c' := Rolled(c, names, job, w).cluster;
    if j < |names| {
      var m := names[j];
      assert m in names;
      AssignedHolds(c, names, want, job, w, m);
      if !Holds(c, want, m) {
        forall i | 0 <= i < j ensures Applied(c, want, names[i]) {
          assert names[..j][i] == names[i] && names[i] in names[..j];
          CompletedApplied(c, names, want, job, w, names[i]);
        }
        SameButOne(c, c', want, m);
        WaveGrows(c, c', names, want, k, j);
      }
    }
  }

  // ---------------------------------------------------------------- runs

  /** What is asked of the events of a run while the rotation is under way. A pass that gets to its stages finds
      nothing to do in the two stages before the rotation, or these write no plans; the machines that the rotation
      applies to, in order, are those given; their rotation plans, for the join URL of the init node, are those
      wanted; and the init node has a join URL. Nobody else writes plans or loses track of an applied one. */
  ghost predicate Stable(c: Cluster, e: Event, c': Cluster, names: seq<string>, want: Wanted) {
    match e
    case Pass(cp, w) =>
      var loaded := Budget.Refreshed(c);
      Loaded(loaded) && Planned(cp, loaded, w) ==> Rotating(cp, loaded, w, names, want)
    case Others(_) => true
    case Changes => SameWork(c, c')
  }

  ghost predicate Rotating(cp: Object, c: Cluster, w: World, names: seq<string>, want: Wanted) {
    var created := SnapshotCreate.Created(cp, cp.status, c, w);
    var restored := SnapshotRestore.RestoreStage(cp, cp.status, c, w);
    var f := FoundInitNode(c, cp.fixedInitNode);
    && (created.err != Nil ==> SameWork(c, created.cluster))
    && (restored.err != Nil ==> SameWork(c, restored.cluster))
    && Due(cp) && Wave(c, cp.spec.certificates.value.services) == names
    && (f.err == Nil ==> f.joinURL != "" && Renders(c, names, want, RotationJob(f.joinURL), w))
  }

  /** The plans are the same, and a machine that has applied its plan is still known to have. */
  ghost predicate SameWork(c: Cluster, c': Cluster) {
    && c'.secrets.Keys == c.secrets.Keys
    && forall m :: m in c.secrets ==>
         && c'.secrets[m].plan == c.secrets[m].plan
         && (c.secrets[m].appliedPlan == c.secrets[m].plan ==> c'.secrets[m].appliedPlan == c.secrets[m].appliedPlan)
  }

  lemma {:induction false} ApplicableDistinct(c: Cluster, services: seq<string>, names: seq<string>)
    requires Names.NoDuplicates(names)
    ensures Names.NoDuplicates(ApplicableOf(c, services, names))
  {
    hide Applicable;
    if names != [] {
      var rest := names[1..];
      assert forall i, j :: 0 <= i < j < |rest| ==> rest[i] == names[i + 1] && rest[j] == names[j + 1];
      ApplicableDistinct(c, services, rest);
      assert forall i :: 0 <= i < |rest| ==> rest[i] == names[i + 1] && names[i + 1] != names[0];
      assert names[0] !in rest;
    }
  }

  lemma WaveDistinct(c: Cluster, services: seq<string>)
    ensures Names.NoDuplicates(Wave(c, services)) && Listed(c, Wave(c, services))
  {
    hide Applicable;
    RotationOrderMeans(c);
    ApplicableDistinct(c, services, RotationOrder(c));
  }

  lemma HoldsSame(c: Cluster, c': Cluster, names: seq<string>, want: Wanted)
    requires SameWork(c, c')
    ensures InWave(c, names, want) ==> InWave(c', names, want)
  {
    if InWave(c, names, want) {
      var k: nat :| WaveAt(c, names, want, k);
      forall i | 0 <= i < |names| ensures Holds(c', want, names[i]) <==> Holds(c, want, names[i]) {
      }
      assert WaveAt(c', names, want, k);
    }
  }

  lemma ControllerKeepsApplied(s: Secret, now: string)
    ensures var s' := PlanSecret.Handled(s, now).secret;
      s'.plan == s.plan && (s.appliedPlan == s.plan ==> s'.appliedPlan == s.appliedPlan)
  {
    hide SecretToNode;
  }

  lemma OthersKeepWork(c: Cluster, e: Budget.Event, c': Cluster)
    requires !e.Pass? && Budget.Step(c, e, c')
    ensures SameWork(c, c')
  {
    hide PlanSecret.Handled, MachineDrain.Handle, SecretToNode;
    if e.ControllerRuns? { ControllerKeepsApplied(c.secrets[e.m], e.now); }
  }

  lemma RelabelledKeepsWork(c: Cluster, c': Cluster)
    requires InitNodeRuns.Relabelled(c, c')
    ensures SameWork(c, c')
  {
    forall m | m in c.secrets
      ensures c'.secrets[m].plan == c.secrets[m].plan && c'.secrets[m].appliedPlan == c.secrets[m].appliedPlan
    {
      assert InitNodeRuns.SameButMark(c.secrets[m], c'.secrets[m]);
    }
  }

  lemma RotationKeepsWave(cp: Object, c: Cluster, w: World, names: seq<string>, want: Wanted)
    requires Loaded(c) && InWave(c, names, want) && Rotating(cp, c, w, names, want)
    ensures InWave(RotationStage(cp, cp.status, c, w).cluster, names, want)
    ensures RotationStage(cp, cp.status, c, w).err != Nil
  {
    hide FoundInitNode, Loaded, InWave, Wave, FirstFailsToRender, Renders, Rolled, Matches, InitNodeRuns.Relabelled,
         SameWork, SnapshotCreate.Created, SnapshotRestore.RestoreStage;
    InitNodeRuns.FoundRelabels(c, cp.fixedInitNode);
    var f := FoundInitNode(c, cp.fixedInitNode);
    RelabelledKeepsWork(c, f.cluster);
    HoldsSame(c, f.cluster, names, want);
    if f.err == Nil {
      WaveDistinct(c, cp.spec.certificates.value.services);
      RolledWave(c, names, want, RotationJob(f.joinURL), w);
    }
  }

  lemma PassKeepsWave(cp: Object, c: Cluster, w: World, names: seq<string>, want: Wanted)
    requires Loaded(c) && InWave(c, names, want)
    requires Planned(cp, c, w) ==> Rotating(cp, c, w, names, want)
    ensures InWave(Persisted(cp, c, w).cluster, names, want)
  {
    hide InWave, Loaded, Planned, Persisted, SnapshotCreate.Created, SnapshotRestore.RestoreStage, RotationStage,
         KeyRotation.KeyStage, Ordinary, Wave, Renders, FoundInitNode, Due, SameWork;
    PersistedMeans(cp, c, w);
    if Planned(cp, c, w) {
      RotationKeepsWave(cp, c, w, names, want);
      HoldsSameIf(c, SnapshotCreate.Created(cp, cp.status, c, w).cluster, names, want);
      HoldsSameIf(c, SnapshotRestore.RestoreStage(cp, cp.status, c, w).cluster, names, want);
    }
  }

  lemma HoldsSameIf(c: Cluster, c': Cluster, names: seq<string>, want: Wanted)
    ensures SameWork(c, c') && InWave(c, names, want) ==> InWave(c', names, want)
  {
    hide SameWork, InWave;
    if SameWork(c, c') { HoldsSame(c, c', names, want); }
  }

  lemma StepKeepsWave(c: Cluster, e: Event, c': Cluster, names: seq<string>, want: Wanted)
    requires Step(c, e, c') && Stable(c, e, c', names, want) && InWave(c, names, want)
    ensures InWave(c', names, want)
  {
    hide InWave, Rotating, Persisted, Planned, Budget.Step, SecretToNode, Loaded;
    match e {
      case Pass(cp, w) =>
        var loaded := Budget.Refreshed(c);
        HoldsSame(c, loaded, names, want);
        if Loaded(loaded) { PassKeepsWave(cp, loaded, w, names, want); }
      case Others(o) =>
        OthersKeepWork(c, o, c');
        HoldsSame(c, c', names, want);
      case Changes =>
        HoldsSame(c, c', names, want);
    }
  }

  /** In every run of persisted passes during which the rotation is under way, at every moment the machines that hold
      the rotation plan are the first ones of the order, and at most one of them has not applied it. */
  lemma {:induction false} RotationIsAWave(cs: seq<Cluster>, es: seq<Event>, names: seq<string>, want: Wanted, i: nat)
    requires Run(cs, es) && i < |cs|
    requires forall j :: 0 <= j < |es| ==> Stable(cs[j], es[j], cs[j + 1], names, want)
    requires forall m :: m in names ==> !Holds(cs[0], want, m)
    ensures InWave(cs[i], names, want)
  {
    hide Step, Stable;
    if i == 0 {
      assert WaveAt(cs[0], names, want, 0);
    } else {
      RotationIsAWave(cs, es, names, want, i - 1);
      assert Step(cs[i - 1], es[i - 1], cs[i - 1 + 1]) && Stable(cs[i - 1], es[i - 1], cs[i - 1 + 1], names, want);
      StepKeepsWave(cs[i - 1], es[i - 1], cs[i], names, want);
    }
  }
}
