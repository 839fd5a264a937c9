/** Certificate rotation: the machines rotate one after the other, in the order of their roles. */
module CertificateRotation {
  import opened Model
  import opened PlanEntry
  import opened Store
  import opened Scheduler
  import opened InitNode
  import opened ControlPlane

  // ---------------------------------------------------------------- whether and whom

  /** shouldRotate. */
  predicate Due(cp: Object) {
    && cp.spec.certificates.Some?
    && cp.status.initialized
    && cp.status.certificateGeneration != cp.spec.certificates.value.generation
  }

  const WORKER_SERVICES: set<string> :=
    {"rke2-server", "k3s-server", "api-server", "kubelet", "kube-proxy", "auth-proxy"}

  const CONTROL_PLANE_SERVICES: set<string> :=
    WORKER_SERVICES +
    {"controller-manager", "scheduler", "rke2-controller", "k3s-controller", "admin", "cloud-controller"}

  const ETCD_SERVICES: set<string> := {"etcd", "kubelet", "k3s-server", "rke2-server"}

  function RelevantServices(c: Cluster, m: string): set<string> {
    (if Matches(c, Worker, m) then WORKER_SERVICES else {}) +
    (if Matches(c, Filter.ControlPlane, m) then CONTROL_PLANE_SERVICES else {}) +
    (if Matches(c, Etcd, m) then ETCD_SERVICES else {})
  }

  /** shouldRotateEntry: the rotation names no service, or one that runs on the machine. */
  predicate Applicable(c: Cluster, services: seq<string>, m: string) {
    services == [] || exists i :: 0 <= i < |services| && services[i] in RelevantServices(c, m)
  }

  method ShouldRotateEntry(c: Cluster, services: seq<string>, m: string) returns (r: bool)
    ensures r == Applicable(c, services, m)
  {
    var relevant: set<string> := {};
    if |services| == 0 {
      return true;
    }
    if Matches(c, Worker, m) {
      relevant := relevant + WORKER_SERVICES;
    }
    if Matches(c, Filter.ControlPlane, m) {
      relevant := relevant + CONTROL_PLANE_SERVICES;
    }
    if Matches(c, Etcd, m) {
      relevant := relevant + ETCD_SERVICES;
    }
    for i := 0 to |services|
      invariant forall k :: 0 <= k < i ==> services[k] !in relevant
    {
      if services[i] in relevant {
        return true;
      }
    }
    return false;
  }

  /** collectOrderedCertificateRotationEntries. */
  ghost function RotationOrder(c: Cluster): seq<string> {
    Collected(c, IS_ONLY_ETCD) + Collected(c, IS_CONTROL_PLANE_AND_ETCD) +
    Collected(c, IS_ONLY_CONTROL_PLANE) + Collected(c, IS_ONLY_WORKER)
  }

  lemma OrderListed(c: Cluster)
    ensures Listed(c, RotationOrder(c))
  {
    assert RoleFilter(Etcd) && RoleFilter(Filter.ControlPlane) && RoleFilter(Worker);
    RolesListed(c, IS_ONLY_ETCD);
    RolesListed(c, IS_CONTROL_PLANE_AND_ETCD);
    RolesListed(c, IS_ONLY_CONTROL_PLANE);
    RolesListed(c, IS_ONLY_WORKER);
  }

  /** The machines that the rotation applies to, in the order of rotation. */
  function ApplicableOf(c: Cluster, services: seq<string>, names: seq<string>): (r: seq<string>)
    ensures forall m :: m in r <==> m in names && Applicable(c, services, m)
  {
    if names == [] then []
    else (if Applicable(c, services, names[0]) then [names[0]] else []) + ApplicableOf(c, services, names[1..])
  }

  ghost function Wave(c: Cluster, services: seq<string>): (r: seq<string>)
    ensures Listed(c, r)
  {
    OrderListed(c);
    ApplicableOf(c, services, RotationOrder(c))
  }

  /** The rotation plan of a machine; a worker is rotated without touching the server it joined. */
  function RotationJob(joinServer: string): Job {
    Job(CertificatePlan, joinServer, 0, 0)
  }

  // ---------------------------------------------------------------- the rotation

  ghost function RotationStage(cp: Object, s: Status, c: Cluster, w: World): Stage {
    if !Due(cp) then Stage(s, c, Nil) else
    var f := FoundInitNode(c, cp.fixedInitNode);
    if f.err != Nil then Stage(s, f.cluster, f.err)
    else if !f.found || f.joinURL == "" then Stage(s, f.cluster, Nil)
    else
      var rotation := cp.spec.certificates.value;
      var r := Rolled(f.cluster, Wave(f.cluster, rotation.services), RotationJob(f.joinURL), w);
      if r.err != Nil then Stage(s, r.cluster, RotationErr(f.cluster, rotation, f.joinURL, r.err, w))
      else if !w.unpause then Stage(s, r.cluster, Waiting)
      else Stage(s.(certificateGeneration := rotation.generation), r.cluster, Waiting)
  }

  /** A plan that cannot be generated is reported as it is. Otherwise the cluster is paused first, and a failure to do
      so is reported instead. */
  ghost function RotationErr(c: Cluster, rotation: Rotation, joinServer: string, err: Err, w: World): Err {
    if FirstFailsToRender(c, Wave(c, rotation.services), RotationJob(joinServer), w) then err
    else if !w.pause then Other
    else err
  }

  /** The first machine that has not completed the job cannot be given a plan for it. */
  ghost predicate FirstFailsToRender(c: Cluster, names: seq<string>, job: Job, w: World)
    requires Listed(c, names)
  {
    names != [] &&
    if RenderedFor(c, names[0], job.purpose, job.url, w).RenderFails? then true
    else Assigned(c, names[0], job, w).err == Nil && FirstFailsToRender(c, names[1..], job, w)
  }

  // ---------------------------------------------------------------- as it runs

  method CollectOrdered(c: Cluster) returns (r: seq<string>)
    ensures r == RotationOrder(c)
  {
    r := Collect(c, IS_ONLY_ETCD);
    var more := Collect(c, IS_CONTROL_PLANE_AND_ETCD);
    r := r + more;
    more := Collect(c, IS_ONLY_CONTROL_PLANE);
    r := r + more;
    more := Collect(c, IS_ONLY_WORKER);
    r := r + more;
  }

  method RotateEach(store: PlanStore, names: seq<string>, services: seq<string>, joinServer: string, w: World)
    returns (err: Err)
    requires Listed(store.cluster, names)
    modifies store
    ensures var wave, job := ApplicableOf(old(store.cluster), services, names), RotationJob(joinServer);
      && Listed(old(store.cluster), wave)
      && var r := Rolled(old(store.cluster), wave, job, w);
         && store.cluster == r.cluster
         && (err == Nil <==> r.err == Nil)
         && (r.err != Nil ==>
               err == if FirstFailsToRender(old(store.cluster), wave, job, w) then r.err
                      else if !w.pause then Other else r.err)
  {
    hide Matches, RelevantServices;
    ghost var c := store.cluster;
    ghost var job := RotationJob(joinServer);
    assert names[0..] == names;
    for i := 0 to |names|
      invariant store.cluster == c
      invariant Rolled(c, ApplicableOf(c, services, names), job, w) ==
                Rolled(c, ApplicableOf(c, services, names[i..]), job, w)
      invariant FirstFailsToRender(c, ApplicableOf(c, services, names), job, w) ==
                FirstFailsToRender(c, ApplicableOf(c, services, names[i..]), job, w)
    {
      ghost var rest := names[i..];
      ghost var later := ApplicableOf(c, services, rest[1..]);
      assert rest[0] == names[i] && rest[1..] == names[i + 1..] && [] + later == later;
      assert names[i] in names;
      var applies := ShouldRotateEntry(store.cluster, services, names[i]);
      if !applies {
        continue;
      }
      assert ApplicableOf(c, services, rest) == [names[i]] + later && ([names[i]] + later)[1..] == later;
      AssignedNil(c, names[i], job, w);
      var s := store.cluster.secrets[names[i]];
      var fails := w.render(CertificatePlan, names[i], s.labels, s.annotations, joinServer).RenderFails?;
      err := Assign(store, names[i], RotationJob(joinServer), w);
      if fails {
        return;
      }
      if err != Nil {
        if !w.pause {
          err := Other;
        }
        return;
      }
    }
    assert names[|names|..] == [];
    return Nil;
  }

  method RotateCertificates(store: PlanStore, cp: Object, status: Status, w: World) returns (s: Status, err: Err)
    modifies store
    ensures Stage(s, store.cluster, err) == RotationStage(cp, status, old(store.cluster), w)
  {
    hide FoundInitNode, Matches, ApplicableOf, FirstFailsToRender, Rolled;
    s := status;
    if !Due(cp) {
      return s, Nil;
    }
    var found, joinServer, node;
    found, joinServer, node, err := FindInitNode(store, cp.fixedInitNode);
    if err != Nil {
      return;
    }
    if !found || joinServer == "" {
      return s, Nil;
    }
    var ordered := CollectOrdered(store.cluster);
    OrderListed(store.cluster);
    err := RotateEach(store, ordered, cp.spec.certificates.value.services, joinServer, w);
    if err != Nil {
      return;
    }
    if !w.unpause {
      return s, Waiting;
    }
    s := s.(certificateGeneration := cp.spec.certificates.value.generation);
    return s, Waiting;
  }
}
