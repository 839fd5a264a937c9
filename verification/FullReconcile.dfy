/** fullReconcile: the init node is elected and the four tiers are reconciled one after the other. */
module FullReconcile {
  import opened Model
  import opened PlanEntry
  import opened Store
  import opened Scheduler
  import opened InitNode
  import opened ControlPlane
  import PlannerDrain
  import TierPass

  /** One tier as it ran: the cluster it started from, and what it left. */
  datatype Ran = Ran(tier: Tier, before: Cluster, cluster: Cluster, err: Err)

  /** What full reconciliation leaves, with every tier that was reached, in order. */
  datatype Full = Full(stage: Stage, tiers: seq<Ran>)

  /** ignoreErrors: an ignorable error is remembered and the pass goes on. */
  datatype Ignoring = Ignoring(seen: bool, err: Err)

  function IgnoreErrors(seen: bool, err: Err): Ignoring {
    if err == Ignore then Ignoring(true, Nil) else Ignoring(seen, err)
  }

  /** The limits in force. While a restored cluster restarts, those of the strategy are ignored, and so are its
      drains. */
  datatype Limits = Limits(
    controlPlaneConcurrency: Concurrency, workerConcurrency: Concurrency,
    controlPlaneDrain: DrainOptions, workerDrain: DrainOptions)

  function LimitsOf(s: Strategy, ignore: bool): Limits {
    if ignore then Limits(Unset, Unset, NO_DRAIN, NO_DRAIN)
    else Limits(s.controlPlaneConcurrency, s.workerConcurrency, s.controlPlaneDrain, s.workerDrain)
  }

  /** To ignore the limits is to fall back on the limit of one that a missing setting stands for; only the drains are
      gone, hooks included. */
  lemma IgnoredLimitsAreOne(s: Strategy, count: nat, single: bool)
    ensures var limits := LimitsOf(s, true);
      && Allowed(limits.controlPlaneConcurrency, count) == Some(1) == Allowed(limits.workerConcurrency, count)
      && !PlannerDrain.Applies(limits.controlPlaneDrain, single) && !PlannerDrain.Applies(limits.workerDrain, single)
  {
  }

  function BootstrapTier(drain: DrainOptions): Tier {
    Tier(true, Etcd, IS_NOT_INIT_NODE_OR_IS_DELETING, Number(1), "", drain)
  }

  function EtcdTier(joinServer: string, drain: DrainOptions): Tier {
    Tier(true, Etcd, IS_INIT_NODE_OR_DELETING, Number(1), joinServer, drain)
  }

  function ControlPlaneTier(joinServer: string, limits: Limits): Tier {
    Tier(true, Filter.ControlPlane, IS_INIT_NODE_OR_DELETING, limits.controlPlaneConcurrency, joinServer,
         limits.controlPlaneDrain)
  }

  function WorkerTier(limits: Limits): Tier {
    Tier(false, IS_ONLY_WORKER, IS_INIT_NODE_OR_DELETING, limits.workerConcurrency, "", limits.workerDrain)
  }

  lemma TierListed(c: Cluster, f: Filter)
    requires f == Etcd || f == Filter.ControlPlane || f == IS_ONLY_WORKER
    ensures Listed(c, Collected(c, f))
  {
    assert RoleFilter(Worker);
    RolesListed(c, f);
  }

  ghost function RanOf(c: Cluster, tier: Tier, g: Settings): (r: Ran)
    requires Listed(c, Collected(c, tier.filter))
    ensures r.tier == tier && r.before == c && Outcome(r.cluster, r.err) == Reconciled(c, tier, g)
  {
    var o := Reconciled(c, tier, g);
    Ran(tier, c, o.cluster, o.err)
  }

  /** From the worker tier on. */
  ghost function Workers(cp: Object, status: Status, c: Cluster, limits: Limits, seen: bool, w: World,
                         done: seq<Ran>): Full {
    TierListed(c, IS_ONLY_WORKER);
    var t := RanOf(c, WorkerTier(limits), SettingsOf(cp, w));
    var i := IgnoreErrors(seen, t.err);
    Full(Stage(status, t.cluster, if i.err != Nil then i.err else if i.seen then Waiting else Nil), done + [t])
  }

  /** Once the control plane has been reconciled. */
  ghost function Available(cp: Object, status: Status, c: Cluster, limits: Limits, seen: bool, w: World,
                           done: seq<Ran>): Full {
    if Collected(c, JOINABLE_CONTROL_PLANE) == [] then Full(Stage(status, c, Waiting), done)
    else if !status.initialized || !status.ready then
      Full(Stage(status.(initialized := true, ready := true), c, Waiting), done)
    else Workers(cp, status, c, limits, seen, w, done)
  }

  ghost function ControlPlanes(cp: Object, status: Status, c: Cluster, limits: Limits, joinServer: string, seen: bool,
                               w: World, done: seq<Ran>): Full {
    TierListed(c, Filter.ControlPlane);
    var t := RanOf(c, ControlPlaneTier(joinServer, limits), SettingsOf(cp, w));
    var i := IgnoreErrors(seen, t.err);
    if i.err != Nil then Full(Stage(status, t.cluster, i.err), done + [t])
    else Available(cp, status, t.cluster, limits, i.seen, w, done + [t])
  }

  ghost function Etcds(cp: Object, status: Status, c: Cluster, limits: Limits, joinServer: string, seen: bool,
                       w: World, done: seq<Ran>): Full {
    TierListed(c, Etcd);
    var t := RanOf(c, EtcdTier(joinServer, limits.controlPlaneDrain), SettingsOf(cp, w));
    var i := IgnoreErrors(seen, t.err);
    if i.err != Nil then Full(Stage(status, t.cluster, i.err), done + [t])
    else ControlPlanes(cp, status, t.cluster, limits, joinServer, i.seen, w, done + [t])
  }

  /** The join URL of the init node: as elected, or else looked up once more. */
  ghost function Joining(cp: Object, status: Status, c: Cluster, limits: Limits, elected: string, seen: bool,
                         w: World, done: seq<Ran>): Full {
    if elected != "" then Etcds(cp, status, c, limits, elected, seen, w, done) else
    var f := FoundInitNode(c, cp.fixedInitNode);
    if f.err != Nil then Full(Stage(status, f.cluster, f.err), done)
    else if f.joinURL == "" then Full(Stage(status, f.cluster, Waiting), done)
    else Etcds(cp, status, f.cluster, limits, f.joinURL, seen, w, done)
  }

  ghost function FullyReconciled(cp: Object, status: Status, c: Cluster, ignoreLimits: bool, w: World): Full {
    var e := Elected(c, cp.fixedInitNode, true);
    if e.err != Nil then Full(Stage(status, e.cluster, e.err), []) else
    var limits := LimitsOf(cp.spec.strategy, ignoreLimits);
    TierListed(e.cluster, Etcd);
    var t := RanOf(e.cluster, BootstrapTier(limits.controlPlaneDrain), SettingsOf(cp, w));
    var i := IgnoreErrors(false, t.err);
    var status' := status.(bootstrapped := Yes);
    if i.err != Nil then Full(Stage(status', t.cluster, i.err), [t])
    else Joining(cp, status', t.cluster, limits, e.joinURL, i.seen, w, [t])
  }

  // ---------------------------------------------------------------- as it runs

  /** From the etcd tier on; done is what came before. */
  method ReconcileServers(store: PlanStore, cp: Object, status: Status, limits: Limits, joinServer: string, seen: bool,
                          w: World, ghost done: seq<Ran>) returns (status': Status, err: Err)
    modifies store
    ensures Stage(status', store.cluster, err) ==
            Etcds(cp, status, old(store.cluster), limits, joinServer, seen, w, done).stage
  {
    hide Reconciled, RanOf, Matches, Listed, SettingsOf;
    status' := status;
    var g := SettingsOf(cp, w);
    TierListed(store.cluster, Etcd);
    err := TierPass.Reconcile(store, EtcdTier(joinServer, limits.controlPlaneDrain), g);
    var ignoring := IgnoreErrors(seen, err);
    err := ignoring.err;
    if err != Nil {
      return;
    }
    TierListed(store.cluster, Filter.ControlPlane);
    err := TierPass.Reconcile(store, ControlPlaneTier(joinServer, limits), g);
    ignoring := IgnoreErrors(ignoring.seen, err);
    err := ignoring.err;
    if err != Nil {
      return;
    }
    var joinable := Collect(store.cluster, JOINABLE_CONTROL_PLANE);
    if |joinable| == 0 {
      err := Waiting;
      return;
    }
    if !status'.initialized || !status'.ready {
      status' := status'.(initialized := true, ready := true);
      err := Waiting;
      return;
    }
    TierListed(store.cluster, IS_ONLY_WORKER);
    err := TierPass.Reconcile(store, WorkerTier(limits), g);
    ignoring := IgnoreErrors(ignoring.seen, err);
    err := ignoring.err;
    if err == Nil && ignoring.seen {
      err := Waiting;
    }
  }

  method ReconcileAll(store: PlanStore, cp: Object, status: Status, ignoreLimits: bool, w: World)
    returns (status': Status, err: Err)
    modifies store
    ensures Stage(status', store.cluster, err) ==
            FullyReconciled(cp, status, old(store.cluster), ignoreLimits, w).stage
  {
    hide Elected, Reconciled, RanOf, FoundInitNode, Matches, Listed, LimitsOf, SettingsOf, Etcds;
    status' := status;
    var joinServer;
    joinServer, err := ElectInitNode(store, cp.fixedInitNode, true);
    if err != Nil {
      return;
    }
    var limits := LimitsOf(cp.spec.strategy, ignoreLimits);
    TierListed(store.cluster, Etcd);
    ghost var bootstrap := RanOf(store.cluster, BootstrapTier(limits.controlPlaneDrain), SettingsOf(cp, w));
    err := TierPass.Reconcile(store, BootstrapTier(limits.controlPlaneDrain), SettingsOf(cp, w));
    status' := status'.(bootstrapped := Yes);
    var ignoring := IgnoreErrors(false, err);
    err := ignoring.err;
    if err != Nil {
      return;
    }
    if joinServer == "" {
      var found, node;
      found, joinServer, node, err := FindInitNode(store, cp.fixedInitNode);
      if err != Nil {
        return;
      }
      if joinServer == "" {
        err := Waiting;
        return;
      }
    }
    status', err := ReconcileServers(store, cp, status', limits, joinServer, ignoring.seen, w, [bootstrap]);
  }
}
