/** The rolling scheduler: one tier of machines is brought to its desired plans under a disruption budget. */
module Scheduler {
  import opened Model
  import opened PlanEntry
  import opened Store
  import Join
  import PlanChange
  import PlannerDrain
  import Names

  // ---------------------------------------------------------------- inputs

  /** What the plan generator answers: a plan with the server it joins, or an error, which is the ignorable one while
      the driver configuration of a machine is still to be saved. */
  datatype Rendered = Rendered(plan: NodePlan, joinedTo: string) | RenderFails(ignorable: bool)

  function RenderErr(ignorable: bool): Err {
    if ignorable then Ignore else Other
  }

  /** desiredPlan for a machine, given the labels and annotations of its secret and the join URL. */
  type Generator = (string, Labels, Annotations, string) -> Rendered

  /** A parsed concurrency setting. */
  datatype Concurrency = Unset | Number(n: int) | Percent(p: real) | Unparsable

  datatype Tier = Tier(
    required: bool, filter: Filter, exclude: Filter, maxUnavailable: Concurrency, joinURL: string,
    options: DrainOptions)

  /** What the planner is told about the cluster as a whole, and the machines whose status cannot be updated. */
  datatype Settings = Settings(agentConnected: bool, desired: Generator, crc: Join.Crc, statusFails: string -> bool)

  datatype Reconcilable = Reconcilable(
    name: string, node: Option<Node>, desired: NodePlan, joinedURL: string, change: bool, minorChange: bool)

  datatype Outcome = Outcome(cluster: Cluster, err: Err)

  // ---------------------------------------------------------------- gathering

  function MakeReconcilable(c: Cluster, m: string, plan: NodePlan, joinedTo: string): Reconcilable {
    var node := NodeOf(c, m);
    Reconcilable(m, node, plan, joinedTo,
                 node.Some? && node.value.plan != plan,
                 node.Some? && PlanChange.MinorChange(node.value.plan, plan))
  }

  /** The reconcilable of one entry, or the error of finding no join URL or no plan for it. */
  ghost function Prepared(c: Cluster, m: string, joinURL: string, g: Settings): (r: Try<Reconcilable>)
    requires m in c.machines && m in c.secrets
    ensures r.Good? ==>
      r.value.name == m && r.value == MakeReconcilable(c, m, r.value.desired, r.value.joinedURL)
  {
    match Join.DeterminedJoinURL(c, m, NodeOf(c, m), g.crc, joinURL)
    case None => Bad(Other)
    case Some(url) =>
      match g.desired(m, c.secrets[m].labels, c.secrets[m].annotations, url)
      case RenderFails(ignorable) => Bad(RenderErr(ignorable))
      case Rendered(plan, joinedTo) => Good(MakeReconcilable(c, m, plan, joinedTo))
  }

  ghost predicate Listed(c: Cluster, names: seq<string>) {
    forall m :: m in names ==> m in c.machines && m in c.secrets
  }

  /** The reconcilables of the entries that are not excluded, in order, or the first error. */
  ghost function Gathered(c: Cluster, names: seq<string>, exclude: Filter, joinURL: string, g: Settings)
    : Try<seq<Reconcilable>>
    requires Listed(c, names)
  {
    if names == [] then Good([])
    else if Matches(c, exclude, names[0]) then Gathered(c, names[1..], exclude, joinURL, g)
    else
      match Prepared(c, names[0], joinURL, g)
      case Bad(err) => Bad(err)
      case Good(r) =>
        match Gathered(c, names[1..], exclude, joinURL, g)
        case Bad(err) => Bad(err)
        case Good(rs) => Good([r] + rs)
  }

  // ---------------------------------------------------------------- concurrency

  predicate InDrain(c: Cluster, m: string) {
    m in c.secrets && PlannerDrain.InDrain(c.secrets[m].annotations)
  }

  predicate IsUnavailable(c: Cluster, r: Reconcilable)
    requires r.node.Some?
  {
    !r.node.value.inSync || InDrain(c, r.name) || (!r.change && !r.minorChange && !r.node.value.healthy)
  }

  function Counted(c: Cluster, rs: seq<Reconcilable>, exclude: Filter): nat {
    if rs == [] then 0
    else (if Matches(c, exclude, rs[0].name) then 0 else 1) + Counted(c, rs[1..], exclude)
  }

  function UnavailableCount(c: Cluster, rs: seq<Reconcilable>): nat {
    if rs == [] then 0
    else (if rs[0].node.Some? && IsUnavailable(c, rs[0]) then 1 else 0) + UnavailableCount(c, rs[1..])
  }

  function Ceiling(x: real): int {
    -((-x).Floor)
  }

  function Share(count: nat, percentage: real): int {
    Ceiling(count as real * (percentage / 100.0))
  }

  /** The number of machines that may be unavailable at once; None when the setting does not parse. */
  function Allowed(setting: Concurrency, count: nat): Option<int> {
    match setting
    case Number(n) => Some(n)
    case Unset => Some(1)
    case Unparsable => None
    case Percent(p) => Some(Share(count, p))
  }

  lemma {:induction false} CountedAppend(c: Cluster, rs: seq<Reconcilable>, r: Reconcilable, exclude: Filter)
    ensures Counted(c, rs + [r], exclude) == Counted(c, rs, exclude) + Counted(c, [r], exclude)
    ensures UnavailableCount(c, rs + [r]) == UnavailableCount(c, rs) + UnavailableCount(c, [r])
  {
    if rs == [] {
      assert rs + [r] == [r];
    } else {
      assert (rs + [r])[1..] == rs[1..] + [r];
      CountedAppend(c, rs[1..], r, exclude);
    }
  }

  method CalculateConcurrency(c: Cluster, setting: Concurrency, rs: seq<Reconcilable>, exclude: Filter)
    returns (allowed: Option<int>, unavailable: nat)
    ensures allowed == Allowed(setting, Counted(c, rs, exclude))
    ensures unavailable == if allowed.Some? then UnavailableCount(c, rs) else 0
  {
    hide Matches, IsUnavailable;
    var count := 0;
    unavailable := 0;
    for i := 0 to |rs|
      invariant count == Counted(c, rs[..i], exclude) && unavailable == UnavailableCount(c, rs[..i])
    {
      assert rs[..i + 1] == rs[..i] + [rs[i]];
      CountedAppend(c, rs[..i], rs[i], exclude);
      if !Matches(c, exclude, rs[i].name) {
        count := count + 1;
      }
      if rs[i].node.Some? && IsUnavailable(c, rs[i]) {
        unavailable := unavailable + 1;
      }
    }
    assert rs[..|rs|] == rs;
    match setting
    case Number(n) => allowed := Some(n);
    case Unset => allowed := Some(1);
    case Unparsable => return None, 0;
    case Percent(p) => allowed := Some(Share(count, p));
  }

  // ---------------------------------------------------------------- visiting the machines

  /** The state of the loop over the tier. noisy holds the machines that have a message to show. */
  datatype Tally = Tally(
    cluster: Cluster,
    unavailable: int,
    uncordoned: seq<string>, draining: seq<string>, outOfSync: seq<string>, ready: seq<string>,
    errMachines: seq<string>, nonReady: seq<string>,
    noisy: set<string>,
    err: Err)

  /** getPlanStatusReasonMessage answers with the empty string. */
  predicate Quiet(node: Option<Node>) {
    && node.Some?
    && node.value.plan.instructions != []
    && node.value.appliedPlan.Some?
    && node.value.plan.error == ""
    && node.value.healthy
    && node.value.inSync
  }

  /** The plan was applied, yet its probes have never passed. */
  predicate NeverHealthy(node: Node) {
    node.appliedPlan == Some(node.plan) && !node.healthy && !node.probesUsable
  }

  predicate Admitted(c: Cluster, r: Reconcilable, concurrency: int, unavailable: int)
    requires r.node.Some?
  {
    InDrain(c, r.name) || r.node.value.failed || concurrency == 0 || unavailable < concurrency ||
    NeverHealthy(r.node.value)
  }

  /** A limit of nothing is no limit: a percentage that is not negative comes to it exactly when it is zero, or when the
      tier counts no machine, and then every major change is admitted, however many machines are unavailable. */
  lemma ZeroIsNoLimit(c: Cluster, r: Reconcilable, p: real, count: nat, unavailable: int)
    requires r.node.Some? && p >= 0.0
    ensures Allowed(Percent(p), count) == Some(0) <==> p == 0.0 || count == 0
    ensures Allowed(Percent(p), count) == Some(0) ==> Admitted(c, r, Share(count, p), unavailable)
  {
    var x := count as real * (p / 100.0);
    if p > 0.0 && count > 0 {
      assert x >= 1.0 * (p / 100.0) > 0.0;
    }
  }

  function Said(t: Tally, m: string): Tally {
    t.(noisy := t.noisy + {m})
  }

  /** The summary of the machine is noted, with the plan status as one more message. */
  function Summarized(t: Tally, r: Reconcilable): Tally {
    if r.name !in t.cluster.machines then t else
    var summary := t.cluster.machines[r.name].summary;
    t.(errMachines := if summary.error then t.errMachines + [r.name] else t.errMachines,
       nonReady := if summary.transitioning then t.nonReady + [r.name] else t.nonReady,
       noisy := if summary.message || !Quiet(r.node) then t.noisy + {r.name} else t.noisy - {r.name})
  }

  function Written(t: Tally, r: Reconcilable): (t': Tally)
    ensures OnlyTouches(t.cluster, t'.cluster, {r.name})
  {
    var w := PlanUpdate(t.cluster, r.name, r.node, r.desired, r.joinedURL, -1, 1);
    t.(cluster := w.cluster, err := w.err)
  }

  /** The annotations a are stored; an error of the store ends the loop. */
  function Annotated(t: Tally, r: Reconcilable, a: Annotations): (t': Tally)
    requires r.name in t.cluster.secrets
    ensures OnlyTouches(t.cluster, t'.cluster, {r.name})
  {
    var s := t.cluster.secrets[r.name];
    if a == s.annotations then t else
    var w := Reload(t.cluster, r.name, s.(annotations := a), r.node);
    t.(cluster := w.cluster, err := w.err)
  }

  /** A machine with a major change that has been admitted. */
  function Disrupted(t: Tally, r: Reconcilable, options: DrainOptions): (t': Tally)
    requires r.name in t.cluster.secrets && r.name in t.cluster.machines && r.node.Some?
    ensures OnlyTouches(t.cluster, t'.cluster, {r.name})
  {
    var counted := t.(unavailable := if IsUnavailable(t.cluster, r) then t.unavailable else t.unavailable + 1);
    var answer := PlannerDrain.Drain(t.cluster.secrets[r.name].annotations, t.cluster.machines[r.name].nodeRef,
                                     r.node.value.appliedPlan, r.desired, |t.cluster.machines| == 1, options);
    var stored := Annotated(counted, r, answer.annotations);
    if stored.err != Nil then stored
    else if answer.ok && !answer.failed then
      var written := Written(stored, r);
      if written.err != Nil then written
      else if written.cluster.secrets[r.name].annotations.drainDone != Blank then Said(written, r.name)
      else if Quiet(r.node) then Said(written, r.name)
      else written
    else Said(stored.(draining := stored.draining + [r.name]), r.name)
  }

  /** A machine that holds its desired plan, applied and healthy: the drain handshake is brought to its end. */
  function Settled(t: Tally, r: Reconcilable, g: Settings): (t': Tally)
    requires r.name in t.cluster.secrets && r.name in t.cluster.machines
    ensures OnlyTouches(t.cluster, t'.cluster, {r.name})
  {
    var answer := PlannerDrain.Undrain(t.cluster.secrets[r.name].annotations);
    var stored := Annotated(t, r, answer.annotations);
    if stored.err != Nil then stored
    else if !answer.ok || answer.failed then Said(stored.(uncordoned := stored.uncordoned + [r.name]), r.name)
    else if g.agentConnected && !stored.cluster.machines[r.name].kubeletUpToDate then
      Said(stored.(outOfSync := stored.outOfSync + [r.name]), r.name)
    else if Matches(stored.cluster, ControlPlane, r.name) && !g.agentConnected then
      Said(stored.(outOfSync := stored.outOfSync + [r.name]), r.name)
    else stored.(ready := stored.ready + [r.name])
  }

  function Visited(t: Tally, r: Reconcilable, concurrency: int, options: DrainOptions, g: Settings): (t': Tally)
    requires r.name in t.cluster.secrets && r.name in t.cluster.machines
    ensures OnlyTouches(t.cluster, t'.cluster, {r.name})
  {
    var s := Summarized(t, r);
    if r.node.None? || r.minorChange then Written(s.(outOfSync := s.outOfSync + [r.name]), r)
    else if r.change then
      var o := s.(outOfSync := s.outOfSync + [r.name]);
      if Admitted(o.cluster, r, concurrency, o.unavailable) then Disrupted(o, r, options) else o
    else if !Quiet(r.node) then s.(outOfSync := s.outOfSync + [r.name])
    else Settled(s, r, g)
  }

  ghost predicate Known(c: Cluster, rs: seq<Reconcilable>) {
    forall i :: 0 <= i < |rs| ==> rs[i].name in c.secrets && rs[i].name in c.machines
  }

  /** The loop; it stops at the first error. */
  ghost function Scheduled(t: Tally, rs: seq<Reconcilable>, concurrency: int, options: DrainOptions, g: Settings): Tally
    requires Known(t.cluster, rs)
    decreases |rs|
  {
    if rs == [] || t.err != Nil then t else
    var t' := Visited(t, rs[0], concurrency, options, g);
    assert forall i :: 0 <= i < |rs[1..]| ==> rs[1..][i] == rs[i + 1];
    Scheduled(t', rs[1..], concurrency, options, g)
  }

  // ---------------------------------------------------------------- the verdict

  predicate Pending(machine: Machine, noisy: bool) {
    !machine.infrastructureReady || noisy || !machine.reconciled
  }

  /** The condition of the machine has to be changed, and storing it fails. */
  predicate UpdateFails(machine: Machine, m: string, noisy: bool, g: Settings) {
    machine.infrastructureReady && (noisy || !machine.reconciled) && g.statusFails(m)
  }

  /** The error of setMachineConditionStatus for these machines. */
  function ConditionErr(c: Cluster, names: seq<string>, noisy: set<string>, g: Settings): Err {
    if exists m :: m in names && (m !in c.machines || UpdateFails(c.machines[m], m, m in noisy, g)) then Other
    else if exists m :: m in names && Pending(c.machines[m], m in noisy) then Waiting
    else Nil
  }

  function First(a: Err, b: Err): Err {
    if a != Nil then a else b
  }

  function Verdict(t: Tally, required: bool, none: bool, g: Settings): Err {
    if t.err != Nil then Other
    else if required && none then Waiting
    else
      var first := First(ConditionErr(t.cluster, t.uncordoned, t.noisy, g),
                   First(ConditionErr(t.cluster, t.draining, t.noisy, g),
                   First(ConditionErr(t.cluster, t.outOfSync, t.noisy, g),
                         ConditionErr(t.cluster, t.ready, {}, g))));
      if first != Nil then first
      else if t.errMachines != [] || t.nonReady != [] then Ignore
      else Nil
  }

  function StartTally(c: Cluster, unavailable: int): Tally {
    Tally(c, unavailable, [], [], [], [], [], [], {}, Nil)
  }

  /** The names that are not excluded. */
  function Kept(c: Cluster, names: seq<string>, exclude: Filter): seq<string> {
    if names == [] then []
    else if Matches(c, exclude, names[0]) then Kept(c, names[1..], exclude)
    else [names[0]] + Kept(c, names[1..], exclude)
  }

  lemma {:induction false} KeptElements(c: Cluster, names: seq<string>, exclude: Filter)
    ensures forall m :: m in Kept(c, names, exclude) <==> m in names && !Matches(c, exclude, m)
    ensures Names.NoDuplicates(names) ==> Names.NoDuplicates(Kept(c, names, exclude))
  {
    hide Matches;
    if names != [] {
      KeptElements(c, names[1..], exclude);
      var x, rest := names[0], Kept(c, names[1..], exclude);
      assert names == [x] + names[1..];
      if Names.NoDuplicates(names) {
        assert forall i, j :: 0 <= i < j < |names[1..]| ==>
          names[1..][i] == names[i + 1] && names[1..][j] == names[j + 1];
        assert Names.NoDuplicates(names[1..]);
        assert forall i :: 0 <= i < |names[1..]| ==> names[1..][i] == names[i + 1] && names[i + 1] != x;
        assert x !in names[1..] && x !in rest;
      }
    }
  }

  /** The reconcilables are those of the kept names, in the same order. */
  lemma {:induction false} GatheredKept(c: Cluster, names: seq<string>, exclude: Filter, joinURL: string, g: Settings)
    requires Listed(c, names)
    ensures var rs := Gathered(c, names, exclude, joinURL, g);
      rs.Good? ==>
        && |rs.value| == |Kept(c, names, exclude)|
        && forall i :: 0 <= i < |rs.value| ==>
             && rs.value[i].name == Kept(c, names, exclude)[i]
             && rs.value[i] == MakeReconcilable(c, rs.value[i].name, rs.value[i].desired, rs.value[i].joinedURL)
  {
    hide Prepared, Matches, MakeReconcilable;
    if names != [] {
      var rest := Gathered(c, names[1..], exclude, joinURL, g);
      GatheredKept(c, names[1..], exclude, joinURL, g);
      if !Matches(c, exclude, names[0]) && Prepared(c, names[0], joinURL, g).Good? && rest.Good? {
        var r := Prepared(c, names[0], joinURL, g).value;
        var all, kept := [r] + rest.value, [names[0]] + Kept(c, names[1..], exclude);
        forall i | 0 <= i < |all|
          ensures all[i].name == kept[i]
          ensures all[i] == MakeReconcilable(c, all[i].name, all[i].desired, all[i].joinedURL)
        {
          if i > 0 { assert all[i] == rest.value[i - 1] && kept[i] == Kept(c, names[1..], exclude)[i - 1]; }
        }
      }
    }
  }

  lemma GatheredKnown(c: Cluster, names: seq<string>, exclude: Filter, joinURL: string, g: Settings)
    requires Listed(c, names)
    ensures var rs := Gathered(c, names, exclude, joinURL, g);
      rs.Good? ==> Known(c, rs.value)
  {
    GatheredKept(c, names, exclude, joinURL, g);
    KeptElements(c, names, exclude);
    var rs := Gathered(c, names, exclude, joinURL, g);
    if rs.Good? {
      forall i | 0 <= i < |rs.value| ensures rs.value[i].name in names {
        assert rs.value[i].name in Kept(c, names, exclude);
      }
    }
  }

  /** reconcile: the first loop prepares every entry, then the budget is worked out, then the second loop acts. */
  ghost function Reconciled(c: Cluster, tier: Tier, g: Settings): Outcome
    requires Listed(c, Collected(c, tier.filter))
  {
    var names := Collected(c, tier.filter);
    match Gathered(c, names, tier.exclude, tier.joinURL, g)
    case Bad(err) => Outcome(c, err)
    case Good(rs) =>
      GatheredKnown(c, names, tier.exclude, tier.joinURL, g);
      match Allowed(tier.maxUnavailable, Counted(c, rs, tier.exclude))
      case None => Outcome(c, Other)
      case Some(concurrency) =>
        var t := Scheduled(StartTally(c, UnavailableCount(c, rs)), rs, concurrency, tier.options, g);
        Outcome(t.cluster, Verdict(t, tier.required, names == [], g))
  }
}
