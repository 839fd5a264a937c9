/** What the strategy says is what each tier works with, and so a major change waits for the drain of its machine. */
module TierSettings {
  import opened Model
  import opened PlanEntry
  import opened Store
  import opened Scheduler
  import opened Budget
  import opened ControlPlane
  import opened FullReconcile
  import opened Gating
  import opened InitNode
  import InitNodeRuns
  import Availability
  import TierOutcomes
  import Roster
  import ClusterBudget
  import PassRuns
  import Process
  import Exclusivity
  import PlanChange
  import PlannerDrain

  // ---------------------------------------------------------------- the four tiers

  /** The i-th tier, from the strategy and the join URL of the init node. While the limits are ignored, each tier works
      with the default limit and without drains. */
  predicate AsSet(tier: Tier, i: nat, s: Strategy, ignore: bool, url: string) {
    var none := DrainOptions(false, [], [], "");
    var serverDrain := if ignore then none else s.controlPlaneDrain;
    var workerDrain := if ignore then none else s.workerDrain;
    match i
    case 0 =>
      tier == Tier(true, Etcd, IS_NOT_INIT_NODE_OR_IS_DELETING, Number(1), "", serverDrain)
    case 1 =>
      tier == Tier(true, Etcd, IS_INIT_NODE_OR_DELETING, Number(1), url, serverDrain)
    case 2 =>
      tier == Tier(true, Filter.ControlPlane, IS_INIT_NODE_OR_DELETING,
                   if ignore then Unset else s.controlPlaneConcurrency, url, serverDrain)
    case 3 =>
      tier == Tier(false, IS_ONLY_WORKER, IS_INIT_NODE_OR_DELETING,
                   if ignore then Unset else s.workerConcurrency, "", workerDrain)
    case _ => false
  }

  ghost predicate AllSet(tiers: seq<Ran>, s: Strategy, ignore: bool, url: string) {
    forall i :: 0 <= i < |tiers| ==> AsSet(tiers[i].tier, i, s, ignore, url)
  }

  lemma SetMore(done: seq<Ran>, t: Ran, s: Strategy, ignore: bool, url: string)
    requires AllSet(done, s, ignore, url) && AsSet(t.tier, |done|, s, ignore, url)
    ensures AllSet(done + [t], s, ignore, url)
  {
    hide AsSet;
    assert forall i :: 0 <= i < |done| ==> (done + [t])[i] == done[i];
  }

  lemma WorkersSet(cp: Object, status: Status, c: Cluster, ignore: bool, seen: bool, w: World, done: seq<Ran>,
                   url: string)
    requires AllSet(done, cp.spec.strategy, ignore, url) && |done| == 3
    ensures AllSet(Available(cp, status, c, LimitsOf(cp.spec.strategy, ignore), seen, w, done).tiers, cp.spec.strategy,
                   ignore, url)
  {
    hide AllSet, Reconciled, Matches, SettingsOf;
    TierListed(c, IS_ONLY_WORKER);
    var t := RanOf(c, WorkerTier(LimitsOf(cp.spec.strategy, ignore)), SettingsOf(cp, w));
    SetMore(done, t, cp.spec.strategy, ignore, url);
  }

  lemma ControlPlanesSet(cp: Object, status: Status, c: Cluster, ignore: bool, url: string, seen: bool, w: World,
                         done: seq<Ran>)
    requires AllSet(done, cp.spec.strategy, ignore, url) && |done| == 2
    ensures AllSet(ControlPlanes(cp, status, c, LimitsOf(cp.spec.strategy, ignore), url, seen, w, done).tiers,
                   cp.spec.strategy, ignore, url)
  {
    hide AllSet, Reconciled, Matches, SettingsOf, Available, IgnoreErrors;
    TierListed(c, Filter.ControlPlane);
    var t := RanOf(c, ControlPlaneTier(url, LimitsOf(cp.spec.strategy, ignore)), SettingsOf(cp, w));
    SetMore(done, t, cp.spec.strategy, ignore, url);
    WorkersSet(cp, status, t.cluster, ignore, IgnoreErrors(seen, t.err).seen, w, done + [t], url);
  }

  lemma EtcdsSet(cp: Object, status: Status, c: Cluster, ignore: bool, url: string, seen: bool, w: World,
                 done: seq<Ran>)
    requires AllSet(done, cp.spec.strategy, ignore, url) && |done| == 1
    ensures AllSet(Etcds(cp, status, c, LimitsOf(cp.spec.strategy, ignore), url, seen, w, done).tiers,
                   cp.spec.strategy, ignore, url)
  {
    hide AllSet, Reconciled, Matches, SettingsOf, ControlPlanes, IgnoreErrors;
    TierListed(c, Etcd);
    var t := RanOf(c, EtcdTier(url, LimitsOf(cp.spec.strategy, ignore).controlPlaneDrain), SettingsOf(cp, w));
    SetMore(done, t, cp.spec.strategy, ignore, url);
    ControlPlanesSet(cp, status, t.cluster, ignore, url, IgnoreErrors(seen, t.err).seen, w, done + [t]);
  }

  // ---------------------------------------------------------------- the join URL

  /** m is the init node, by its mark, and by its id if that is fixed; and this is its join URL. */
  ghost predicate IsInitNode(c: Cluster, m: string, fixed: string, url: string) {
    && m in c.secrets && m in c.machines && c.secrets[m].labels.initNode == "true"
    && c.secrets[m].annotations.joinURL == url
    && (if fixed != "" then c.secrets[m].labels.machineId == fixed
        else forall x :: x in c.machines && x in c.secrets && c.secrets[x].labels.initNode == "true" ==> x == m)
  }

  lemma FoundIs(c: Cluster, fixed: string) returns (m: string)
    ensures var f := FoundInitNode(c, fixed);
      f.err == Nil ==> IsInitNode(c, m, fixed, f.joinURL)
  {
    hide ClearedMarks;
    m := "";
    InitNodeRuns.FoundRelabels(c, fixed);
    if FoundInitNode(c, fixed).err == Nil {
      if fixed != "" {
        m := Collected(c, LabelledId(fixed))[0];
        assert m in Collected(c, LabelledId(fixed));
      } else {
        var marked := Collected(c, PlanEntry.InitNode);
        m := marked[0];
        assert m in marked;
        forall x | x in c.machines && x in c.secrets && c.secrets[x].labels.initNode == "true" ensures x == m {
          assert x in marked;
        }
      }
    }
  }

  lemma ElectedIs(c: Cluster, fixed: string) returns (m: string)
    ensures var e := Elected(c, fixed, true);
      e.err == Nil ==> IsInitNode(c, m, fixed, e.joinURL)
  {
    hide IsInitNode, FoundInitNode, ClearedMarks, Vote, Matches, Roster.FoundRests;
    Roster.ElectedNil(c, fixed);
    Roster.FoundNil(c, fixed);
    InitNodeRuns.FoundRelabels(c, fixed);
    m := FoundIs(c, fixed);
  }

  lemma MinorKeepsInitNode(c: Cluster, c': Cluster, m: string, fixed: string, url: string)
    requires MinorOnly(c, c') && IsInitNode(c', m, fixed, url)
    ensures IsInitNode(c, m, fixed, url)
  {
    hide PlanChange.MinorChange;
    assert MinorSecret(c, c.secrets[m], c'.secrets[m], m);
    forall x | x in c.secrets ensures c'.secrets[x].labels == c.secrets[x].labels {
      assert MinorSecret(c, c.secrets[x], c'.secrets[x], x);
    }
  }

  lemma JoiningSet(c0: Cluster, cp: Object, status: Status, c: Cluster, ignore: bool, elected: string, seen: bool,
                   w: World, done: seq<Ran>, e: string) returns (url: string, m: string)
    requires |done| == 1 && (forall u :: AllSet(done, cp.spec.strategy, ignore, u)) && MinorOnly(c0, c)
    requires elected != "" ==> IsInitNode(c0, e, cp.fixedInitNode, elected)
    ensures var f := Joining(cp, status, c, LimitsOf(cp.spec.strategy, ignore), elected, seen, w, done);
      && AllSet(f.tiers, cp.spec.strategy, ignore, url)
      && (|f.tiers| > 1 ==> url != "" && IsInitNode(c0, m, cp.fixedInitNode, url))
  {
    hide AllSet, Etcds, FoundInitNode, LimitsOf, IsInitNode, MinorOnly;
    url, m := elected, e;
    if elected != "" {
      EtcdsSet(cp, status, c, ignore, url, seen, w, done);
    } else {
      var f := FoundInitNode(c, cp.fixedInitNode);
      url := f.joinURL;
      InitNodeRuns.FoundRelabels(c, cp.fixedInitNode);
      m := FoundIs(c, cp.fixedInitNode);
      if f.err == Nil {
        MinorKeepsInitNode(c0, c, m, cp.fixedInitNode, url);
        EtcdsSet(cp, status, f.cluster, ignore, url, seen, w, done);
      }
    }
  }

  /** Every tier that full reconciliation reaches is the one that the strategy describes. The machines of the second and
      the third tier are sent to the init node of the cluster, which has a join URL; those of the first and the last
      tier are not told whom to join. */
  lemma TiersAreAsSet(cp: Object, status: Status, c: Cluster, ignore: bool, w: World) returns (url: string, m: string)
    ensures var f := FullyReconciled(cp, status, c, ignore, w);
      && AllSet(f.tiers, cp.spec.strategy, ignore, url)
      && (|f.tiers| > 1 ==> url != "" && IsInitNode(c, m, cp.fixedInitNode, url))
  {
    hide Reconciled, Elected, Joining, Matches, SettingsOf, IsInitNode, IgnoreErrors, MinorOnly,
         InitNodeRuns.Relabelled;
    InitNodeRuns.ElectedRelabels(c, cp.fixedInitNode, true);
    var e := Elected(c, cp.fixedInitNode, true);
    url := "";
    m := ElectedIs(c, cp.fixedInitNode);
    if e.err == Nil {
      TierListed(c, Etcd);
      var limits := LimitsOf(cp.spec.strategy, ignore);
      var tier := BootstrapTier(limits.controlPlaneDrain);
      var t := RanOf(c, tier, SettingsOf(cp, w));
      QuietTierIsMinor(c, tier, SettingsOf(cp, w));
      var i := IgnoreErrors(false, t.err);
      IgnoredIsQuiet(false, t.err);
      if i.err == Nil {
        url, m := JoiningSet(c, cp, status.(bootstrapped := Yes), t.cluster, ignore, e.joinURL, i.seen, w, [t], m);
      }
    }
  }

  lemma IgnoredIsQuiet(seen: bool, err: Err)
    ensures IgnoreErrors(seen, err).err == Nil <==> err == Nil || err == Ignore
  {
  }

  // ---------------------------------------------------------------- a major change waits for the drain

  /** These options ask for something: a drain, which a single machine is spared, or hooks. */
  predicate Asks(o: DrainOptions, machines: nat) {
    (o.enabled && machines != 1) || o.preDrainHooks != [] || o.postDrainHooks != []
  }

  /** The drain that these options ask for is the one requested, is recorded as done, and left no error to report. */
  predicate DrainDone(a: Annotations, o: DrainOptions, machines: nat) {
    && a.drain == a.drainDone == Options(if machines == 1 then o.(enabled := false) else o)
    && !PlannerDrain.DrainErrorReported(a)
  }

  /** The machine has no node yet, or nothing is asked, or the restart stamp stays the same, or the drain is done. */
  predicate Cleared(a: Annotations, nodeRef: Option<string>, o: DrainOptions, machines: nat, applied: Option<NodePlan>,
                    plan: NodePlan) {
    || nodeRef.None? || !Asks(o, machines)
    || applied.None? || PlanChange.RestartStamp(applied.value) == PlanChange.RestartStamp(plan)
    || DrainDone(a, o, machines)
  }

  /** A new plan in s' is minor against the one on the node, or its way is clear. */
  ghost predicate ChangeCleared(c: Cluster, s: Secret, s': Secret, m: string, o: DrainOptions)
    requires m in c.nodes && m in c.machines
  {
    s'.plan != s.plan ==>
      && s'.plan.Encoded?
      && (|| PlanChange.MinorChange(c.nodes[m].plan, s'.plan.value)
          || Cleared(s.annotations, c.machines[m].nodeRef, o, |c.machines|, c.nodes[m].appliedPlan, s'.plan.value))
  }

  lemma VisitCleared(t: Tally, r: Reconcilable, concurrency: int, options: DrainOptions, g: Settings)
    requires r.name in t.cluster.secrets && r.name in t.cluster.machines && r.name in t.cluster.nodes && t.err == Nil
    requires r == MakeReconcilable(t.cluster, r.name, r.desired, r.joinedURL)
    ensures var s, s' := t.cluster.secrets[r.name], Visited(t, r, concurrency, options, g).cluster.secrets[r.name];
      ChangeCleared(t.cluster, s, s', r.name, options)
  {
    hide Disrupted, Settled, Quiet, PlanChange.MinorChange, PlanChange.RestartStamp, PlannerDrain.DrainErrorReported,
         SecretToNode, IsUnavailable;
    var s := Summarized(t, r);
    var o := s.(outOfSync := s.outOfSync + [r.name]);
    DisruptedWrites(o, r, options);
    SettledBudget(s, r, g);
  }

  lemma {:induction false} LoopCleared(t: Tally, rs: seq<Reconcilable>, concurrency: int, options: DrainOptions,
                                       g: Settings, i: nat)
    requires Known(t.cluster, rs) && Distinct(rs) && t.err == Nil && i < |rs| && rs[i].name in t.cluster.nodes
    requires rs[i] == MakeReconcilable(t.cluster, rs[i].name, rs[i].desired, rs[i].joinedURL)
    ensures var c' := Scheduled(t, rs, concurrency, options, g).cluster;
      rs[i].name in c'.secrets &&
      ChangeCleared(t.cluster, t.cluster.secrets[rs[i].name], c'.secrets[rs[i].name], rs[i].name, options)
    decreases |rs|
  {
    hide Visited, Cleared, PlanChange.MinorChange;
    var r, rest, m := rs[0], rs[1..], rs[i].name;
    var t1 := Visited(t, r, concurrency, options, g);
    LoopFrame(t1, rest, concurrency, options, g, m);
    assert forall j :: 0 <= j < |rest| ==> rest[j] == rs[j + 1];
    if i == 0 {
      VisitCleared(t, r, concurrency, options, g);
    } else if t1.err == Nil {
      LoopCleared(t1, rest, concurrency, options, g, i - 1);
    }
  }

  /** One tier: a machine that it plans for gets a new plan only when the change is minor or its way is clear. */
  lemma TierCleared(c: Cluster, tier: Tier, g: Settings, m: string)
    requires Listed(c, Collected(c, tier.filter)) && m in c.machines && m in c.nodes && m in c.secrets
    ensures var c' := Reconciled(c, tier, g).cluster;
      && m in c'.secrets && ChangeCleared(c, c.secrets[m], c'.secrets[m], m, tier.options)
      && (!Inside(c, tier, m) ==> c'.secrets[m] == c.secrets[m])
  {
    hide Scheduled, Gathered, Inside, MakeReconcilable, ChangeCleared;
    SameCleared(c, c.secrets[m], m, tier.options);
    BesideKept(c, tier, g, m);
    if Inside(c, tier, m) && Gathered(c, Collected(c, tier.filter), tier.exclude, tier.joinURL, g).Good? {
      var rs := Batch(c, tier, g);
      BatchInside(c, tier, g, m);
      BatchDistinct(c, tier, g);
      var i :| 0 <= i < |rs| && rs[i].name == m;
      var allowed := Allowed(tier.maxUnavailable, Counted(c, rs, tier.exclude));
      if allowed.Some? {
        LoopCleared(StartTally(c, UnavailableCount(c, rs)), rs, allowed.value, tier.options, g, i);
      }
    }
  }

  lemma SameCleared(c: Cluster, s: Secret, m: string, o: DrainOptions)
    requires m in c.nodes && m in c.machines
    ensures ChangeCleared(c, s, s, m, o)
  {
  }

  // ---------------------------------------------------------------- what a drain is requested for

  /** The drain that these options ask for was requested, on a node that is there, for a plan with another restart stamp
      than the applied one has. */
  predicate RequestFits(c: Cluster, s': Secret, m: string, o: DrainOptions, plan: NodePlan)
    requires m in c.nodes && m in c.machines
  {
    && c.machines[m].nodeRef.Some? && Asks(o, |c.machines|)
    && c.nodes[m].appliedPlan.Some?
    && PlanChange.RestartStamp(c.nodes[m].appliedPlan.value) != PlanChange.RestartStamp(plan)
    && c.nodes[m].plan != plan
    && s'.annotations.drain == Options(if |c.machines| == 1 then o.(enabled := false) else o)
  }

  lemma DisruptedRequests(t: Tally, r: Reconcilable, options: DrainOptions)
    requires r.name in t.cluster.secrets && r.name in t.cluster.machines && r.node.Some?
    ensures var s, s' := t.cluster.secrets[r.name], Disrupted(t, r, options).cluster.secrets[r.name];
      var applied, single := r.node.value.appliedPlan, |t.cluster.machines| == 1;
      s'.annotations.drain != s.annotations.drain ==>
        && t.cluster.machines[r.name].nodeRef.Some? && Asks(options, |t.cluster.machines|) && applied.Some?
        && PlanChange.RestartStamp(applied.value) != PlanChange.RestartStamp(r.desired)
        && s'.annotations.drain == Options(if single then options.(enabled := false) else options)
  {
    hide Quiet, PlanChange.RestartStamp, PlannerDrain.DrainErrorReported, SecretToNode, IsUnavailable;
  }

  lemma SettledKeepsRequest(t: Tally, r: Reconcilable, g: Settings)
    requires r.name in t.cluster.secrets && r.name in t.cluster.machines
    ensures Settled(t, r, g).cluster.secrets[r.name].annotations.drain ==
            t.cluster.secrets[r.name].annotations.drain
  {
    hide SecretToNode, Matches, PlannerDrain.DrainErrorReported;
  }

  lemma VisitRequests(t: Tally, r: Reconcilable, concurrency: int, options: DrainOptions, g: Settings)
    requires r.name in t.cluster.secrets && r.name in t.cluster.machines && r.name in t.cluster.nodes && t.err == Nil
    requires r == MakeReconcilable(t.cluster, r.name, r.desired, r.joinedURL)
    ensures var s, s' := t.cluster.secrets[r.name], Visited(t, r, concurrency, options, g).cluster.secrets[r.name];
      s'.annotations.drain != s.annotations.drain ==> RequestFits(t.cluster, s', r.name, options, r.desired)
  {
    hide Quiet, Disrupted, Settled, PlanChange.MinorChange, PlanChange.RestartStamp, SecretToNode, IsUnavailable, Asks;
    var s := Summarized(t, r);
    var o := s.(outOfSync := s.outOfSync + [r.name]);
    DisruptedRequests(o, r, options);
    SettledKeepsRequest(s, r, g);
  }

  lemma {:induction false} LoopRequests(t: Tally, rs: seq<Reconcilable>, concurrency: int, options: DrainOptions,
                                        g: Settings, i: nat)
    requires Known(t.cluster, rs) && Distinct(rs) && t.err == Nil && i < |rs| && rs[i].name in t.cluster.nodes
    requires rs[i] == MakeReconcilable(t.cluster, rs[i].name, rs[i].desired, rs[i].joinedURL)
    ensures var s, c' := t.cluster.secrets[rs[i].name], Scheduled(t, rs, concurrency, options, g).cluster;
      rs[i].name in c'.secrets &&
      (c'.secrets[rs[i].name].annotations.drain != s.annotations.drain ==>
         RequestFits(t.cluster, c'.secrets[rs[i].name], rs[i].name, options, rs[i].desired))
    decreases |rs|
  {
    hide Visited, RequestFits, MakeReconcilable;
    var r, rest, m := rs[0], rs[1..], rs[i].name;
    var t1 := Visited(t, r, concurrency, options, g);
    LoopFrame(t1, rest, concurrency, options, g, m);
    assert forall j :: 0 <= j < |rest| ==> rest[j] == rs[j + 1];
    if i == 0 {
      VisitRequests(t, r, concurrency, options, g);
    } else if t1.err == Nil {
      MadeSame(t.cluster, t1.cluster, rs[i]);
      LoopRequests(t1, rest, concurrency, options, g, i - 1);
      var c' := Scheduled(t, rs, concurrency, options, g).cluster;
      FitsSame(t.cluster, t1.cluster, c'.secrets[m], m, options, rs[i].desired);
    }
  }

  lemma MadeSame(c: Cluster, c': Cluster, r: Reconcilable)
    requires c'.nodes == c.nodes && r == MakeReconcilable(c, r.name, r.desired, r.joinedURL)
    ensures r == MakeReconcilable(c', r.name, r.desired, r.joinedURL)
  {
    hide PlanChange.MinorChange;
  }

  lemma FitsSame(c: Cluster, c': Cluster, s: Secret, m: string, o: DrainOptions, plan: NodePlan)
    requires c'.nodes == c.nodes && c'.machines == c.machines && m in c.nodes && m in c.machines
    ensures RequestFits(c', s, m, o, plan) <==> RequestFits(c, s, m, o, plan)
  {
  }

  /** One tier: a drain is requested from a machine only when the options ask for one and its desired plan restarts
      it. */
  lemma TierRequests(c: Cluster, tier: Tier, g: Settings, m: string)
    requires Listed(c, Collected(c, tier.filter)) && m in c.machines && m in c.nodes && m in c.secrets
    ensures var c' := Reconciled(c, tier, g).cluster;
      m in c'.secrets &&
      (c'.secrets[m].annotations.drain != c.secrets[m].annotations.drain ==>
         exists plan :: Availability.Goal(c, tier, g, m) == Some(plan) &&
                        RequestFits(c, c'.secrets[m], m, tier.options, plan))
  {
    hide Scheduled, Gathered, Inside, MakeReconcilable, RequestFits, Availability.Goal;
    BesideKept(c, tier, g, m);
    if Inside(c, tier, m) && Gathered(c, Collected(c, tier.filter), tier.exclude, tier.joinURL, g).Good? {
      var rs := Batch(c, tier, g);
      BatchInside(c, tier, g, m);
      Availability.BatchAims(c, tier, g);
      var i :| 0 <= i < |rs| && rs[i].name == m;
      var allowed := Allowed(tier.maxUnavailable, Counted(c, rs, tier.exclude));
      if allowed.Some? {
        LoopRequests(StartTally(c, UnavailableCount(c, rs)), rs, allowed.value, tier.options, g, i);
      }
    }
  }

  // ---------------------------------------------------------------- over all tiers

  /** The drain that is in force for machines with these labels. */
  function DrainFor(s: Strategy, l: Labels): DrainOptions {
    if l.etcd || l.controlPlane then s.controlPlaneDrain else s.workerDrain
  }

  lemma ServedDrain(c: Cluster, tier: Tier, i: nat, s: Strategy, url: string, m: string)
    requires AsSet(tier, i, s, false, url) && ClusterBudget.Serves(c, i, m)
    ensures tier.options == DrainFor(s, c.secrets[m].labels)
  {
  }

  /** One more tier with minor changes at most. */
  lemma MinorThen(c: Cluster, c': Cluster, s1: Secret, s2: Secret, m: string, o: DrainOptions)
    requires m in c.nodes && m in c.machines && m in c.secrets
    requires c'.machines == c.machines && c'.nodes == c.nodes
    requires ChangeCleared(c, c.secrets[m], s1, m, o) && ChangeCleared(c', s1, s2, m, o)
    requires s1.annotations.drain == c.secrets[m].annotations.drain
    requires s1.annotations.drainDone == c.secrets[m].annotations.drainDone
    requires s1.annotations.drainError == c.secrets[m].annotations.drainError
    ensures ChangeCleared(c, c.secrets[m], s2, m, o)
  {
    hide PlanChange.MinorChange, PlanChange.RestartStamp;
  }

  /** The secret only saw minor changes, which leave its drain alone. */
  ghost predicate SawMinor(c: Cluster, c': Cluster, m: string)
    requires m in c.nodes && m in c.machines && m in c.secrets
  {
    && c'.machines == c.machines && c'.nodes == c.nodes && m in c'.secrets
    && (forall o :: ChangeCleared(c, c.secrets[m], c'.secrets[m], m, o))
    && c'.secrets[m].annotations.drain == c.secrets[m].annotations.drain
    && c'.secrets[m].annotations.drainDone == c.secrets[m].annotations.drainDone
    && c'.secrets[m].annotations.drainError == c.secrets[m].annotations.drainError
  }

  lemma SawMore(c: Cluster, c': Cluster, c'': Cluster, m: string)
    requires m in c.nodes && m in c.machines && m in c.secrets
    requires SawMinor(c, c', m) && MinorOnly(c', c'')
    ensures SawMinor(c, c'', m)
  {
    hide PlanChange.MinorChange, PlanChange.RestartStamp;
    assert MinorSecret(c', c'.secrets[m], c''.secrets[m], m);
    forall o ensures ChangeCleared(c, c.secrets[m], c''.secrets[m], m, o) {
      assert ChangeCleared(c, c.secrets[m], c'.secrets[m], m, o);
    }
  }

  /** Until the last tier of a pass. */
  lemma {:induction false} BeforeMinor(c: Cluster, tiers: seq<Ran>, g: Settings, j: nat, m: string)
    requires m in c.nodes && m in c.machines && m in c.secrets
    requires InOrder(c, tiers, g) && j < |tiers| && Passed(c, tiers[..|tiers| - 1])
    ensures SawMinor(c, tiers[j].before, m)
  {
    hide Passed, InOrder, MinorOnly, ChangeCleared;
    if j == 0 {
      ClusterBudget.FirstBefore(c, tiers, g);
      forall o ensures ChangeCleared(c, c.secrets[m], c.secrets[m], m, o) {
        SameCleared(c, c.secrets[m], m, o);
      }
    } else {
      BeforeMinor(c, tiers, g, j - 1, m);
      ClusterBudget.MinorBefore(c, tiers, g, j);
      hide SawMinor;
      SawMore(c, tiers[j - 1].before, tiers[j].before, m);
    }
  }

  lemma LastCleared(c: Cluster, f: Full, g: Settings, s: Strategy, url: string, m: string)
    requires m in c.nodes && m in c.machines && m in c.secrets
    requires Gated(c, f, g) && |f.tiers| > 0 && AllSet(f.tiers, s, false, url)
    ensures var c' := f.tiers[|f.tiers| - 1].cluster;
      m in c'.secrets && ChangeCleared(c, c.secrets[m], c'.secrets[m], m, DrainFor(s, c.secrets[m].labels))
  {
    hide MinorOnly, Matches, InRole, InitNodeRuns.Relabelled, Passed, Inside, ClusterBudget.Serves, AsSet,
         ChangeCleared, Reconciled;
    var n := |f.tiers| - 1;
    var last, o := f.tiers[n], DrainFor(s, c.secrets[m].labels);
    BeforeMinor(c, f.tiers, g, n, m);
    ClusterBudget.InsideAsAtFirst(c, f, g, n);
    TierCleared(last.before, last.tier, g, m);
    assert AsSet(last.tier, n, s, false, url);
    if Inside(last.before, last.tier, m) {
      ServedDrain(c, last.tier, n, s, url, m);
      MinorThen(c, last.before, last.before.secrets[m], last.cluster.secrets[m], m, o);
    } else {
      assert ChangeCleared(c, c.secrets[m], last.before.secrets[m], m, o);
    }
  }

  /** A pass of full reconciliation that does not ignore the limits gives a machine a major change with a new restart
      stamp only when the drain that the strategy asks for on a machine of its role is done, or none is asked for: the
      control-plane drain for machines with the etcd or the control-plane role, and the worker drain for the others. */
  lemma MajorChangesAreCleared(cp: Object, status: Status, c: Cluster, w: World, m: string)
    requires m in c.nodes && m in c.machines && m in c.secrets
    ensures var c' := FullyReconciled(cp, status, c, false, w).stage.cluster;
      m in c'.secrets &&
      ChangeCleared(c, c.secrets[m], c'.secrets[m], m, DrainFor(cp.spec.strategy, c.secrets[m].labels))
  {
    hide FullyReconciled, MinorOnly, Matches, InOrder, Passed, AllSet, IsInitNode, InitNodeRuns.Relabelled;
    var f, o := FullyReconciled(cp, status, c, false, w), DrainFor(cp.spec.strategy, c.secrets[m].labels);
    FullReconcileGated(cp, status, c, false, w);
    var url, initNode := TiersAreAsSet(cp, status, c, false, w);
    var n := |f.tiers|;
    if n > 0 { LastCleared(c, f, SettingsOf(cp, w), cp.spec.strategy, url, m); }
    InitNodeRuns.RelabelledPlan(Before(c, f.tiers, n), f.stage.cluster, m);
    SameCleared(c, c.secrets[m], m, o);
  }

  /** So does every persisted pass in which no operation is under way. */
  lemma PersistedChangesAreCleared(cp: Object, c: Cluster, w: World, m: string)
    requires m in c.nodes && m in c.machines && m in c.secrets && PassRuns.OperationsRest(cp, c, w)
    ensures var c' := Process.Persisted(cp, c, w).cluster;
      m in c'.secrets &&
      ChangeCleared(c, c.secrets[m], c'.secrets[m], m, DrainFor(cp.spec.strategy, c.secrets[m].labels))
  {
    hide FullyReconciled, ChangeCleared, Process.Persisted, Exclusivity.Planned, Process.EtcdReplaced,
         PassRuns.OperationsRest;
    ClusterBudget.OrdinaryCluster(cp, c, w);
    MajorChangesAreCleared(cp, cp.status, c, w, m);
    SameCleared(c, c.secrets[m], m, DrainFor(cp.spec.strategy, c.secrets[m].labels));
  }

  /** In every pass, a machine that holds its desired plan and lets its tier go by has an up-to-date kubelet, as far as
      the status of the control plane has the agent connected; and it is not of the control plane unless it has. */
  lemma QuietTiersAreConnected(cp: Object, status: Status, c: Cluster, ignore: bool, w: World, i: nat, m: string)
    ensures var f, g := FullyReconciled(cp, status, c, ignore, w), SettingsOf(cp, w);
      i < |f.tiers| && QuietErr(f.tiers[i].err) ==>
        var b, tier := f.tiers[i].before, f.tiers[i].tier;
        && Listed(b, Collected(b, tier.filter))
        && (Gathered(b, Collected(b, tier.filter), tier.exclude, tier.joinURL, g).Good? && Inside(b, tier, m) &&
            m in b.machines && m in b.secrets ==>
              m in b.nodes &&
              (Availability.Goal(b, tier, g, m) == Some(b.nodes[m].plan) ==>
                 && (cp.status.agentConnected ==> b.machines[m].kubeletUpToDate)
                 && (b.secrets[m].labels.controlPlane ==> cp.status.agentConnected)))
  {
    hide FullyReconciled, Reconciled, Gathered, Inside, Matches, MinorOnly, InRole, Passed, InitNodeRuns.Relabelled,
         Availability.Goal;
    FullReconcileGated(cp, status, c, ignore, w);
    var f, g := FullyReconciled(cp, status, c, ignore, w), SettingsOf(cp, w);
    if i < |f.tiers| && QuietErr(f.tiers[i].err) {
      var b, tier := f.tiers[i].before, f.tiers[i].tier;
      if Gathered(b, Collected(b, tier.filter), tier.exclude, tier.joinURL, g).Good? {
        TierOutcomes.QuietIsConnected(b, tier, g, m);
      }
    }
  }
}
