/** Which machines count as unavailable, told from their secrets, and what that means for the others of their tier. */
module Availability {
  import opened Model
  import opened PlanEntry
  import opened Store
  import opened Scheduler
  import opened Budget
  import opened Gating
  import Convergence
  import Join
  import PlanChange
  import PlannerDrain

  // ---------------------------------------------------------------- what the secrets say

  /** Some step of the drain handshake is on record. */
  predicate Handshaking(a: Annotations) {
    !(a.drain == Blank && a.preDrain == Blank && a.postDrain == Blank && a.unCordon == Blank)
  }

  predicate SomeUnhealthy(s: Secret) {
    s.probeStatuses.Encoded? && exists name :: name in s.probeStatuses.value && !s.probeStatuses.value[name]
  }

  /** The machine has not applied its plan, is in the drain handshake, or runs the desired plan with a failing probe. */
  predicate Unavailable(s: Secret, desired: NodePlan) {
    || s.plan != s.appliedPlan
    || Handshaking(s.annotations)
    || (s.plan == Encoded(desired) && SomeUnhealthy(s))
  }

  /** The plan that the secret holds has failed as often as the threshold says, or once when there is none. */
  predicate Broken(s: Secret) {
    && s.failureCount.Encoded? && s.failureCount.value > 0 && s.failedChecksum == Sum(s.plan)
    && (s.failureThreshold.Encoded? ==>
          s.failureThreshold.value != -1 && s.failureCount.value >= s.failureThreshold.value)
  }

  /** The plan is applied, a probe fails, and the probes have never passed. */
  predicate Unproven(s: Secret) {
    s.plan == s.appliedPlan && SomeUnhealthy(s) && s.annotations.probesPassed == ""
  }

  /** The plan that the tier wants the machine to have. */
  ghost function Goal(c: Cluster, tier: Tier, g: Settings, m: string): Option<NodePlan>
    requires m in c.machines && m in c.secrets
  {
    match Join.DeterminedJoinURL(c, m, NodeOf(c, m), g.crc, tier.joinURL)
    case None => None
    case Some(url) =>
      match g.desired(m, c.secrets[m].labels, c.secrets[m].annotations, url)
      case RenderFails(_) => None
      case Rendered(plan, _) => Some(plan)
  }

  lemma ReadsAs(c: Cluster, r: Reconcilable)
    requires Current(c, r) && r.node.Some?
    ensures var s := c.secrets[r.name];
      && s.plan == Encoded(r.node.value.plan)
      && (IsUnavailable(c, r) <==> Unavailable(s, r.desired))
      && (InDrain(c, r.name) <==> Handshaking(s.annotations))
      && (r.node.value.failed <==> Broken(s)) && (NeverHealthy(r.node.value) <==> Unproven(s))
  {
    if r.minorChange { PlanChange.MinorChangeNeverDrains(r.node.value.plan, r.desired); }
    hide PlanChange.MinorChange;
  }

  // ---------------------------------------------------------------- the counter at the start

  /** Every planned-for machine that has a plan was read from its secret as it is. */
  ghost predicate UpToDate(c: Cluster, tier: Tier) {
    forall m :: m in c.nodes && Inside(c, tier, m) ==> Fresh(c, m)
  }

  lemma LoadedUpToDate(c: Cluster, tier: Tier)
    requires Loaded(c)
    ensures UpToDate(c, tier)
  {
    hide Loaded, Inside, Fresh;
    forall m | m in c.nodes && Inside(c, tier, m) ensures Fresh(c, m) {
      LoadedFresh(c, m);
    }
  }

  /** The machines of the tier. */
  ghost function PlannedFor(c: Cluster, tier: Tier): set<string> {
    set m | m in c.machines && Inside(c, tier, m)
  }

  /** The machines of the tier that are not available. */
  ghost function DownSet(c: Cluster, tier: Tier, g: Settings): set<string> {
    set m | m in c.nodes && m in c.machines && m in c.secrets && Inside(c, tier, m) &&
            (exists plan :: Goal(c, tier, g, m) == Some(plan) && Unavailable(c.secrets[m], plan))
  }

  ghost function DownNames(c: Cluster, rs: seq<Reconcilable>): set<string>
    requires Known(c, rs)
  {
    set i | 0 <= i < |rs| && rs[i].node.Some? && Unavailable(c.secrets[rs[i].name], rs[i].desired) :: rs[i].name
  }

  /** Each of these that has a plan was prepared from its secret as it is. */
  ghost predicate PlannedCurrent(c: Cluster, rs: seq<Reconcilable>) {
    forall i :: 0 <= i < |rs| && rs[i].node.Some? ==> Current(c, rs[i])
  }

  lemma {:induction false} CountsDown(c: Cluster, rs: seq<Reconcilable>)
    requires Known(c, rs) && Distinct(rs) && PlannedCurrent(c, rs)
    ensures UnavailableCount(c, rs) == |DownNames(c, rs)|
  {
    hide Unavailable, IsUnavailable, Current;
    if rs == [] {
      assert DownNames(c, rs) == {};
    } else {
      var r, rest := rs[0], rs[1..];
      assert forall i :: 0 <= i < |rest| ==> rest[i] == rs[i + 1];
      CountsDown(c, rest);
      var down := r.node.Some? && Unavailable(c.secrets[r.name], r.desired);
      if r.node.Some? { ReadsAs(c, r); }
      assert r.name !in DownNames(c, rest);
      var here := if down then {r.name} else {};
      forall m ensures m in DownNames(c, rs) <==> m in here || m in DownNames(c, rest) {
        if m in DownNames(c, rs) {
          var i :| 0 <= i < |rs| && rs[i].node.Some? && Unavailable(c.secrets[rs[i].name], rs[i].desired) &&
                   rs[i].name == m;
          if i > 0 { assert rest[i - 1] == rs[i]; }
        }
        if m in DownNames(c, rest) {
          var i :| 0 <= i < |rest| && rest[i].node.Some? && Unavailable(c.secrets[rest[i].name], rest[i].desired) &&
                   rest[i].name == m;
          assert rs[i + 1] == rest[i];
        }
      }
      assert DownNames(c, rs) == here + DownNames(c, rest);
    }
  }

  lemma {:induction false} CountsAll(c: Cluster, rs: seq<Reconcilable>, exclude: Filter, names: set<string>)
    requires Distinct(rs) && forall i :: 0 <= i < |rs| ==> !Matches(c, exclude, rs[i].name)
    requires forall m :: m in names <==> !Outside(rs, m)
    ensures Counted(c, rs, exclude) == |names|
  {
    hide Matches;
    if rs == [] {
      assert forall m :: Outside(rs, m);
      assert names == {};
    } else {
      var r, rest := rs[0], rs[1..];
      assert forall i :: 0 <= i < |rest| ==> rest[i] == rs[i + 1];
      assert !Outside(rs, r.name);
      forall m ensures m in names - {r.name} <==> !Outside(rest, m) {
        if m in names && m != r.name {
          var i :| 0 <= i < |rs| && rs[i].name == m;
          assert rest[i - 1].name == m;
        }
        if !Outside(rest, m) {
          var i :| 0 <= i < |rest| && rest[i].name == m;
          assert rs[i + 1].name == m;
        }
      }
      CountsAll(c, rest, exclude, names - {r.name});
    }
  }

  /** Each of these was prepared from one of the named entries. */
  ghost predicate PreparedFrom(c: Cluster, names: seq<string>, joinURL: string, g: Settings, rs: seq<Reconcilable>) {
    forall r :: r in rs ==>
      r.name in names && r.name in c.machines && r.name in c.secrets && Prepared(c, r.name, joinURL, g) == Good(r)
  }

  lemma {:induction false} GatheredPrepared(c: Cluster, names: seq<string>, exclude: Filter, joinURL: string,
                                            g: Settings)
    requires Listed(c, names)
    ensures var rs := Gathered(c, names, exclude, joinURL, g);
      rs.Good? ==> PreparedFrom(c, names, joinURL, g, rs.value)
  {
    hide Prepared, Matches, MakeReconcilable;
    if names != [] {
      var rest := Gathered(c, names[1..], exclude, joinURL, g);
      GatheredPrepared(c, names[1..], exclude, joinURL, g);
      assert names == [names[0]] + names[1..];
      if Prepared(c, names[0], joinURL, g).Good? { PreparedNamed(c, names[0], joinURL, g); }
    }
  }

  lemma PreparedNamed(c: Cluster, m: string, joinURL: string, g: Settings)
    requires m in c.machines && m in c.secrets && Prepared(c, m, joinURL, g).Good?
    ensures Prepared(c, m, joinURL, g).value.name == m
  {
  }

  lemma PreparedGoal(c: Cluster, m: string, tier: Tier, g: Settings)
    requires m in c.machines && m in c.secrets && Prepared(c, m, tier.joinURL, g).Good?
    ensures Goal(c, tier, g, m) == Some(Prepared(c, m, tier.joinURL, g).value.desired)
  {
    hide Join.DeterminedJoinURL, PlanChange.MinorChange;
  }

  /** What the batch is made of: for every machine of the tier, the plan that it is to have. */
  lemma BatchAims(c: Cluster, tier: Tier, g: Settings)
    requires Listed(c, Collected(c, tier.filter))
    ensures var rs := Batch(c, tier, g);
      && Known(c, rs) && Distinct(rs)
      && (forall i :: 0 <= i < |rs| ==>
            && Inside(c, tier, rs[i].name) && Goal(c, tier, g, rs[i].name) == Some(rs[i].desired)
            && rs[i] == MakeReconcilable(c, rs[i].name, rs[i].desired, rs[i].joinedURL))
  {
    hide Gathered, Inside, Goal, Prepared, MakeReconcilable;
    BatchDistinct(c, tier, g);
    var rs := Batch(c, tier, g);
    GatheredPrepared(c, Collected(c, tier.filter), tier.exclude, tier.joinURL, g);
    forall i | 0 <= i < |rs|
      ensures Inside(c, tier, rs[i].name) && Goal(c, tier, g, rs[i].name) == Some(rs[i].desired)
    {
      BatchInside(c, tier, g, rs[i].name);
      assert rs[i] in rs;
      PreparedGoal(c, rs[i].name, tier, g);
    }
  }

  lemma BatchUpToDate(c: Cluster, tier: Tier, g: Settings)
    requires Listed(c, Collected(c, tier.filter)) && UpToDate(c, tier)
    ensures PlannedCurrent(c, Batch(c, tier, g))
  {
    hide Inside, Fresh, Current, Goal;
    BatchAims(c, tier, g);
    var rs := Batch(c, tier, g);
    forall i | 0 <= i < |rs| && rs[i].node.Some? ensures Current(c, rs[i]) {
      assert rs[i].name in c.nodes by { MadeNode(c, rs[i]); }
      MadeCurrent(c, rs[i].name, rs[i].desired, rs[i].joinedURL);
    }
  }

  lemma MadeNode(c: Cluster, r: Reconcilable)
    requires r == MakeReconcilable(c, r.name, r.desired, r.joinedURL)
    ensures r.node.Some? <==> r.name in c.nodes
    ensures r.node.Some? ==>
      && r.node.value == c.nodes[r.name] && r.change == (c.nodes[r.name].plan != r.desired)
      && r.minorChange == PlanChange.MinorChange(c.nodes[r.name].plan, r.desired)
  {
    hide PlanChange.MinorChange;
  }

  /** The counter that a pass of the tier starts from is the number of its machines that are not available, and a
      percentage is taken of the number of its machines. */
  lemma CounterStartsAtDown(c: Cluster, tier: Tier, g: Settings)
    requires Listed(c, Collected(c, tier.filter))
    ensures var rs := Batch(c, tier, g);
      UpToDate(c, tier) && Gathered(c, Collected(c, tier.filter), tier.exclude, tier.joinURL, g).Good? ==>
        && UnavailableCount(c, rs) == |DownSet(c, tier, g)|
        && Counted(c, rs, tier.exclude) == |PlannedFor(c, tier)|
  {
    hide Gathered, Inside, Goal, Current, Unavailable, Fresh;
    var rs := Batch(c, tier, g);
    if UpToDate(c, tier) && Gathered(c, Collected(c, tier.filter), tier.exclude, tier.joinURL, g).Good? {
      BatchAims(c, tier, g);
      BatchUpToDate(c, tier, g);
      CountsDown(c, rs);
      forall m ensures m in DownNames(c, rs) <==> m in DownSet(c, tier, g) {
        BatchInside(c, tier, g, m);
        DownSame(c, tier, g, rs, m);
      }
      assert DownNames(c, rs) == DownSet(c, tier, g);
      forall m ensures m in PlannedFor(c, tier) <==> !Outside(rs, m) {
        BatchInside(c, tier, g, m);
        if !Outside(rs, m) { var i :| 0 <= i < |rs| && rs[i].name == m; }
      }
      forall i | 0 <= i < |rs| ensures !Matches(c, tier.exclude, rs[i].name) {
        InsideKept(c, tier, rs[i].name);
      }
      CountsAll(c, rs, tier.exclude, PlannedFor(c, tier));
    }
  }

  lemma InsideKept(c: Cluster, tier: Tier, m: string)
    requires Inside(c, tier, m)
    ensures !Matches(c, tier.exclude, m)
  {
  }

  lemma DownSame(c: Cluster, tier: Tier, g: Settings, rs: seq<Reconcilable>, m: string)
    requires Known(c, rs) && Distinct(rs)
    requires forall i :: 0 <= i < |rs| ==>
      && Inside(c, tier, rs[i].name) && Goal(c, tier, g, rs[i].name) == Some(rs[i].desired)
      && rs[i] == MakeReconcilable(c, rs[i].name, rs[i].desired, rs[i].joinedURL)
    requires Inside(c, tier, m) ==> !Outside(rs, m)
    ensures m in DownNames(c, rs) <==> m in DownSet(c, tier, g)
  {
    hide Inside, Goal, Unavailable, MakeReconcilable;
    if m in DownNames(c, rs) {
      var i :| 0 <= i < |rs| && rs[i].node.Some? && Unavailable(c.secrets[rs[i].name], rs[i].desired) &&
               rs[i].name == m;
      MadeNode(c, rs[i]);
    }
    if m in DownSet(c, tier, g) {
      var i :| 0 <= i < |rs| && rs[i].name == m;
      MadeNode(c, rs[i]);
    }
  }

  /** The limit: a number stands for itself, a missing setting for one, and a percentage is rounded up. */
  lemma PercentRoundsUp(setting: Concurrency, count: nat)
    ensures var allowed := Allowed(setting, count);
      match setting
      case Number(n) => allowed == Some(n)
      case Unset => allowed == Some(1)
      case Unparsable => allowed == None
      case Percent(p) =>
        var share := count as real * (p / 100.0);
        allowed.Some? && share <= allowed.value as real < share + 1.0
  {
  }

  // ---------------------------------------------------------------- a full tier spares its available machines

  lemma VisitSpares(t: Tally, r: Reconcilable, concurrency: int, options: DrainOptions, g: Settings)
    requires Current(t.cluster, r) && r.node.Some? && t.err == Nil && 0 < concurrency <= t.unavailable
    requires var s := t.cluster.secrets[r.name];
      !Unavailable(s, r.desired) && !Broken(s) && !Unproven(s)
    ensures var s, s' := t.cluster.secrets[r.name], Visited(t, r, concurrency, options, g).cluster.secrets[r.name];
      s' == s || MinorWrite(s, s', r)
  {
    ReadsAs(t.cluster, r);
    hide Disrupted, Settled, Quiet, Unavailable, Broken, Unproven, NeverHealthy, IsUnavailable, Current,
         PlanChange.MinorChange, SecretToNode;
    var s := Summarized(t, r);
    SparedSettles(s, r, g);
    AvailableOutOfDrain(t.cluster, r);
  }

  lemma AvailableOutOfDrain(c: Cluster, r: Reconcilable)
    requires r.node.Some? && !IsUnavailable(c, r)
    ensures !InDrain(c, r.name)
  {
  }

  lemma SparedSettles(t: Tally, r: Reconcilable, g: Settings)
    requires r.name in t.cluster.secrets && r.name in t.cluster.machines
    requires t.cluster.secrets[r.name].annotations.drain == Blank
    ensures Settled(t, r, g).cluster == t.cluster
  {
    hide Matches, SecretToNode, PlannerDrain.DrainErrorReported;
  }

  lemma {:induction false} LoopSpares(t: Tally, rs: seq<Reconcilable>, concurrency: int, options: DrainOptions,
                                      g: Settings, i: nat)
    requires Known(t.cluster, rs) && Distinct(rs) && t.err == Nil && i < |rs| && 0 < concurrency <= t.unavailable
    requires Current(t.cluster, rs[i]) && rs[i].node.Some?
    requires var s := t.cluster.secrets[rs[i].name];
      !Unavailable(s, rs[i].desired) && !Broken(s) && !Unproven(s)
    ensures var s, c' := t.cluster.secrets[rs[i].name], Scheduled(t, rs, concurrency, options, g).cluster;
      rs[i].name in c'.secrets &&
      (c'.secrets[rs[i].name] == s || MinorWrite(s, c'.secrets[rs[i].name], rs[i]))
    decreases |rs|
  {
    hide Visited, Current, Unavailable, Broken, Unproven, MinorWrite;
    var r, rest, m := rs[0], rs[1..], rs[i].name;
    var t1 := Visited(t, r, concurrency, options, g);
    LoopFrame(t1, rest, concurrency, options, g, m);
    assert forall j :: 0 <= j < |rest| ==> rest[j] == rs[j + 1];
    VisitBudget(t, r, concurrency, options, g);
    if i == 0 {
      VisitSpares(t, r, concurrency, options, g);
    } else if t1.err == Nil {
      StillCurrent(t.cluster, t1.cluster, rs[i], r.name);
      LoopSpares(t1, rest, concurrency, options, g, i - 1);
    }
  }

  lemma StillCurrent(c: Cluster, c': Cluster, r: Reconcilable, m: string)
    requires Current(c, r) && OnlyTouches(c, c', {m}) && r.name != m
    ensures Current(c', r) && c'.secrets[r.name] == c.secrets[r.name]
  {
    hide SecretToNode, PlanChange.MinorChange;
  }

  /** The machine was left alone, or given a minor change. */
  ghost predicate Spared(c: Cluster, c': Cluster, tier: Tier, g: Settings, m: string) {
    && m in c.machines && m in c.secrets && m in c'.secrets && m in c.nodes
    && (|| c'.secrets[m] == c.secrets[m]
        || exists plan, joinedTo ::
             && Goal(c, tier, g, m) == Some(plan) && PlanChange.MinorChange(c.nodes[m].plan, plan)
             && c'.secrets[m] == WithPlan(c.secrets[m], plan, joinedTo, -1, 1))
  }

  /** The machine has a plan, is available, and its plan is neither broken nor unproven. */
  ghost predicate Sound(c: Cluster, tier: Tier, g: Settings, m: string) {
    && m in c.nodes && m in c.secrets && Inside(c, tier, m) && m !in DownSet(c, tier, g)
    && !Broken(c.secrets[m]) && !Unproven(c.secrets[m])
  }

  /** When as many machines of a tier are unavailable as a positive limit allows, the sound ones are spared: none of
      them is given a major change or asked to drain. */
  lemma FullTierSpares(c: Cluster, tier: Tier, g: Settings, m: string)
    requires Listed(c, Collected(c, tier.filter))
    ensures var allowed := Allowed(tier.maxUnavailable, |PlannedFor(c, tier)|);
      UpToDate(c, tier) && Sound(c, tier, g, m) &&
      allowed.Some? && 0 < allowed.value <= |DownSet(c, tier, g)| ==>
        Spared(c, Reconciled(c, tier, g).cluster, tier, g, m)
  {
    hide Gathered, Scheduled, Inside, Goal, Current, Unavailable, Broken, Unproven, Fresh, MinorWrite, Spared,
         PlannedFor, Verdict;
    var allowed := Allowed(tier.maxUnavailable, |PlannedFor(c, tier)|);
    if UpToDate(c, tier) && Sound(c, tier, g, m) && allowed.Some? && 0 < allowed.value <= |DownSet(c, tier, g)| {
      var rs := Batch(c, tier, g);
      CounterStartsAtDown(c, tier, g);
      BesideKept(c, tier, g, m);
      BatchInside(c, tier, g, m);
      InsideMachine(c, tier, m);
      if Gathered(c, Collected(c, tier.filter), tier.exclude, tier.joinURL, g).Good? {
        BatchAims(c, tier, g);
        BatchUpToDate(c, tier, g);
        var i :| 0 <= i < |rs| && rs[i].name == m;
        MadeNode(c, rs[i]);
        assert !Unavailable(c.secrets[m], rs[i].desired);
        LoopSpares(StartTally(c, UnavailableCount(c, rs)), rs, allowed.value, tier.options, g, i);
        SparedBy(c, Reconciled(c, tier, g).cluster, tier, g, rs[i]);
      } else {
        SparedBy(c, c, tier, g, MakeReconcilable(c, m, c.nodes[m].plan, ""));
      }
    }
  }

  lemma InsideMachine(c: Cluster, tier: Tier, m: string)
    requires Inside(c, tier, m)
    ensures m in c.machines
  {
  }

  lemma SparedBy(c: Cluster, c': Cluster, tier: Tier, g: Settings, r: Reconcilable)
    requires r.name in c.machines && r.name in c.secrets && r.name in c'.secrets && r.name in c.nodes
    requires r == MakeReconcilable(c, r.name, r.desired, r.joinedURL)
    requires c'.secrets[r.name] == c.secrets[r.name] ||
             (MinorWrite(c.secrets[r.name], c'.secrets[r.name], r) && Goal(c, tier, g, r.name) == Some(r.desired))
    ensures Spared(c, c', tier, g, r.name)
  {
    hide Goal, PlanChange.MinorChange, WithPlan;
  }

  // ---------------------------------------------------------------- who is let through whatever the counter says

  /** The machine is in the drain handshake, or its plan is broken or unproven. */
  predicate Privileged(s: Secret) {
    Handshaking(s.annotations) || Broken(s) || Unproven(s)
  }

  /** It was given its plan, or the drain in force has been requested from it. */
  predicate Served(s': Secret, desired: NodePlan, request: Mark) {
    s'.plan == Encoded(desired) || s'.annotations.drain == request
  }

  lemma VisitServes(t: Tally, r: Reconcilable, concurrency: int, options: DrainOptions, g: Settings)
    requires Current(t.cluster, r) && r.node.Some? && t.err == Nil
    requires Privileged(t.cluster.secrets[r.name])
    ensures Served(Visited(t, r, concurrency, options, g).cluster.secrets[r.name], r.desired,
                   Convergence.RequestOf(t.cluster, options))
  {
    ReadsAs(t.cluster, r);
    hide Visited, Broken, Unproven, NeverHealthy, IsUnavailable, PlanChange.MinorChange, SecretToNode;
    Convergence.LagsDiffers(t.cluster, r);
    var effect := Convergence.VisitEffect(t, r, concurrency, options, g);
  }

  lemma {:induction false} LoopServes(t: Tally, rs: seq<Reconcilable>, concurrency: int, options: DrainOptions,
                                      g: Settings, i: nat)
    requires Known(t.cluster, rs) && Distinct(rs) && t.err == Nil && i < |rs|
    requires Current(t.cluster, rs[i]) && rs[i].node.Some? && Privileged(t.cluster.secrets[rs[i].name])
    ensures var t' := Scheduled(t, rs, concurrency, options, g);
      && rs[i].name in t'.cluster.secrets
      && (t'.err == Nil ==>
            Served(t'.cluster.secrets[rs[i].name], rs[i].desired, Convergence.RequestOf(t.cluster, options)))
    decreases |rs|
  {
    hide Visited, Current, Privileged, Served;
    var r, rest, m := rs[0], rs[1..], rs[i].name;
    var t1 := Visited(t, r, concurrency, options, g);
    LoopFrame(t1, rest, concurrency, options, g, m);
    assert forall j :: 0 <= j < |rest| ==> rest[j] == rs[j + 1];
    if i == 0 {
      VisitServes(t, r, concurrency, options, g);
    } else if t1.err == Nil {
      StillCurrent(t.cluster, t1.cluster, rs[i], r.name);
      LoopServes(t1, rest, concurrency, options, g, i - 1);
    }
  }

  /** However many machines of a tier are unavailable, a pass without a failing call serves every machine that is in the
      drain handshake or whose plan is broken or unproven: it holds its desired plan or is asked to drain for it. */
  lemma PrivilegedAreServed(c: Cluster, tier: Tier, g: Settings, m: string)
    requires Listed(c, Collected(c, tier.filter))
    ensures var o := Reconciled(c, tier, g);
      UpToDate(c, tier) && m in c.nodes && m in c.secrets && Inside(c, tier, m) && Privileged(c.secrets[m]) &&
      o.err != Other && Gathered(c, Collected(c, tier.filter), tier.exclude, tier.joinURL, g).Good? ==>
        m in o.cluster.secrets &&
        exists plan :: m in c.machines && Goal(c, tier, g, m) == Some(plan) &&
                       Served(o.cluster.secrets[m], plan, Convergence.RequestOf(c, tier.options))
  {
    hide Gathered, Scheduled, Inside, Goal, Current, Privileged, Served, Fresh, Verdict;
    var o := Reconciled(c, tier, g);
    if UpToDate(c, tier) && m in c.nodes && m in c.secrets && Inside(c, tier, m) && Privileged(c.secrets[m]) &&
       o.err != Other && Gathered(c, Collected(c, tier.filter), tier.exclude, tier.joinURL, g).Good?
    {
      var rs := Batch(c, tier, g);
      BatchInside(c, tier, g, m);
      BatchAims(c, tier, g);
      BatchUpToDate(c, tier, g);
      var i :| 0 <= i < |rs| && rs[i].name == m;
      MadeNode(c, rs[i]);
      var allowed := Allowed(tier.maxUnavailable, Counted(c, rs, tier.exclude));
      if allowed.Some? {
        var t0 := StartTally(c, UnavailableCount(c, rs));
        var t := Scheduled(t0, rs, allowed.value, tier.options, g);
        ErredVerdict(t, tier.required, Collected(c, tier.filter) == [], g);
        LoopServes(t0, rs, allowed.value, tier.options, g, i);
      }
    }
  }

  // ---------------------------------------------------------------- what is written

  /** The generator answers with this plan and this server for the machine. */
  ghost predicate Generates(c: Cluster, tier: Tier, g: Settings, m: string, plan: NodePlan, joinedTo: string)
    requires m in c.machines && m in c.secrets
  {
    var url := Join.DeterminedJoinURL(c, m, NodeOf(c, m), g.crc, tier.joinURL);
    url.Some? && g.desired(m, c.secrets[m].labels, c.secrets[m].annotations, url.value) == Rendered(plan, joinedTo)
  }

  lemma PreparedGenerates(c: Cluster, m: string, tier: Tier, g: Settings)
    requires m in c.machines && m in c.secrets && Prepared(c, m, tier.joinURL, g).Good?
    ensures var r := Prepared(c, m, tier.joinURL, g).value;
      Generates(c, tier, g, m, r.desired, r.joinedURL)
  {
    hide Join.DeterminedJoinURL, PlanChange.MinorChange;
  }

  lemma VisitWrites(t: Tally, r: Reconcilable, concurrency: int, options: DrainOptions, g: Settings)
    requires r.name in t.cluster.secrets && r.name in t.cluster.machines && t.err == Nil
    ensures var s, s' := t.cluster.secrets[r.name], Visited(t, r, concurrency, options, g).cluster.secrets[r.name];
      s'.plan != s.plan ==> s' == WithPlan(s, r.desired, r.joinedURL, -1, 1)
  {
    hide Disrupted, Settled, Quiet, IsUnavailable, SecretToNode, WithPlan;
    var s := Summarized(t, r);
    var o := s.(outOfSync := s.outOfSync + [r.name]);
    if r.node.Some? { DisruptedWithPlan(o, r, options); }
    SettledBudget(s, r, g);
  }

  lemma DisruptedWithPlan(t: Tally, r: Reconcilable, options: DrainOptions)
    requires r.name in t.cluster.secrets && r.name in t.cluster.machines && r.node.Some?
    ensures var s, s' := t.cluster.secrets[r.name], Disrupted(t, r, options).cluster.secrets[r.name];
      s'.plan != s.plan ==> s' == WithPlan(s, r.desired, r.joinedURL, -1, 1)
  {
    hide Quiet, IsUnavailable, SecretToNode, WithPlan, PlanChange.ShouldDrain, PlannerDrain.DrainErrorReported,
         PlannerDrain.Requested, PlannerDrain.Applies;
  }

  lemma {:induction false} LoopWrites(t: Tally, rs: seq<Reconcilable>, concurrency: int, options: DrainOptions,
                                      g: Settings, i: nat)
    requires Known(t.cluster, rs) && Distinct(rs) && t.err == Nil && i < |rs|
    ensures var s, c' := t.cluster.secrets[rs[i].name], Scheduled(t, rs, concurrency, options, g).cluster;
      rs[i].name in c'.secrets &&
      (c'.secrets[rs[i].name].plan != s.plan ==>
         c'.secrets[rs[i].name] == WithPlan(s, rs[i].desired, rs[i].joinedURL, -1, 1))
    decreases |rs|
  {
    hide Visited, WithPlan;
    var r, rest, m := rs[0], rs[1..], rs[i].name;
    var t1 := Visited(t, r, concurrency, options, g);
    LoopFrame(t1, rest, concurrency, options, g, m);
    assert forall j :: 0 <= j < |rest| ==> rest[j] == rs[j + 1];
    if i == 0 {
      VisitWrites(t, r, concurrency, options, g);
    } else if t1.err == Nil {
      LoopWrites(t1, rest, concurrency, options, g, i - 1);
    }
  }

  /** Whatever plan a pass of the tier writes is the one that was generated for that machine, with the server that the
      generator names, without a limit of attempts and with a single failure to count. */
  lemma WritesWhatIsGenerated(c: Cluster, tier: Tier, g: Settings, m: string)
    requires Listed(c, Collected(c, tier.filter)) && m in c.secrets && m in c.machines
    ensures var c' := Reconciled(c, tier, g).cluster;
      m in c'.secrets &&
      (c'.secrets[m].plan != c.secrets[m].plan ==>
         Inside(c, tier, m) &&
         exists plan, joinedTo :: Generates(c, tier, g, m, plan, joinedTo) &&
                                  c'.secrets[m] == WithPlan(c.secrets[m], plan, joinedTo, -1, 1))
  {
    hide Gathered, Scheduled, Inside, Generates, WithPlan, Verdict, Prepared;
    BesideKept(c, tier, g, m);
    if Inside(c, tier, m) && Gathered(c, Collected(c, tier.filter), tier.exclude, tier.joinURL, g).Good? {
      var rs := Batch(c, tier, g);
      BatchInside(c, tier, g, m);
      BatchDistinct(c, tier, g);
      GatheredPrepared(c, Collected(c, tier.filter), tier.exclude, tier.joinURL, g);
      var i :| 0 <= i < |rs| && rs[i].name == m;
      assert rs[i] in rs;
      PreparedGenerates(c, m, tier, g);
      var allowed := Allowed(tier.maxUnavailable, Counted(c, rs, tier.exclude));
      if allowed.Some? {
        LoopWrites(StartTally(c, UnavailableCount(c, rs)), rs, allowed.value, tier.options, g, i);
      }
    }
  }
}
