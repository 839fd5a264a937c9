/** Clusters in which most machines have arrived: full reconciliation goes past the tiers that rest, leaves a settled
    cluster alone, and ends at the first tier in which a machine gets its plan. */
module Settled {
  import opened Model
  import opened PlanEntry
  import opened Store
  import opened Scheduler
  import opened Budget
  import opened ControlPlane
  import opened FullReconcile
  import opened Gating
  import opened InitNode
  import PlanChange
  import PlannerDrain

  // ---------------------------------------------------------------- going past tiers that rest

  /** The init node is elected and has a join URL. */
  ghost predicate Joined(cp: Object, c: Cluster, url: string) {
    Elected(c, cp.fixedInitNode, true) == Election(c, url, Nil) && url != ""
  }

  ghost predicate Rests(c: Cluster, tier: Tier, g: Settings) {
    Listed(c, Collected(c, tier.filter)) && TierRests(c, tier, g)
  }

  lemma RestsRan(c: Cluster, tier: Tier, g: Settings)
    requires Listed(c, Collected(c, tier.filter))
    ensures Rests(c, tier, g) ==> RanOf(c, tier, g) == Ran(tier, c, c, Nil)
  {
    hide TierRests, Reconciled, Matches, Listed;
    RestingTier(c, tier, g);
  }

  lemma PastBootstrap(cp: Object, status: Status, c: Cluster, ignoreLimits: bool, w: World, url: string)
    ensures var limits := LimitsOf(cp.spec.strategy, ignoreLimits);
      var tier := BootstrapTier(limits.controlPlaneDrain);
      Joined(cp, c, url) && Rests(c, tier, SettingsOf(cp, w)) ==>
        FullyReconciled(cp, status, c, ignoreLimits, w) ==
        Etcds(cp, status.(bootstrapped := Yes), c, limits, url, false, w, [Ran(tier, c, c, Nil)])
  {
    hide Elected, Etcds, RanOf, Rests, Matches, LimitsOf, SettingsOf;
    TierListed(c, Etcd);
    RestsRan(c, BootstrapTier(LimitsOf(cp.spec.strategy, ignoreLimits).controlPlaneDrain), SettingsOf(cp, w));
  }

  lemma PastEtcd(cp: Object, status: Status, c: Cluster, limits: Limits, url: string, w: World, done: seq<Ran>)
    ensures var tier := EtcdTier(url, limits.controlPlaneDrain);
      Rests(c, tier, SettingsOf(cp, w)) ==>
        Etcds(cp, status, c, limits, url, false, w, done) ==
        ControlPlanes(cp, status, c, limits, url, false, w, done + [Ran(tier, c, c, Nil)])
  {
    hide ControlPlanes, RanOf, Rests, Matches, SettingsOf;
    TierListed(c, Etcd);
    RestsRan(c, EtcdTier(url, limits.controlPlaneDrain), SettingsOf(cp, w));
  }

  lemma PastControlPlane(cp: Object, status: Status, c: Cluster, limits: Limits, url: string, w: World, done: seq<Ran>)
    ensures var tier := ControlPlaneTier(url, limits);
      Rests(c, tier, SettingsOf(cp, w)) ==>
        ControlPlanes(cp, status, c, limits, url, false, w, done) ==
        Available(cp, status, c, limits, false, w, done + [Ran(tier, c, c, Nil)])
  {
    hide Available, RanOf, Rests, Matches, SettingsOf;
    TierListed(c, Filter.ControlPlane);
    RestsRan(c, ControlPlaneTier(url, limits), SettingsOf(cp, w));
  }

  lemma PastWorkers(cp: Object, status: Status, c: Cluster, limits: Limits, w: World, done: seq<Ran>)
    ensures Rests(c, WorkerTier(limits), SettingsOf(cp, w)) && Collected(c, JOINABLE_CONTROL_PLANE) != [] &&
            status.initialized && status.ready ==>
      Available(cp, status, c, limits, false, w, done).stage == Stage(status, c, Nil)
  {
    hide RanOf, Rests, Matches, SettingsOf;
    TierListed(c, IS_ONLY_WORKER);
    RestsRan(c, WorkerTier(limits), SettingsOf(cp, w));
  }

  /** All four tiers rest, and the control plane is up. */
  ghost predicate ClusterRests(cp: Object, status: Status, c: Cluster, ignoreLimits: bool, w: World, url: string) {
    var limits, g := LimitsOf(cp.spec.strategy, ignoreLimits), SettingsOf(cp, w);
    && Joined(cp, c, url) && Collected(c, JOINABLE_CONTROL_PLANE) != [] && status.initialized && status.ready
    && Rests(c, BootstrapTier(limits.controlPlaneDrain), g) && Rests(c, EtcdTier(url, limits.controlPlaneDrain), g)
    && Rests(c, ControlPlaneTier(url, limits), g) && Rests(c, WorkerTier(limits), g)
  }

  /** A settled cluster is left alone: full reconciliation answers nil and changes nothing. */
  lemma SettledIsLeftAlone(cp: Object, status: Status, c: Cluster, ignoreLimits: bool, w: World, url: string)
    ensures ClusterRests(cp, status, c, ignoreLimits, w, url) ==>
      FullyReconciled(cp, status, c, ignoreLimits, w).stage == Stage(status.(bootstrapped := Yes), c, Nil)
  {
    hide FullyReconciled, Etcds, ControlPlanes, Available, Rests, Joined, Matches, LimitsOf;
    var limits := LimitsOf(cp.spec.strategy, ignoreLimits);
    var s := status.(bootstrapped := Yes);
    var r0 := Ran(BootstrapTier(limits.controlPlaneDrain), c, c, Nil);
    var r1 := Ran(EtcdTier(url, limits.controlPlaneDrain), c, c, Nil);
    var r2 := Ran(ControlPlaneTier(url, limits), c, c, Nil);
    PastBootstrap(cp, status, c, ignoreLimits, w, url);
    PastEtcd(cp, s, c, limits, url, w, [r0]);
    PastControlPlane(cp, s, c, limits, url, w, [r0] + [r1]);
    PastWorkers(cp, s, c, limits, w, [r0] + [r1] + [r2]);
  }

  // ---------------------------------------------------------------- a tier in which one machine gets its plan

  /** The machine holds its desired plan, with nothing to wait for. */
  ghost predicate Arrived(c: Cluster, r: Reconcilable, g: Settings)
    requires r.name in c.secrets && r.name in c.machines
  {
    !r.change && !r.minorChange && Silent(c, r, g)
  }

  lemma ArrivedVisit(t: Tally, r: Reconcilable, concurrency: int, options: DrainOptions, g: Settings)
    requires r.name in t.cluster.secrets && r.name in t.cluster.machines && t.err == Nil && Unlisted(t, r.name)
    requires Arrived(t.cluster, r, g)
    ensures var t1 := Visited(t, r, concurrency, options, g);
      t1.cluster == t.cluster && t1.err == Nil && t1.unavailable == t.unavailable
  {
    hide Visited, Silent, Loud, Exhausted, AtRest, Refused;
    VisitSilent(t, r, concurrency, options, g);
    VisitAccounts(t, r, concurrency, options, g);
    var t1 := Visited(t, r, concurrency, options, g);
    assert t1.cluster.secrets == t.cluster.secrets;
  }

  /** A major change for which there is room and nothing to drain. */
  predicate Writes(c: Cluster, r: Reconcilable, options: DrainOptions) {
    Major(r) && !IsUnavailable(c, r) && !PlannerDrain.Applies(options, |c.machines| == 1)
  }

  function WithDesired(c: Cluster, r: Reconcilable): Cluster
    requires r.name in c.secrets
  {
    Put(c, r.name, WithPlan(c.secrets[r.name], r.desired, r.joinedURL, -1, 1))
  }

  lemma WritingVisit(t: Tally, r: Reconcilable, concurrency: int, options: DrainOptions, g: Settings)
    requires r.name in t.cluster.secrets && r.name in t.cluster.machines && t.err == Nil
    requires Writes(t.cluster, r, options) && t.unavailable < concurrency
    ensures Visited(t, r, concurrency, options, g).cluster == WithDesired(t.cluster, r)
  {
    hide Quiet, SecretToNode, IsUnavailable, PlanChange.ShouldDrain, WithPlan;
  }

  lemma {:induction false} LoopWrites(t: Tally, rs: seq<Reconcilable>, concurrency: int, options: DrainOptions,
                                      g: Settings)
    requires Known(t.cluster, rs) && Distinct(rs) && t.err == Nil && rs != [] && t.unavailable < concurrency
    requires forall i :: 0 <= i < |rs| ==> Unlisted(t, rs[i].name)
    requires forall i :: 0 <= i < |rs| - 1 ==> Arrived(t.cluster, rs[i], g)
    requires Writes(t.cluster, rs[|rs| - 1], options)
    ensures Scheduled(t, rs, concurrency, options, g).cluster == WithDesired(t.cluster, rs[|rs| - 1])
    decreases |rs|
  {
    hide Visited, Writes, Unlisted, Arrived, WithDesired;
    var r, rest := rs[0], rs[1..];
    var t1 := Visited(t, r, concurrency, options, g);
    SilentTail(t, rs, concurrency, options, g);
    if |rs| == 1 {
      assert rest == [];
      WritingVisit(t, r, concurrency, options, g);
    } else {
      assert Arrived(t.cluster, rs[0], g);
      ArrivedVisit(t, r, concurrency, options, g);
      forall i | 0 <= i < |rest| - 1 ensures Arrived(t1.cluster, rest[i], g) {
        assert Arrived(t.cluster, rs[i + 1], g);
      }
      LoopWrites(t1, rest, concurrency, options, g);
    }
  }

  /** All machines of the batch have arrived but the last one, which lags behind by a major change; no drain applies,
      and the limit is a number. */
  ghost predicate LastLags(c: Cluster, tier: Tier, g: Settings)
    requires Listed(c, Collected(c, tier.filter))
  {
    && Gathered(c, Collected(c, tier.filter), tier.exclude, tier.joinURL, g).Good?
    && tier.maxUnavailable.Number? && tier.maxUnavailable.n > 0
    && var rs := Batch(c, tier, g);
       && rs != [] && Known(c, rs) && UnavailableCount(c, rs) == 0
       && (forall i :: 0 <= i < |rs| - 1 ==> Arrived(c, rs[i], g))
       && Writes(c, rs[|rs| - 1], tier.options)
       && c.secrets[rs[|rs| - 1].name].plan != Encoded(rs[|rs| - 1].desired)
  }

  /** Then that machine gets its plan, nothing else changes, and the pass ends with this tier. */
  lemma LastIsWritten(c: Cluster, tier: Tier, g: Settings)
    requires Listed(c, Collected(c, tier.filter))
    ensures LastLags(c, tier, g) ==>
      var rs, o := Batch(c, tier, g), Reconciled(c, tier, g);
      o.cluster == WithDesired(c, rs[|rs| - 1]) && !QuietErr(o.err)
  {
    hide Matches, Gathered, Scheduled, Unlisted, Arrived, Writes, WithDesired;
    if LastLags(c, tier, g) {
      var rs := Batch(c, tier, g);
      BatchDistinct(c, tier, g);
      FreshUnlisted(c, rs, 0);
      LoopWrites(StartTally(c, 0), rs, tier.maxUnavailable.n, tier.options, g);
      hide Reconciled;
      QuietTierIsMinor(c, tier, g);
      MajorIsNotMinor(c, rs[|rs| - 1], Reconciled(c, tier, g).cluster, tier.options);
    }
  }

  lemma MajorIsNotMinor(c: Cluster, r: Reconcilable, c': Cluster, options: DrainOptions)
    requires r.name in c.secrets && Writes(c, r, options) && r == MakeReconcilable(c, r.name, r.desired, r.joinedURL)
    requires c.secrets[r.name].plan != Encoded(r.desired) && c' == WithDesired(c, r)
    ensures !MinorOnly(c, c')
  {
    hide PlanChange.MinorChange, IsUnavailable;
    assert !MinorSecret(c, c.secrets[r.name], c'.secrets[r.name], r.name);
  }

  /** A pass that gets to the etcd tier and ends there. */
  lemma EndsAtEtcd(cp: Object, c: Cluster, w: World, url: string)
    ensures var limits, g := LimitsOf(cp.spec.strategy, false), SettingsOf(cp, w);
      var r0, tier := Ran(BootstrapTier(limits.controlPlaneDrain), c, c, Nil), EtcdTier(url, limits.controlPlaneDrain);
      Joined(cp, c, url) && Rests(c, BootstrapTier(limits.controlPlaneDrain), g) &&
      Listed(c, Collected(c, tier.filter)) && LastLags(c, tier, g) ==>
        var f, rs := FullyReconciled(cp, cp.status, c, false, w), Batch(c, tier, g);
        f.tiers == [r0] + [RanOf(c, tier, g)] && f.stage.cluster == WithDesired(c, rs[|rs| - 1])
  {
    hide FullyReconciled, Rests, Joined, Matches, LimitsOf, LastLags, Batch, WithDesired, SettingsOf, Reconciled;
    var limits, g := LimitsOf(cp.spec.strategy, false), SettingsOf(cp, w);
    PastBootstrap(cp, cp.status, c, false, w, url);
    TierListed(c, Etcd);
    LastIsWritten(c, EtcdTier(url, limits.controlPlaneDrain), g);
  }

  /** A pass that gets to the control-plane tier and ends there. */
  lemma EndsAtControlPlane(cp: Object, c: Cluster, w: World, url: string)
    ensures var limits, g := LimitsOf(cp.spec.strategy, false), SettingsOf(cp, w);
      var r0 := Ran(BootstrapTier(limits.controlPlaneDrain), c, c, Nil);
      var r1 := Ran(EtcdTier(url, limits.controlPlaneDrain), c, c, Nil);
      var tier := ControlPlaneTier(url, limits);
      Joined(cp, c, url) && Rests(c, BootstrapTier(limits.controlPlaneDrain), g) &&
      Rests(c, EtcdTier(url, limits.controlPlaneDrain), g) &&
      Listed(c, Collected(c, tier.filter)) && LastLags(c, tier, g) ==>
        var f, rs := FullyReconciled(cp, cp.status, c, false, w), Batch(c, tier, g);
        f.tiers == [r0] + [r1] + [RanOf(c, tier, g)] && f.stage.cluster == WithDesired(c, rs[|rs| - 1])
  {
    hide FullyReconciled, Etcds, Rests, Joined, Matches, LimitsOf, LastLags, Batch, WithDesired, SettingsOf, Reconciled;
    var limits, g := LimitsOf(cp.spec.strategy, false), SettingsOf(cp, w);
    var r0 := Ran(BootstrapTier(limits.controlPlaneDrain), c, c, Nil);
    PastBootstrap(cp, cp.status, c, false, w, url);
    PastEtcd(cp, cp.status.(bootstrapped := Yes), c, limits, url, w, [r0]);
    TierListed(c, Filter.ControlPlane);
    LastIsWritten(c, ControlPlaneTier(url, limits), g);
  }

  // ---------------------------------------------------------------- small tiers

  /** The tier gathers exactly these machines, under a limit that is a number. */
  ghost predicate Gathers(c: Cluster, tier: Tier, g: Settings, rs: seq<Reconcilable>) {
    && Listed(c, Collected(c, tier.filter)) && Collected(c, tier.filter) != []
    && Gathered(c, Collected(c, tier.filter), tier.exclude, tier.joinURL, g) == Good(rs) && Known(c, rs)
    && tier.maxUnavailable.Number? && tier.maxUnavailable.n > 0
  }

  ghost predicate Plainly(c: Cluster, r: Reconcilable)
    requires r.name in c.machines
  {
    !r.minorChange && !Exempt(c, r) && Fine(c.machines[r.name])
  }

  lemma {:induction false} NothingExtra(c: Cluster, rs: seq<Reconcilable>, who: set<string>)
    requires forall i :: 0 <= i < |rs| ==> !rs[i].minorChange && !Exempt(c, rs[i])
    ensures MinorCount(rs, who) == 0 && ExemptCount(c, rs, who) == 0
  {
    hide Exempt;
    if rs != [] {
      assert forall i :: 0 <= i < |rs[1..]| ==> rs[1..][i] == rs[i + 1];
      NothingExtra(c, rs[1..], who);
    }
  }

  lemma OneRests(c: Cluster, tier: Tier, g: Settings, r: Reconcilable, who: set<string>)
    requires Gathers(c, tier, g, [r]) && r.name in c.machines && r.name in c.secrets
    requires Arrived(c, r, g) && Plainly(c, r)
    ensures Rests(c, tier, g) && Extras(c, tier, g, who) == 0
  {
    hide Matches, Gathered, Fine, Silent, Exempt;
    NothingExtra(c, [r], who);
  }

  lemma OneLags(c: Cluster, tier: Tier, g: Settings, r: Reconcilable, who: set<string>)
    requires Gathers(c, tier, g, [r]) && r.name in c.machines && r.name in c.secrets
    requires Writes(c, r, tier.options) && c.secrets[r.name].plan != Encoded(r.desired) && Plainly(c, r)
    ensures LastLags(c, tier, g) && Batch(c, tier, g) == [r] && Extras(c, tier, g, who) == 0
  {
    hide Matches, Gathered, Fine, Exempt, IsUnavailable, PlannerDrain.Applies;
    NothingExtra(c, [r], who);
    assert [r][1..] == [];
    assert UnavailableCount(c, []) == 0;
  }

  lemma TwoLag(c: Cluster, tier: Tier, g: Settings, a: Reconcilable, b: Reconcilable, who: set<string>)
    requires Gathers(c, tier, g, [a, b])
    requires a.name in c.machines && a.name in c.secrets && b.name in c.machines && b.name in c.secrets
    requires Arrived(c, a, g) && Plainly(c, a) && !(a.node.Some? && IsUnavailable(c, a))
    requires Writes(c, b, tier.options) && c.secrets[b.name].plan != Encoded(b.desired) && Plainly(c, b)
    ensures LastLags(c, tier, g) && Batch(c, tier, g) == [a, b] && Extras(c, tier, g, who) == 0
  {
    hide Matches, Gathered, Fine, Silent, Exempt, IsUnavailable, PlannerDrain.Applies;
    assert [a, b][1..] == [b] && [b][1..] == [];
    assert UnavailableCount(c, [b]) == 0;
    NothingExtra(c, [a, b], who);
  }
}
