/** The disruption budget over whole passes: four tiers, each of which counts its own machines only. */
module ClusterBudget {
  import opened Model
  import opened PlanEntry
  import opened Store
  import opened Scheduler
  import opened Budget
  import opened Convergence
  import opened ControlPlane
  import opened FullReconcile
  import opened Gating
  import opened Process
  import opened Exclusivity
  import InitNodeRuns
  import PassRuns

  // ---------------------------------------------------------------- what quiet tiers leave behind

  /** The watched machines whose secrets differ. */
  ghost function Touched(c: Cluster, c': Cluster, who: set<string>): set<string> {
    set m | m in who && m in c.secrets && m in c'.secrets && c'.secrets[m] != c.secrets[m]
  }

  lemma {:induction false} MinorNames(rs: seq<Reconcilable>, who: set<string>, names: set<string>)
    requires names <= who
    requires forall m :: m in names ==> exists i :: 0 <= i < |rs| && rs[i].name == m && rs[i].minorChange
    ensures |names| <= MinorCount(rs, who)
  {
    if rs == [] {
      assert names == {};
    } else {
      var r := rs[0];
      var rest := if r.minorChange then names - {r.name} else names;
      forall m | m in rest ensures exists i :: 0 <= i < |rs[1..]| && rs[1..][i].name == m && rs[1..][i].minorChange {
        var i :| 0 <= i < |rs| && rs[i].name == m && rs[i].minorChange;
        assert rs[1..][i - 1] == rs[i];
      }
      MinorNames(rs[1..], who, rest);
      assert names <= rest + {r.name};
    }
  }

  /** A tier that goes by quietly touches no more of the watched machines than it has minor changes for. */
  lemma QuietTouches(c: Cluster, tier: Tier, g: Settings, who: set<string>)
    requires Listed(c, Collected(c, tier.filter))
    ensures QuietErr(Reconciled(c, tier, g).err) ==>
      |Touched(c, Reconciled(c, tier, g).cluster, who)| <= MinorCount(Batch(c, tier, g), who)
  {
    hide Scheduled, Matches, Gathered, Loud, Verdict, WithPlan, MinorWrite;
    BatchDistinct(c, tier, g);
    var o, rs := Reconciled(c, tier, g), Batch(c, tier, g);
    var allowed := Allowed(tier.maxUnavailable, Counted(c, rs, tier.exclude));
    if QuietErr(o.err) && allowed.Some? {
      var none := Collected(c, tier.filter) == [];
      var t0 := StartTally(c, UnavailableCount(c, rs));
      var t := Scheduled(t0, rs, allowed.value, tier.options, g);
      ErredVerdict(t, tier.required, none, g);
      var touched := Touched(c, o.cluster, who);
      forall m | m in touched ensures exists i :: 0 <= i < |rs| && rs[i].name == m && rs[i].minorChange {
        LoopLoud(t0, rs, allowed.value, tier.options, g, m);
        if Loud(t, m) { LoudWaits(t, m, tier.required, none, g); }
        var i :| 0 <= i < |rs| && rs[i].name == m && MinorWrite(c.secrets[m], o.cluster.secrets[m], rs[i]);
        assert rs[i].minorChange by { MinorWriteIsMinor(c.secrets[m], o.cluster.secrets[m], rs[i]); }
      }
      MinorNames(rs, who, touched);
    }
  }

  lemma MinorWriteIsMinor(s: Secret, s': Secret, r: Reconcilable)
    requires MinorWrite(s, s', r)
    ensures r.minorChange
  {
  }

  /** What the tiers let through beside the budget, among the watched machines. */
  ghost function TierExtras(tiers: seq<Ran>, g: Settings, who: set<string>): nat {
    if tiers == [] then 0 else
    var last := tiers[|tiers| - 1];
    TierExtras(tiers[..|tiers| - 1], g, who) +
    (if Listed(last.before, Collected(last.before, last.tier.filter))
     then Extras(last.before, last.tier, g, who) else 0)
  }

  /** The roster, the snapshot and the labels are the same. */
  ghost predicate SameRoster(c: Cluster, c': Cluster) {
    && c'.machines == c.machines && c'.nodes == c.nodes && c'.secrets.Keys == c.secrets.Keys
    && forall m :: m in c.secrets ==> c'.secrets[m].labels == c.secrets[m].labels
  }

  lemma MinorKeepsRoster(c: Cluster, c': Cluster)
    requires MinorOnly(c, c')
    ensures SameRoster(c, c')
  {
    hide PlanChange.MinorChange;
  }

  lemma PrefixOrder(c: Cluster, tiers: seq<Ran>, g: Settings)
    requires InOrder(c, tiers, g) && tiers != []
    ensures var n := |tiers| - 1;
      InOrder(c, tiers[..n], g) && (Passed(c, tiers) ==> Passed(c, tiers[..n])) &&
      Before(c, tiers[..n], n) == Before(c, tiers, n)
  {
    hide RanOf, MinorOnly, Matches, InRole, Listed, QuietErr;
    var n := |tiers| - 1;
    var some := tiers[..n];
    forall i | 0 <= i <= n ensures Before(c, some, i) == Before(c, tiers, i) && (i < n ==> some[i] == tiers[i]) {
    }
  }

  lemma TouchedMore(a: Cluster, b: Cluster, c: Cluster, who: set<string>)
    requires SameRoster(a, b) && SameRoster(b, c)
    ensures SameRoster(a, c) && |Touched(a, c, who)| <= |Touched(a, b, who)| + |Touched(b, c, who)|
  {
    assert Touched(a, c, who) <= Touched(a, b, who) + Touched(b, c, who);
    Cardinality(Touched(a, c, who), Touched(a, b, who) + Touched(b, c, who));
  }

  /** Tiers that all went by quietly touch no more of the watched machines than they let through. */
  lemma {:induction false} PassedTouches(c: Cluster, tiers: seq<Ran>, g: Settings, who: set<string>)
    requires InOrder(c, tiers, g) && Passed(c, tiers)
    ensures var c' := Before(c, tiers, |tiers|);
      SameRoster(c, c') && |Touched(c, c', who)| <= TierExtras(tiers, g, who)
    decreases |tiers|
  {
    hide Reconciled, MinorOnly, Matches, Batch, Touched, SameRoster;
    if tiers == [] {
      NothingTouched(c, who);
    } else {
      var n := |tiers| - 1;
      var last := tiers[n];
      PrefixOrder(c, tiers, g);
      PassedTouches(c, tiers[..n], g, who);
      QuietTouches(last.before, last.tier, g, who);
      MinorKeepsRoster(last.before, last.cluster);
      TouchedMore(c, last.before, last.cluster, who);
    }
  }

  lemma NothingTouched(c: Cluster, who: set<string>)
    ensures SameRoster(c, c) && |Touched(c, c, who)| == 0
  {
    assert Touched(c, c, who) == {};
  }

  lemma RelabelledDisturbed(c: Cluster, c': Cluster, who: set<string>)
    requires InitNodeRuns.Relabelled(c, c')
    ensures DisturbedSet(c', who) == DisturbedSet(c, who)
  {
    forall m | m in c.secrets ensures Disturbed(c'.secrets[m]) <==> Disturbed(c.secrets[m]) {
      assert InitNodeRuns.SameButMark(c.secrets[m], c'.secrets[m]);
    }
  }

  // ---------------------------------------------------------------- one pass of full reconciliation

  /** The tier plans for none of the watched machines, or works under a limit that, together with the disturbed machines
      that it does not count, stays within b. */
  ghost predicate Room(c: Cluster, t: Ran, g: Settings, who: set<string>, b: int) {
    Listed(t.before, Collected(t.before, t.tier.filter)) ==>
      || Beside(t.before, t.tier, who) == who
      || exists k :: Limited(t.before, t.tier, g, k) && k + |DisturbedSet(c, Beside(t.before, t.tier, who))| <= b
  }

  lemma StillFresh(c: Cluster, c': Cluster, who: set<string>)
    requires Loaded(c) && SameRoster(c, c') && forall m :: m in who ==> m in c.nodes
    ensures forall m :: m in who - Touched(c, c', who) ==> Fresh(c', m)
  {
    forall m | m in who - Touched(c, c', who) ensures Fresh(c', m) {
      LoadedFresh(c, m);
    }
  }

  /** The last tier of a pass, on what the tiers before it left. */
  lemma LastTier(c: Cluster, t: Ran, g: Settings, who: set<string>, b: int)
    requires Loaded(c) && SameRoster(c, t.before) && (forall m :: m in who ==> m in c.nodes)
    requires Listed(t.before, Collected(t.before, t.tier.filter)) && t == RanOf(t.before, t.tier, g)
    ensures Room(c, t, g, who, b) ==>
      |DisturbedSet(t.cluster, who)| <=
        Max(|DisturbedSet(c, who)|, b) + |Touched(c, t.before, who)| + Extras(t.before, t.tier, g, who)
  {
    hide Reconciled, Matches, Inside, Disturbed, Batch, Fresh, Loaded, SameRoster;
    if Room(c, t, g, who, b) {
      var touched := Touched(c, t.before, who);
      var some := who - touched;
      StillFresh(c, t.before, who);
      UntouchedSame(c, t.before, who);
      DisturbedSame(c, t.before, some);
      Within(c, some, who);
      CountsWithin(t.before, Batch(t.before, t.tier, g), some, who);
      Leaves(t.cluster, who, touched);
      if Beside(t.before, t.tier, who) == who {
        assert Beside(t.before, t.tier, some) == some;
        OutsideBudget(t.before, t.tier, g, some);
      } else {
        var k :| Limited(t.before, t.tier, g, k) && k + |DisturbedSet(c, Beside(t.before, t.tier, who))| <= b;
        PassBudget(t.before, t.tier, g, k, some);
        var beside := Beside(t.before, t.tier, some);
        DisturbedSame(c, t.before, beside);
        Within(c, beside, Beside(t.before, t.tier, who));
      }
    }
  }

  lemma UntouchedSame(c: Cluster, c': Cluster, who: set<string>)
    requires SameRoster(c, c')
    ensures c'.secrets.Keys == c.secrets.Keys
    ensures forall m :: m in who - Touched(c, c', who) && m in c.secrets ==> c'.secrets[m] == c.secrets[m]
  {
  }

  lemma Within(c: Cluster, some: set<string>, who: set<string>)
    requires some <= who
    ensures |DisturbedSet(c, some)| <= |DisturbedSet(c, who)|
  {
    hide Disturbed;
    Cardinality(DisturbedSet(c, some), DisturbedSet(c, who));
  }

  lemma Leaves(c: Cluster, who: set<string>, some: set<string>)
    ensures |DisturbedSet(c, who)| <= |DisturbedSet(c, who - some)| + |some|
  {
    hide Disturbed;
    Cardinality(DisturbedSet(c, who), DisturbedSet(c, who - some) + some);
  }

  /** One pass of full reconciliation: if every tier that it reaches has room within b, the disturbed machines among any
      that are watched stay within the larger of their number and b, but for what the tiers let through. */
  lemma FullBudget(c: Cluster, f: Full, g: Settings, who: set<string>, b: int)
    ensures Loaded(c) && Gated(c, f, g) && (forall m :: m in who ==> m in c.nodes) &&
            (forall i :: 0 <= i < |f.tiers| ==> Room(c, f.tiers[i], g, who, b)) ==>
      |DisturbedSet(f.stage.cluster, who)| <= Max(|DisturbedSet(c, who)|, b) + TierExtras(f.tiers, g, who)
  {
    hide Reconciled, Matches, Disturbed, Batch, Loaded, SameRoster, Room, RanOf, MinorOnly, Touched,
         InitNodeRuns.Relabelled;
    var n := |f.tiers|;
    if Loaded(c) && Gated(c, f, g) && (forall m :: m in who ==> m in c.nodes) &&
       (forall i :: 0 <= i < n ==> Room(c, f.tiers[i], g, who, b))
    {
      RelabelledDisturbed(Before(c, f.tiers, n), f.stage.cluster, who);
      if n > 0 {
        var last := f.tiers[n - 1];
        PrefixOrder(c, f.tiers, g);
        PassedTouches(c, f.tiers[..n - 1], g, who);
        LastTier(c, last, g, who, b);
      }
    }
  }

  // ---------------------------------------------------------------- which tiers plan for a machine

  /** The i-th tier is the one to plan for m, by its role and its mark. */
  predicate Serves(c: Cluster, i: nat, m: string) {
    && m in c.machines && m in c.secrets && !c.machines[m].deleting
    && var l := c.secrets[m].labels;
       match i
       case 0 => l.etcd && l.initNode == "true"
       case 1 => l.etcd && l.initNode != "true"
       case 2 => l.controlPlane && l.initNode != "true"
       case 3 => !l.etcd && !l.controlPlane && l.worker && l.initNode != "true"
       case _ => false
  }

  lemma InsideServes(c: Cluster, tier: Tier, i: nat, m: string)
    requires InRole(tier, i)
    ensures Inside(c, tier, m) <==> Serves(c, i, m)
  {
    hide Matches;
    BasicMeans(c, m);
    RoleMeans(c, m);
  }

  lemma BasicMeans(c: Cluster, m: string)
    ensures var s := m in c.secrets;
      && (Matches(c, Etcd, m) <==> s && c.secrets[m].labels.etcd)
      && (Matches(c, Filter.ControlPlane, m) <==> s && c.secrets[m].labels.controlPlane)
      && (Matches(c, Worker, m) <==> s && c.secrets[m].labels.worker)
      && (Matches(c, Filter.InitNode, m) <==> s && c.secrets[m].labels.initNode == "true")
      && (Matches(c, Deleting, m) <==> m in c.machines && c.machines[m].deleting)
  {
  }

  lemma RoleMeans(c: Cluster, m: string)
    ensures Matches(c, IS_ONLY_WORKER, m) <==>
      !Matches(c, Etcd, m) && !Matches(c, Filter.ControlPlane, m) && Matches(c, Worker, m)
    ensures Matches(c, IS_INIT_NODE_OR_DELETING, m) <==> Matches(c, Filter.InitNode, m) || Matches(c, Deleting, m)
    ensures Matches(c, IS_NOT_INIT_NODE_OR_IS_DELETING, m) <==>
      !Matches(c, Filter.InitNode, m) || Matches(c, Deleting, m)
  {
    hide Matches;
    NotMeans(c, Etcd, m);
    NotMeans(c, Filter.ControlPlane, m);
    NotMeans(c, Filter.InitNode, m);
    AndMeans(c, Not(Etcd), Not(Filter.ControlPlane), m);
    AndMeans(c, And(Not(Etcd), Not(Filter.ControlPlane)), Worker, m);
    OrMeans(c, Filter.InitNode, Deleting, m);
    OrMeans(c, Not(Filter.InitNode), Deleting, m);
  }

  /** m has a plan, and exactly these tiers plan for it. */
  ghost predicate ServedBy(c: Cluster, m: string, roles: set<nat>) {
    m in c.nodes && forall j: nat :: j < 4 ==> (Serves(c, j, m) <==> j in roles)
  }

  /** A worker is planned for in the worker tier only. A machine of the control plane that is not etcd, or the other way
      round, is planned for in its own tier only. One with both roles is planned for twice in a pass, unless it is the
      init node. */
  lemma RolesServed(c: Cluster, m: string)
    requires m in c.machines && m in c.secrets && m in c.nodes && !c.machines[m].deleting
    ensures var l := c.secrets[m].labels;
      && (l.initNode == "true" && l.etcd ==> ServedBy(c, m, {0}))
      && (l.initNode != "true" ==>
            && (l.etcd && !l.controlPlane ==> ServedBy(c, m, {1}))
            && (l.controlPlane && !l.etcd ==> ServedBy(c, m, {2}))
            && (l.controlPlane && l.etcd ==> ServedBy(c, m, {1, 2}))
            && (l.worker && !l.controlPlane && !l.etcd ==> ServedBy(c, m, {3})))
  {
  }

  lemma MinorBefore(c: Cluster, tiers: seq<Ran>, g: Settings, j: nat)
    requires InOrder(c, tiers, g) && 0 < j < |tiers| && Passed(c, tiers[..|tiers| - 1])
    ensures MinorOnly(tiers[j - 1].before, tiers[j].before)
  {
    hide RanOf, MinorOnly, Matches, InRole, Listed, QuietErr;
    var some := tiers[..|tiers| - 1];
    assert some[j - 1] == tiers[j - 1];
    assert Before(c, some, j - 1) == Before(c, tiers, j - 1);
  }

  lemma FirstBefore(c: Cluster, tiers: seq<Ran>, g: Settings)
    requires InOrder(c, tiers, g) && tiers != []
    ensures tiers[0].before == c && SameRoster(c, c)
  {
    hide RanOf, Matches, InRole, Listed;
  }

  /** Until the last tier of a pass, roster and labels stay as they were. */
  lemma {:induction false} BeforeRoster(c: Cluster, tiers: seq<Ran>, g: Settings, j: nat)
    requires InOrder(c, tiers, g) && j < |tiers| && Passed(c, tiers[..|tiers| - 1])
    ensures SameRoster(c, tiers[j].before)
  {
    hide Passed, InOrder, MinorOnly;
    if j == 0 {
      FirstBefore(c, tiers, g);
    } else {
      BeforeRoster(c, tiers, g, j - 1);
      MinorBefore(c, tiers, g, j);
      MinorKeepsRoster(tiers[j - 1].before, tiers[j].before);
    }
  }

  lemma RosterServes(c: Cluster, c': Cluster, i: nat, m: string)
    requires SameRoster(c, c')
    ensures Serves(c', i, m) <==> Serves(c, i, m)
  {
  }

  /** The i-th tier, if the pass reached it, worked under a limit of at most k. */
  ghost predicate LimitedAt(f: Full, g: Settings, i: nat, k: nat) {
    i < |f.tiers| && Listed(f.tiers[i].before, Collected(f.tiers[i].before, f.tiers[i].tier.filter)) ==>
      Limited(f.tiers[i].before, f.tiers[i].tier, g, k)
  }

  /** The two etcd tiers always work under the limit of one. */
  lemma EtcdLimit(c: Cluster, f: Full, g: Settings, i: nat)
    requires InOrder(c, f.tiers, g) && i < 2
    ensures LimitedAt(f, g, i, 1)
  {
    hide RanOf, Matches, Listed;
  }

  /** Of the machines inner, only the i-th tier plans; of those both, the i-th and the j-th. */
  ghost predicate Roles(c: Cluster, inner: set<string>, both: set<string>, i: nat, j: nat) {
    && (forall m :: m in inner ==> ServedBy(c, m, {i}))
    && (forall m :: m in both ==> ServedBy(c, m, {i, j}))
  }

  /** The n-th tier of the pass plans for the machines that it serves, as they were when the pass began. */
  lemma InsideAsAtFirst(c: Cluster, f: Full, g: Settings, n: nat)
    requires Gated(c, f, g) && n < |f.tiers|
    ensures n < 4 && forall m :: Inside(f.tiers[n].before, f.tiers[n].tier, m) <==> Serves(c, n, m)
  {
    hide Inside, Serves, SameRoster, Gated;
    var t := f.tiers[n];
    GatedOrder(c, f, g, n);
    forall m ensures Inside(t.before, t.tier, m) <==> Serves(c, n, m) {
      InsideServes(t.before, t.tier, n, m);
      RosterServes(c, t.before, n, m);
    }
  }

  lemma GatedOrder(c: Cluster, f: Full, g: Settings, n: nat)
    requires Gated(c, f, g) && n < |f.tiers|
    ensures InRole(f.tiers[n].tier, n) && SameRoster(c, f.tiers[n].before) && n < 4
  {
    hide RanOf, MinorOnly, Matches, InRole, Listed, SameRoster, InitNodeRuns.Relabelled, Passed;
    BeforeRoster(c, f.tiers, g, n);
    RoleBound(f.tiers[n].tier, n);
  }

  /** The room of each tier: the i-th one counts all of the watched machines, the j-th one those that are both. */
  lemma RolesRoom(c: Cluster, f: Full, g: Settings, inner: set<string>, both: set<string>, i: nat, j: nat, ki: nat,
                  kj: nat, n: nat)
    requires Gated(c, f, g) && Roles(c, inner, both, i, j) && i < 4 && j < 4 && (both != {} ==> i != j) && n < |f.tiers|
    requires LimitedAt(f, g, i, ki) && (both != {} ==> LimitedAt(f, g, j, kj))
    ensures both != {} ==> Room(c, f.tiers[n], g, inner + both, Max(ki, kj + |DisturbedSet(c, inner)|))
    ensures both == {} ==> Room(c, f.tiers[n], g, inner, ki)
  {
    hide Gated, Matches, Listed, Disturbed, Inside, Serves, Limited;
    var t, who := f.tiers[n], inner + both;
    InsideAsAtFirst(c, f, g, n);
    assert forall m :: m in inner ==> (Serves(c, n, m) <==> n == i);
    assert forall m :: m in both ==> (Serves(c, n, m) <==> n == i || n == j);
    assert DisturbedSet(c, {}) == {};
    if n == i {
      assert Beside(t.before, t.tier, who) == {} && Beside(t.before, t.tier, inner) == {};
    } else if n == j {
      assert Beside(t.before, t.tier, who) == inner - both;
      assert Beside(t.before, t.tier, inner) == inner;
      Within(c, inner - both, inner);
    } else {
      assert Beside(t.before, t.tier, who) == who && Beside(t.before, t.tier, inner) == inner;
    }
  }

  lemma RoleBound(tier: Tier, n: nat)
    requires InRole(tier, n)
    ensures n < 4
  {
  }

  // ---------------------------------------------------------------- runs

  ghost function FullOf(cp: Object, c: Cluster, w: World): Full {
    FullyReconciled(cp, cp.status, c, false, w)
  }

  /** The pass gets as far as full reconciliation. */
  ghost predicate Reconciles(cp: Object, c: Cluster, w: World) {
    Planned(cp, c, w) && !w.paused && !EtcdReplaced(cp.status, c)
  }

  /** What is asked of the events of a run: no operation is under way when a pass gets to its stages; the watched
      machines have these roles, and the tiers that plan for them work under these limits; and nobody else disturbs a
      machine. */
  ghost predicate Regular(c: Cluster, e: PassRuns.Event, c': Cluster, inner: set<string>, both: set<string>, i: nat,
                          j: nat, ki: nat, kj: nat) {
    match e
    case Pass(cp, w) =>
      var loaded := Refreshed(c);
      Loaded(loaded) && Planned(cp, loaded, w) ==>
        && PassRuns.OperationsRest(cp, loaded, w)
        && (Reconciles(cp, loaded, w) ==>
              var f, g := FullOf(cp, loaded, w), SettingsOf(cp, w);
              Roles(loaded, inner, both, i, j) && LimitedAt(f, g, i, ki) && (both != {} ==> LimitedAt(f, g, j, kj)))
    case Others(_) => true
    case Changes => DisturbedSet(c', inner + both) <= DisturbedSet(c, inner + both)
  }

  ghost function PassExtras(c: Cluster, e: PassRuns.Event, who: set<string>): nat {
    if !e.Pass? then 0 else
    var loaded := Refreshed(c);
    if Loaded(loaded) && Reconciles(e.cp, loaded, e.w)
    then TierExtras(FullOf(e.cp, loaded, e.w).tiers, SettingsOf(e.cp, e.w), who) else 0
  }

  ghost function RunExtras(cs: seq<Cluster>, es: seq<PassRuns.Event>, who: set<string>): nat
    requires |cs| == |es| + 1
  {
    if es == [] then 0
    else RunExtras(cs[..|es|], es[..|es| - 1], who) + PassExtras(cs[|es| - 1], es[|es| - 1], who)
  }

  lemma OrdinaryCluster(cp: Object, c: Cluster, w: World)
    requires (Planned(cp, c, w) ==> PassRuns.OperationsRest(cp, c, w))
    ensures Persisted(cp, c, w).cluster == if Reconciles(cp, c, w) then FullOf(cp, c, w).stage.cluster else c
  {
    hide FullyReconciled, Planned, Persisted, EtcdReplaced, PassRuns.OperationsRest;
    PersistedMeans(cp, c, w);
    if Planned(cp, c, w) { PassRuns.RestingIsOrdinary(cp, c, w); }
  }

  /** One pass, for machines that the i-th tier alone plans for, and for these together with machines that the j-th tier
      plans for as well. */
  lemma PassBudgets(c: Cluster, cp: Object, w: World, c': Cluster, inner: set<string>, both: set<string>, i: nat,
                    j: nat, ki: nat, kj: nat)
    requires PassRuns.Step(c, PassRuns.Pass(cp, w), c') && i < 4 && j < 4 && (both != {} ==> i != j)
    requires Regular(c, PassRuns.Pass(cp, w), c', inner, both, i, j, ki, kj)
    ensures var who := inner + both;
      |DisturbedSet(c', who)| <=
        Max(|DisturbedSet(c, who)|, Bound(c, inner, both, ki, kj)) + PassExtras(c, PassRuns.Pass(cp, w), who)
  {
    hide FullyReconciled, Persisted, Disturbed, Reconciles, SecretToNode, LimitedAt, Roles, TierExtras, Loaded, Planned,
         PassRuns.OperationsRest;
    var loaded, who := Refreshed(c), inner + both;
    DisturbedSame(c, loaded, who);
    DisturbedSame(c, loaded, inner);
    if Loaded(loaded) {
      OrdinaryCluster(cp, loaded, w);
      ReconcilesPlanned(cp, loaded, w);
      if Reconciles(cp, loaded, w) {
        PassWithin(cp, loaded, w, inner, both, i, j, ki, kj);
      }
    }
  }

  lemma ReconcilesPlanned(cp: Object, c: Cluster, w: World)
    ensures Reconciles(cp, c, w) ==> Planned(cp, c, w)
  {
  }

  /** The limit of the i-th tier; and, if there are machines that the j-th tier plans for as well, that of the j-th tier
      with the disturbed machines that it does not count. */
  ghost function Bound(c: Cluster, inner: set<string>, both: set<string>, ki: nat, kj: nat): int {
    if both == {} then ki else Max(ki, kj + |DisturbedSet(c, inner)|)
  }

  lemma StepBudgets(c: Cluster, e: PassRuns.Event, c': Cluster, inner: set<string>, both: set<string>, i: nat, j: nat,
                    ki: nat, kj: nat)
    requires PassRuns.Step(c, e, c') && Regular(c, e, c', inner, both, i, j, ki, kj)
    requires i < 4 && j < 4 && (both != {} ==> i != j)
    ensures var who := inner + both;
      |DisturbedSet(c', who)| <= Max(|DisturbedSet(c, who)|, Bound(c, inner, both, ki, kj)) + PassExtras(c, e, who)
  {
    hide FullyReconciled, Persisted, Disturbed, Reconciles, SecretToNode, LimitedAt, Roles, TierExtras, Loaded, Planned,
         Step, PassExtras, Bound;
    var who := inner + both;
    match e {
      case Pass(cp, w) => PassBudgets(c, cp, w, c', inner, both, i, j, ki, kj);
      case Others(o) => OthersNeverDisturb(c, o, c', who);
      case Changes => Cardinality(DisturbedSet(c', who), DisturbedSet(c, who));
    }
  }

  lemma PassWithin(cp: Object, c: Cluster, w: World, inner: set<string>, both: set<string>, i: nat, j: nat, ki: nat,
                   kj: nat)
    requires Loaded(c) && Roles(c, inner, both, i, j) && i < 4 && j < 4 && (both != {} ==> i != j)
    requires LimitedAt(FullOf(cp, c, w), SettingsOf(cp, w), i, ki)
    requires both != {} ==> LimitedAt(FullOf(cp, c, w), SettingsOf(cp, w), j, kj)
    ensures var f, who := FullOf(cp, c, w), inner + both;
      |DisturbedSet(f.stage.cluster, who)| <=
        Max(|DisturbedSet(c, who)|, Bound(c, inner, both, ki, kj)) + TierExtras(f.tiers, SettingsOf(cp, w), who)
  {
    hide FullyReconciled, Disturbed, Gated, Room, LimitedAt, Serves, TierExtras, Loaded;
    var f, g, who := FullOf(cp, c, w), SettingsOf(cp, w), inner + both;
    var b := Bound(c, inner, both, ki, kj);
    FullReconcileGated(cp, cp.status, c, false, w);
    assert both == {} ==> inner == who;
    forall n | 0 <= n < |f.tiers| ensures Room(c, f.tiers[n], g, who, b) {
      RolesRoom(c, f, g, inner, both, i, j, ki, kj, n);
    }
    FullBudget(c, f, g, who, b);
  }

  ghost predicate RegularRun(cs: seq<Cluster>, es: seq<PassRuns.Event>, inner: set<string>, both: set<string>, i: nat,
                             j: nat, ki: nat, kj: nat) {
    && PassRuns.Run(cs, es) && i < 4 && j < 4 && (both != {} ==> i != j)
    && forall n :: 0 <= n < |es| ==> Regular(cs[n], es[n], cs[n + 1], inner, both, i, j, ki, kj)
  }

  lemma RegularPrefix(cs: seq<Cluster>, es: seq<PassRuns.Event>, inner: set<string>, both: set<string>, i: nat, j: nat,
                      ki: nat, kj: nat)
    requires RegularRun(cs, es, inner, both, i, j, ki, kj) && es != []
    ensures var n := |es| - 1;
      && RegularRun(cs[..|es|], es[..n], inner, both, i, j, ki, kj) && cs[..|es|][n] == cs[n] && cs[..|es|][0] == cs[0]
      && PassRuns.Step(cs[n], es[n], cs[|es|]) && Regular(cs[n], es[n], cs[|es|], inner, both, i, j, ki, kj)
  {
    hide Regular, PassRuns.Step;
    var n := |es| - 1;
    PassRuns.RunPrefix(cs, es);
    assert Regular(cs[n], es[n], cs[n + 1], inner, both, i, j, ki, kj);
    var cs', es' := cs[..|es|], es[..n];
    forall l | 0 <= l < n ensures Regular(cs'[l], es'[l], cs'[l + 1], inner, both, i, j, ki, kj) {
      assert cs'[l] == cs[l] && cs'[l + 1] == cs[l + 1] && es'[l] == es[l];
    }
  }

  /** The budget of a tier, over every run of persisted passes and anything that happens in between: of the machines
      that only the i-th tier plans for, be they etcd, control-plane or worker machines, no more are disturbed at any
      moment than at first or than the limit allows, but for what the passes let through beside it. */
  lemma {:induction false} TierBudget(cs: seq<Cluster>, es: seq<PassRuns.Event>, who: set<string>, i: nat, k: nat)
    requires RegularRun(cs, es, who, {}, i, i, k, k)
    ensures |DisturbedSet(cs[|es|], who)| <= Max(|DisturbedSet(cs[0], who)|, k) + RunExtras(cs, es, who)
    decreases |es|
  {
    hide Regular, PassRuns.Step, PassExtras, Disturbed;
    if es != [] {
      var n := |es| - 1;
      RegularPrefix(cs, es, who, {}, i, i, k, k);
      TierBudget(cs[..|es|], es[..n], who, i, k);
      StepBudgets(cs[n], es[n], cs[|es|], who, {}, i, i, k, k);
      assert who + {} == who;
    }
  }

  lemma RegularInner(cs: seq<Cluster>, es: seq<PassRuns.Event>, inner: set<string>, both: set<string>, i: nat, j: nat,
                     ki: nat, kj: nat)
    requires RegularRun(cs, es, inner, both, i, j, ki, kj)
    ensures RegularRun(cs, es, inner, {}, i, i, ki, ki)
  {
    hide FullyReconciled, Persisted, Disturbed, Reconciles, SecretToNode, LimitedAt, ServedBy, Loaded, Planned,
         PassRuns.Step, PassRuns.OperationsRest;
    forall n | 0 <= n < |es| ensures Regular(cs[n], es[n], cs[n + 1], inner, {}, i, i, ki, ki) {
      assert Regular(cs[n], es[n], cs[n + 1], inner, both, i, j, ki, kj);
      ChangesInner(cs[n], cs[n + 1], inner, both);
    }
  }

  lemma ChangesInner(c: Cluster, c': Cluster, inner: set<string>, both: set<string>)
    ensures DisturbedSet(c', inner + both) <= DisturbedSet(c, inner + both) ==>
      DisturbedSet(c', inner + {}) <= DisturbedSet(c, inner + {})
  {
    hide Disturbed;
    if DisturbedSet(c', inner + both) <= DisturbedSet(c, inner + both) {
      forall m | m in DisturbedSet(c', inner + {}) ensures m in DisturbedSet(c, inner + {}) {
        assert m in DisturbedSet(c', inner + both);
        assert m in DisturbedSet(c, inner + both);
      }
    }
  }

  lemma {:induction false} ExtrasWithin(cs: seq<Cluster>, es: seq<PassRuns.Event>, some: set<string>, who: set<string>)
    requires |cs| == |es| + 1 && some <= who
    ensures RunExtras(cs, es, some) <= RunExtras(cs, es, who)
    decreases |es|
  {
    hide FullyReconciled, Reconciles, SecretToNode, Loaded;
    if es != [] {
      var n := |es| - 1;
      ExtrasWithin(cs[..|es|], es[..n], some, who);
      var c, e := cs[n], es[n];
      if e.Pass? { TierWithin(FullOf(e.cp, Refreshed(c), e.w).tiers, SettingsOf(e.cp, e.w), some, who); }
    }
  }

  lemma {:induction false} TierWithin(tiers: seq<Ran>, g: Settings, some: set<string>, who: set<string>)
    requires some <= who
    ensures TierExtras(tiers, g, some) <= TierExtras(tiers, g, who)
    decreases |tiers|
  {
    hide Batch, Matches;
    if tiers != [] {
      var last := tiers[|tiers| - 1];
      TierWithin(tiers[..|tiers| - 1], g, some, who);
      if Listed(last.before, Collected(last.before, last.tier.filter)) {
        CountsWithin(last.before, Batch(last.before, last.tier, g), some, who);
      }
    }
  }

  /** Two tiers: machines that the i-th and the j-th tier plan for are counted by both, together with different
      others. So for them and the machines of the i-th tier alone, the limits of the two tiers add up: of the control
      plane, with the machines that are etcd too, at most one more is disturbed than its own limit allows. */
  lemma {:induction false} TwoTierBudget(cs: seq<Cluster>, es: seq<PassRuns.Event>, inner: set<string>,
                                         both: set<string>, i: nat, j: nat, ki: nat, kj: nat)
    requires RegularRun(cs, es, inner, both, i, j, ki, kj)
    ensures var who := inner + both;
      |DisturbedSet(cs[|es|], who)| <=
        Max(|DisturbedSet(cs[0], who)|, Max(|DisturbedSet(cs[0], inner)|, ki) + kj) + RunExtras(cs, es, who)
    decreases |es|
  {
    hide Regular, PassRuns.Step, PassExtras, Disturbed;
    if es != [] {
      var n := |es| - 1;
      var cs', es' := cs[..|es|], es[..n];
      RegularPrefix(cs, es, inner, both, i, j, ki, kj);
      TwoTierBudget(cs', es', inner, both, i, j, ki, kj);
      RegularInner(cs', es', inner, both, i, j, ki, kj);
      TierBudget(cs', es', inner, i, ki);
      ExtrasWithin(cs', es', inner, inner + both);
      StepBudgets(cs[n], es[n], cs[|es|], inner, both, i, j, ki, kj);
    }
  }

  // ---------------------------------------------------------------- the limits do add up

  /** A tier does not look beyond its own machines: when its only machine is available and lags, the number of disturbed
      machines among any that are watched grows by one, however many are disturbed already. */
  lemma TierLooksNoFurther(c: Cluster, tier: Tier, g: Settings, who: set<string>, r: Reconcilable)
    requires Listed(c, Collected(c, tier.filter))
    ensures Acts(c, tier, g) && Batch(c, tier, g) == [r] && r.name in who && r.node.Some? && Lags(r) &&
            !IsUnavailable(c, r) ==>
      |DisturbedSet(Reconciled(c, tier, g).cluster, who)| == |DisturbedSet(c, who)| + 1
  {
    hide Reconciled, Acts, Batch, Inside, Lags, Advanced, IsUnavailable, Disturbed, Current, Matches;
    var c' := Reconciled(c, tier, g).cluster;
    if Acts(c, tier, g) && Batch(c, tier, g) == [r] && r.name in who && r.node.Some? && Lags(r) &&
       !IsUnavailable(c, r)
    {
      OnlyOne(c, r);
      var k := PassAdvances(c, tier, g);
      assert [r][k] == r;
      ActsLoaded(c, tier, g);
      BatchCurrent(c, tier, g);
      assert Current(c, [r][0]);
      AdvancedDisturbs(c, c', r, RequestOf(c, tier.options));
      var rest := who - {r.name};
      forall m | m in rest && m in c.secrets ensures m in c'.secrets && c'.secrets[m] == c.secrets[m] {
        OthersBeside(c, tier, g, r, m);
        BesideKept(c, tier, g, m);
      }
      BesideKept(c, tier, g, r.name);
      DisturbedSame(c, c', rest);
      assert DisturbedSet(c, who) == DisturbedSet(c, rest);
      assert DisturbedSet(c', who) == DisturbedSet(c', rest) + {r.name};
    }
  }

  lemma OnlyOne(c: Cluster, r: Reconcilable)
    requires r.node.Some? && !IsUnavailable(c, r)
    ensures UnavailableCount(c, [r]) == 0 && (Lags(r) ==> exists i :: 0 <= i < |[r]| && Lags([r][i]))
  {
    assert Lags(r) ==> Lags([r][0]);
  }

  lemma OthersBeside(c: Cluster, tier: Tier, g: Settings, r: Reconcilable, m: string)
    requires Listed(c, Collected(c, tier.filter)) && Acts(c, tier, g) && Batch(c, tier, g) == [r] && m != r.name
    ensures !Inside(c, tier, m)
  {
    hide Inside, Loaded, Gathered;
    BatchInside(c, tier, g, m);
    assert Outside([r], m);
  }

  lemma AdvancedDisturbs(c: Cluster, c': Cluster, r: Reconcilable, request: Mark)
    requires Current(c, r) && r.node.Some? && !IsUnavailable(c, r) && r.name in c'.secrets && Lags(r)
    requires Advanced(c.secrets[r.name], c'.secrets[r.name], r, request) && request != Blank
    ensures !Disturbed(c.secrets[r.name]) && Disturbed(c'.secrets[r.name])
  {
    LagsDiffers(c, r);
  }
}
