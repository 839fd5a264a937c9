/** A concrete run of two persisted passes, under two limits of one, after which two machines are disturbed at once. */
module AddedLimits {
  import opened Model
  import opened PlanEntry
  import opened Store
  import opened Scheduler
  import opened Budget
  import opened ControlPlane
  import opened FullReconcile
  import opened Gating
  import opened InitNode
  import opened Process
  import opened Exclusivity
  import opened Settled
  import opened Witnesses
  import opened ClusterBudget
  import InitNodeRuns
  import PassRuns
  import PlanChange

  // ---------------------------------------------------------------- three machines

  const BOTH := InitNodeRuns.UNLABELLED.(etcd := true, controlPlane := true)

  const INIT_NODE := InitNodeRuns.UNLABELLED.(etcd := true, worker := true, initNode := "true")

  const URL := "https://init"

  /** Three machines: i is the init node, a is etcd and control plane, b is control plane only. All have applied p; a
      and b have been given the plans pa and pb. */
  function TrioSecrets(p: NodePlan, pa: NodePlan, pb: NodePlan): map<string, Secret> {
    var i := Holding(INIT_NODE, p, p);
    map["a" := Holding(BOTH, pa, p), "b" := Holding(CONTROL_PLANE_ONLY, pb, p),
        "i" := i.(annotations := i.annotations.(joinURL := URL))]
  }

  function TrioNode(plan: NodePlan, applied: NodePlan): Node {
    Node(plan, Some(applied), "", map[], map[], false, plan == applied, true, false)
  }

  function TrioNodes(p: NodePlan, pa: NodePlan, pb: NodePlan): map<string, Node> {
    map["a" := TrioNode(pa, p), "b" := TrioNode(pb, p), "i" := TrioNode(p, p)]
  }

  const TRIO := map["a" := MACHINE, "b" := MACHINE, "i" := MACHINE]

  function Trio(p: NodePlan, pa: NodePlan, pb: NodePlan): Cluster {
    Cluster(TRIO, TrioNodes(p, pa, pb), TrioSecrets(p, pa, pb))
  }

  /** The machines in changed are to get the longer plan. */
  function TrioWorld(p: NodePlan, changed: set<string>): World {
    World((m, labels, annotations, url) => Rendered(if m in changed then Longer(p) else p, ""),
          (purpose, m, labels, annotations, url) => Rendered(p, ""),
          _ => 0, _ => false, PlanLoaded, false, false, true, true, true, false, Good(None), false, Good(true),
          _ => None, true)
  }

  /** A control plane that is up, with no operation to carry out, and with limits of one and no drains. */
  const PLANE := Object(
    Spec(None, None, None, None, Strategy(Number(1), Number(1), NO_DRAIN, NO_DRAIN)),
    Status(true, true, Yes, Yes, Yes, Yes, true, 0, 0, None, NoPhase, None, NoPhase, None, NoKeyPhase, "", None),
    "", false)

  lemma TrioReads(p: NodePlan, pa: NodePlan, pb: NodePlan)
    ensures var s, n := TrioSecrets(p, pa, pb), TrioNodes(p, pa, pb);
      forall m :: m in s ==> m in n && SecretToNode(s[m]) == Readable(n[m])
  {
    var s := TrioSecrets(p, pa, pb);
    HoldingReads(s["a"], BOTH, pa, p);
    HoldingReads(s["b"], CONTROL_PLANE_ONLY, pb, p);
    HoldingReads(s["i"], INIT_NODE, p, p);
    hide SecretToNode;
  }

  /** Whatever the old snapshot, a new one of these secrets is the one of the trio. */
  lemma TrioLoaded(p: NodePlan, pa: NodePlan, pb: NodePlan, nodes: map<string, Node>)
    ensures Loaded(Trio(p, pa, pb)) && Refreshed(Cluster(TRIO, nodes, TrioSecrets(p, pa, pb))) == Trio(p, pa, pb)
  {
    TrioReads(p, pa, pb);
    hide SecretToNode;
    assert Refreshed(Cluster(TRIO, nodes, TrioSecrets(p, pa, pb))).nodes == TrioNodes(p, pa, pb);
  }

  lemma TrioMatches(p: NodePlan, pa: NodePlan, pb: NodePlan, m: string)
    requires m in TRIO
    ensures var c := Trio(p, pa, pb);
      && (Matches(c, Etcd, m) <==> m == "a" || m == "i")
      && (Matches(c, Filter.ControlPlane, m) <==> m == "a" || m == "b")
      && (Matches(c, Worker, m) <==> m == "i") && (Matches(c, Filter.InitNode, m) <==> m == "i")
      && !Matches(c, Deleting, m) && Matches(c, HasPlan, m)
  {
    BasicOf(Trio(p, pa, pb), m);
    hide Matches;
  }

  lemma TrioRoles(p: NodePlan, pa: NodePlan, pb: NodePlan, m: string)
    requires m in TRIO
    ensures var c := Trio(p, pa, pb);
      && (Matches(c, IS_INIT_NODE_OR_DELETING, m) <==> m == "i")
      && (Matches(c, IS_NOT_INIT_NODE_OR_IS_DELETING, m) <==> m != "i")
      && !Matches(c, IS_ONLY_WORKER, m)
  {
    hide Matches;
    var c := Trio(p, pa, pb);
    TrioMatches(p, pa, pb, m);
    NotMeans(c, Etcd, m);
    NotMeans(c, Filter.ControlPlane, m);
    NotMeans(c, Filter.InitNode, m);
    AndMeans(c, Not(Etcd), Not(Filter.ControlPlane), m);
    AndMeans(c, And(Not(Etcd), Not(Filter.ControlPlane)), Worker, m);
    OrMeans(c, Filter.InitNode, Deleting, m);
    OrMeans(c, Not(Filter.InitNode), Deleting, m);
  }

  /** The i-th tier of the trio's passes, and the machines that it selects and plans for. */
  lemma TrioSelected(p: NodePlan, pa: NodePlan, pb: NodePlan)
    ensures var c := Trio(p, pa, pb);
      && Collected(c, Etcd) == ["a", "i"] && Collected(c, Filter.ControlPlane) == ["a", "b"]
      && Listed(c, ["a", "i"]) && Listed(c, ["a", "b"])
  {
    hide Matches;
    var c := Trio(p, pa, pb);
    forall m | m in c.machines
      ensures Matches(c, Etcd, m) <==> m == "a" || m == "i"
      ensures Matches(c, Filter.ControlPlane, m) <==> m == "a" || m == "b"
    {
      TrioMatches(p, pa, pb, m);
    }
    TwoSelected(c, Etcd, "a", "i");
    TwoSelected(c, Filter.ControlPlane, "a", "b");
  }

  function TrioReconcilable(p: NodePlan, pa: NodePlan, pb: NodePlan, changed: set<string>, m: string): Reconcilable
    requires m in TRIO
  {
    MakeReconcilable(Trio(p, pa, pb), m, if m in changed then Longer(p) else p, "")
  }

  lemma TrioPrepared(p: NodePlan, pa: NodePlan, pb: NodePlan, changed: set<string>, m: string, url: string)
    requires m in TRIO
    ensures var c, g := Trio(p, pa, pb), SettingsOf(PLANE, TrioWorld(p, changed));
      Prepared(c, m, url, g) == Good(TrioReconcilable(p, pa, pb, changed, m))
  {
    hide Matches, MakeReconcilable;
    TrioRoles(p, pa, pb, m);
    var c, g := Trio(p, pa, pb), SettingsOf(PLANE, TrioWorld(p, changed));
    PreparedIs(c, m, url, g, if m in changed then Longer(p) else p);
  }

  const LIMITS := LimitsOf(PLANE.spec.strategy, false)

  lemma TrioTier(p: NodePlan, pa: NodePlan, pb: NodePlan, changed: set<string>, tier: Tier)
    ensures var c, g := Trio(p, pa, pb), SettingsOf(PLANE, TrioWorld(p, changed));
      forall m :: m in TRIO ==>
        && m in c.machines && m in c.secrets
        && Prepared(c, m, tier.joinURL, g) == Good(TrioReconcilable(p, pa, pb, changed, m))
        && (Matches(c, IS_INIT_NODE_OR_DELETING, m) <==> m == "i")
        && (Matches(c, IS_NOT_INIT_NODE_OR_IS_DELETING, m) <==> m != "i")
  {
    hide Matches, Prepared, TrioReconcilable;
    forall m | m in TRIO
      ensures var c, g := Trio(p, pa, pb), SettingsOf(PLANE, TrioWorld(p, changed));
        && Prepared(c, m, tier.joinURL, g) == Good(TrioReconcilable(p, pa, pb, changed, m))
        && (Matches(c, IS_INIT_NODE_OR_DELETING, m) <==> m == "i")
        && (Matches(c, IS_NOT_INIT_NODE_OR_IS_DELETING, m) <==> m != "i")
    {
      TrioPrepared(p, pa, pb, changed, m, tier.joinURL);
      TrioRoles(p, pa, pb, m);
    }
  }

  /** What the first three tiers gather. */
  lemma TrioBootstrap(p: NodePlan, pa: NodePlan, pb: NodePlan, changed: set<string>)
    ensures var c, g, t := Trio(p, pa, pb), SettingsOf(PLANE, TrioWorld(p, changed)), BootstrapTier(NO_DRAIN);
      && Listed(c, Collected(c, t.filter))
      && Gathered(c, Collected(c, t.filter), t.exclude, t.joinURL, g) ==
         Good([TrioReconcilable(p, pa, pb, changed, "i")])
  {
    hide Matches, Prepared, TrioReconcilable, Trio, TrioWorld, SettingsOf, Gathered;
    var c, g, t := Trio(p, pa, pb), SettingsOf(PLANE, TrioWorld(p, changed)), BootstrapTier(NO_DRAIN);
    TrioSelected(p, pa, pb);
    TrioTier(p, pa, pb, changed, t);
    GatheredPair(c, "a", "i", t, g, TrioReconcilable(p, pa, pb, changed, "a"),
                 TrioReconcilable(p, pa, pb, changed, "i"));
  }

  lemma TrioEtcd(p: NodePlan, pa: NodePlan, pb: NodePlan, changed: set<string>)
    ensures var c, g, t := Trio(p, pa, pb), SettingsOf(PLANE, TrioWorld(p, changed)), EtcdTier(URL, NO_DRAIN);
      && Listed(c, Collected(c, t.filter))
      && Gathered(c, Collected(c, t.filter), t.exclude, t.joinURL, g) ==
         Good([TrioReconcilable(p, pa, pb, changed, "a")])
  {
    hide Matches, Prepared, TrioReconcilable, Trio, TrioWorld, SettingsOf, Gathered;
    var c, g, t := Trio(p, pa, pb), SettingsOf(PLANE, TrioWorld(p, changed)), EtcdTier(URL, NO_DRAIN);
    TrioSelected(p, pa, pb);
    TrioTier(p, pa, pb, changed, t);
    GatheredPair(c, "a", "i", t, g, TrioReconcilable(p, pa, pb, changed, "a"),
                 TrioReconcilable(p, pa, pb, changed, "i"));
  }

  lemma TrioControlPlane(p: NodePlan, pa: NodePlan, pb: NodePlan, changed: set<string>)
    ensures var c, g, t := Trio(p, pa, pb), SettingsOf(PLANE, TrioWorld(p, changed)), ControlPlaneTier(URL, LIMITS);
      && Listed(c, Collected(c, t.filter))
      && Gathered(c, Collected(c, t.filter), t.exclude, t.joinURL, g) ==
         Good([TrioReconcilable(p, pa, pb, changed, "a"), TrioReconcilable(p, pa, pb, changed, "b")])
  {
    hide Matches, Prepared, TrioReconcilable, Trio, TrioWorld, SettingsOf, Gathered;
    var c, g, t := Trio(p, pa, pb), SettingsOf(PLANE, TrioWorld(p, changed)), ControlPlaneTier(URL, LIMITS);
    TrioSelected(p, pa, pb);
    TrioTier(p, pa, pb, changed, t);
    GatheredPair(c, "a", "b", t, g, TrioReconcilable(p, pa, pb, changed, "a"),
                 TrioReconcilable(p, pa, pb, changed, "b"));
  }

  // ---------------------------------------------------------------- the pass

  lemma TrioJoined(p: NodePlan, pa: NodePlan, pb: NodePlan)
    ensures Settled.Joined(PLANE, Trio(p, pa, pb), URL)
  {
    hide Matches, Elected, Marks;
    var c := Trio(p, pa, pb);
    InitNodeRuns.CandidateMeans(c, "i");
    InitNodeRuns.MarksAre(c);
    assert Marks(c) == {"i"};
    InitNodeRuns.GoodMarkRests(c, "i");
  }

  lemma SomeSelected(c: Cluster, f: Filter, m: string)
    requires m in c.machines && Matches(c, f, m)
    ensures Collected(c, f) != []
  {
    hide Matches;
    assert m in Collected(c, f);
  }

  lemma TrioReconciles(p: NodePlan, pa: NodePlan, pb: NodePlan, changed: set<string>)
    ensures Planned(PLANE, Trio(p, pa, pb), TrioWorld(p, changed))
    ensures Reconciles(PLANE, Trio(p, pa, pb), TrioWorld(p, changed))
  {
    hide Matches;
    var c := Trio(p, pa, pb);
    TrioMatches(p, pa, pb, "i");
    TrioMatches(p, pa, pb, "a");
    NotMeans(c, Deleting, "i");
    NotMeans(c, Deleting, "a");
    AndMeans(c, Etcd, Not(Deleting), "i");
    AndMeans(c, Filter.ControlPlane, Not(Deleting), "a");
    AndMeans(c, Worker, Not(Deleting), "i");
    AndMeans(c, Etcd, HasPlan, "i");
    SomeSelected(c, And(Etcd, Not(Deleting)), "i");
    SomeSelected(c, And(Filter.ControlPlane, Not(Deleting)), "a");
    SomeSelected(c, And(Worker, Not(Deleting)), "i");
    SomeSelected(c, And(Etcd, HasPlan), "i");
  }

  lemma TrioOperationsRest(c: Cluster, p: NodePlan, changed: set<string>)
    ensures PassRuns.OperationsRest(PLANE, c, TrioWorld(p, changed))
  {
  }

  /** A plan that can be quiet. */
  predicate Plain(p: NodePlan) {
    p.instructions != [] && p.error == ""
  }

  /** A machine of the trio that has applied its plan: it has arrived if that is the desired one, and otherwise gets the
      longer plan. */
  lemma TrioMachine(p: NodePlan, pa: NodePlan, pb: NodePlan, changed: set<string>, m: string)
    requires Plain(p) && m in TRIO && (m == "a" ==> pa == p) && (m == "b" ==> pb == p)
    ensures var c, g, r := Trio(p, pa, pb), SettingsOf(PLANE, TrioWorld(p, changed)),
                           TrioReconcilable(p, pa, pb, changed, m);
      && r.name == m && m in c.machines && m in c.secrets && Plainly(c, r) && !(r.node.Some? && IsUnavailable(c, r))
      && r.joinedURL == ""
      && (m !in changed ==> Arrived(c, r, g))
      && (m in changed ==>
            Writes(c, r, NO_DRAIN) && r.desired == Longer(p) && c.secrets[m].plan != Encoded(r.desired))
  {
    LongerIsMajor(p);
    hide Matches, PlanChange.MinorChange;
  }

  lemma TrioBootstrapRests(p: NodePlan, pa: NodePlan, pb: NodePlan, changed: set<string>)
    requires Plain(p) && "i" !in changed
    ensures var c, g, t := Trio(p, pa, pb), SettingsOf(PLANE, TrioWorld(p, changed)), BootstrapTier(NO_DRAIN);
      Rests(c, t, g) && Extras(c, t, g, {"a", "b"}) == 0
  {
    hide Matches, Gathered, TrioReconcilable, Trio, Arrived, Plainly, Rests, TrioWorld, SettingsOf, IsUnavailable;
    TrioBootstrap(p, pa, pb, changed);
    TrioSelected(p, pa, pb);
    TrioMachine(p, pa, pb, changed, "i");
    OneRests(Trio(p, pa, pb), BootstrapTier(NO_DRAIN), SettingsOf(PLANE, TrioWorld(p, changed)),
             TrioReconcilable(p, pa, pb, changed, "i"), {"a", "b"});
  }

  lemma TrioEtcdRests(p: NodePlan, pb: NodePlan, changed: set<string>)
    requires Plain(p) && "a" !in changed
    ensures var c, g, t := Trio(p, p, pb), SettingsOf(PLANE, TrioWorld(p, changed)), EtcdTier(URL, NO_DRAIN);
      Rests(c, t, g) && Extras(c, t, g, {"a", "b"}) == 0
  {
    hide Matches, Gathered, TrioReconcilable, Trio, Arrived, Plainly, Rests, TrioWorld, SettingsOf, IsUnavailable;
    TrioEtcd(p, p, pb, changed);
    TrioSelected(p, p, pb);
    TrioMachine(p, p, pb, changed, "a");
    OneRests(Trio(p, p, pb), EtcdTier(URL, NO_DRAIN), SettingsOf(PLANE, TrioWorld(p, changed)),
             TrioReconcilable(p, p, pb, changed, "a"), {"a", "b"});
  }

  lemma TrioEtcdLags(p: NodePlan, pb: NodePlan, changed: set<string>)
    requires Plain(p) && "a" in changed
    ensures var c, g, t := Trio(p, p, pb), SettingsOf(PLANE, TrioWorld(p, changed)), EtcdTier(URL, NO_DRAIN);
      && Listed(c, Collected(c, t.filter)) && LastLags(c, t, g)
      && Batch(c, t, g) == [TrioReconcilable(p, p, pb, changed, "a")]
      && Extras(c, t, g, {"a", "b"}) == 0
  {
    hide Matches, Gathered, TrioReconcilable, Trio, Writes, Plainly, LastLags, TrioWorld, SettingsOf, IsUnavailable;
    TrioEtcd(p, p, pb, changed);
    TrioSelected(p, p, pb);
    TrioMachine(p, p, pb, changed, "a");
    OneLags(Trio(p, p, pb), EtcdTier(URL, NO_DRAIN), SettingsOf(PLANE, TrioWorld(p, changed)),
            TrioReconcilable(p, p, pb, changed, "a"), {"a", "b"});
  }

  lemma TrioControlPlaneLags(p: NodePlan)
    requires Plain(p)
    ensures var c, g := Trio(p, p, p), SettingsOf(PLANE, TrioWorld(p, {"b"}));
      var t := ControlPlaneTier(URL, LIMITS);
      && Listed(c, Collected(c, t.filter)) && LastLags(c, t, g)
      && Batch(c, t, g) == [TrioReconcilable(p, p, p, {"b"}, "a"), TrioReconcilable(p, p, p, {"b"}, "b")]
      && Extras(c, t, g, {"a", "b"}) == 0
  {
    hide Matches, Gathered, TrioReconcilable, Trio, Writes, Arrived, Plainly, LastLags, TrioWorld, SettingsOf,
         IsUnavailable;
    TrioControlPlane(p, p, p, {"b"});
    TrioSelected(p, p, p);
    TrioMachine(p, p, p, {"b"}, "a");
    TrioMachine(p, p, p, {"b"}, "b");
    TwoLag(Trio(p, p, p), ControlPlaneTier(URL, LIMITS), SettingsOf(PLANE, TrioWorld(p, {"b"})),
           TrioReconcilable(p, p, p, {"b"}, "a"), TrioReconcilable(p, p, p, {"b"}, "b"), {"a", "b"});
  }

  // ---------------------------------------------------------------- the two passes

  /** The change of the first machine, or of the second one, in the secrets. */
  lemma TrioWritten(p: NodePlan, pa: NodePlan, pb: NodePlan, changed: set<string>, m: string)
    requires m in TRIO && m in changed
    ensures var c, r := Trio(p, pa, pb), TrioReconcilable(p, pa, pb, changed, m);
      && (m == "a" ==> WithDesired(c, r) == c.(secrets := TrioSecrets(p, Longer(p), pb)))
      && (m == "b" ==> WithDesired(c, r) == c.(secrets := TrioSecrets(p, pa, Longer(p))))
  {
    HoldingWritten(BOTH, pa, p, Longer(p));
    HoldingWritten(CONTROL_PLANE_ONLY, pb, p, Longer(p));
    hide WithPlan, Holding;
    var c := Trio(p, pa, pb);
    assert c.secrets["a" := Holding(BOTH, Longer(p), p)] == TrioSecrets(p, Longer(p), pb);
    assert c.secrets["b" := Holding(CONTROL_PLANE_ONLY, Longer(p), p)] == TrioSecrets(p, pa, Longer(p));
  }

  lemma ExtrasSnoc(done: seq<Ran>, t: Ran, g: Settings, who: set<string>)
    requires Listed(t.before, Collected(t.before, t.tier.filter))
    ensures TierExtras(done + [t], g, who) == TierExtras(done, g, who) + Extras(t.before, t.tier, g, who)
  {
    hide Matches, Batch;
    assert (done + [t])[..|done|] == done;
  }

  lemma LimitsAre()
    ensures LIMITS == Limits(Number(1), Number(1), NO_DRAIN, NO_DRAIN)
  {
  }

  /** What a full reconciliation of the trio leaves, and that it is within the limits of the two tiers without extras.
      */
  ghost predicate Written(f: Full, g: Settings, c: Cluster, secrets: map<string, Secret>) {
    && f.stage.cluster == c.(secrets := secrets) && TierExtras(f.tiers, g, {"a", "b"}) == 0
    && LimitedAt(f, g, 1, 1) && LimitedAt(f, g, 2, 1)
  }

  lemma LimitedIs(f: Full, g: Settings, i: nat)
    ensures (i < |f.tiers| ==> f.tiers[i].tier.maxUnavailable == Number(1)) ==> LimitedAt(f, g, i, 1)
  {
    hide Batch, Matches, Listed;
  }

  /** In the first pass, b gets the longer plan in the control-plane tier. */
  lemma FirstLeaves(p: NodePlan)
    requires Plain(p)
    ensures var c, w := Trio(p, p, p), TrioWorld(p, {"b"});
      var f, t := FullOf(PLANE, c, w), ControlPlaneTier(URL, LIMITS);
      && Listed(c, Collected(c, t.filter)) && f.stage.cluster == c.(secrets := TrioSecrets(p, p, Longer(p)))
      && f.tiers == [Ran(BootstrapTier(NO_DRAIN), c, c, Nil)] + [Ran(EtcdTier(URL, NO_DRAIN), c, c, Nil)] +
                    [RanOf(c, t, SettingsOf(PLANE, w))]
  {
    hide Matches, FullyReconciled, Rests, Joined, LastLags, WithDesired, Trio, TrioWorld, TrioSecrets, TrioReconcilable,
         Batch, Extras, RanOf, LimitsOf, Listed, SettingsOf, Longer, Reconciled;
    var c, w := Trio(p, p, p), TrioWorld(p, {"b"});
    LimitsAre();
    TrioJoined(p, p, p);
    TrioBootstrapRests(p, p, p, {"b"});
    TrioEtcdRests(p, p, {"b"});
    TrioControlPlaneLags(p);
    TrioWritten(p, p, p, {"b"}, "b");
    EndsAtControlPlane(PLANE, c, w, URL);
  }

  lemma FirstPass(p: NodePlan)
    requires Plain(p)
    ensures var c, w := Trio(p, p, p), TrioWorld(p, {"b"});
      Written(FullOf(PLANE, c, w), SettingsOf(PLANE, w), c, TrioSecrets(p, p, Longer(p)))
  {
    hide Matches, FullyReconciled, Rests, LastLags, Trio, TrioWorld, TrioSecrets, TrioReconcilable, Batch, Extras,
         RanOf, LimitsOf, Listed, SettingsOf, LimitedAt, Longer, Reconciled, TierExtras;
    var c, w := Trio(p, p, p), TrioWorld(p, {"b"});
    var f, g := FullOf(PLANE, c, w), SettingsOf(PLANE, w);
    LimitsAre();
    FirstLeaves(p);
    TierListed(c, Etcd);
    TrioBootstrapRests(p, p, p, {"b"});
    TrioEtcdRests(p, p, {"b"});
    TrioControlPlaneLags(p);
    var r0, r1 := Ran(BootstrapTier(NO_DRAIN), c, c, Nil), Ran(EtcdTier(URL, NO_DRAIN), c, c, Nil);
    var r2 := RanOf(c, ControlPlaneTier(URL, LIMITS), g);
    TwoExtras(r0, r1, g);
    ExtrasSnoc([r0] + [r1], r2, g, {"a", "b"});
    LimitedIs(f, g, 1);
    LimitedIs(f, g, 2);
  }

  lemma TwoExtras(r0: Ran, r1: Ran, g: Settings)
    requires Listed(r0.before, Collected(r0.before, r0.tier.filter))
    requires Listed(r1.before, Collected(r1.before, r1.tier.filter))
    ensures TierExtras([r0] + [r1], g, {"a", "b"}) ==
            Extras(r0.before, r0.tier, g, {"a", "b"}) + Extras(r1.before, r1.tier, g, {"a", "b"})
  {
    hide Extras, Listed;
    ExtrasSnoc([], r0, g, {"a", "b"});
    ExtrasSnoc([r0], r1, g, {"a", "b"});
    assert [] + [r0] == [r0];
  }

  /** In the second pass, a gets the longer plan in the etcd tier, although b is disturbed. */
  lemma SecondLeaves(p: NodePlan)
    requires Plain(p)
    ensures var c, w := Trio(p, p, Longer(p)), TrioWorld(p, {"a", "b"});
      var f, t := FullOf(PLANE, c, w), EtcdTier(URL, NO_DRAIN);
      && Listed(c, Collected(c, t.filter)) && f.stage.cluster == c.(secrets := TrioSecrets(p, Longer(p), Longer(p)))
      && f.tiers == [Ran(BootstrapTier(NO_DRAIN), c, c, Nil)] + [RanOf(c, t, SettingsOf(PLANE, w))]
  {
    hide Matches, FullyReconciled, Rests, Joined, LastLags, WithDesired, Trio, TrioWorld, TrioSecrets, TrioReconcilable,
         Batch, Extras, RanOf, LimitsOf, Listed, SettingsOf, Longer, Reconciled;
    var q, changed := Longer(p), {"a", "b"};
    var c, w := Trio(p, p, q), TrioWorld(p, changed);
    LimitsAre();
    TrioJoined(p, p, q);
    TrioBootstrapRests(p, p, q, changed);
    TrioEtcdLags(p, q, changed);
    TrioWritten(p, p, q, changed, "a");
    EndsAtEtcd(PLANE, c, w, URL);
  }

  lemma SecondPass(p: NodePlan)
    requires Plain(p)
    ensures var c, w := Trio(p, p, Longer(p)), TrioWorld(p, {"a", "b"});
      Written(FullOf(PLANE, c, w), SettingsOf(PLANE, w), c, TrioSecrets(p, Longer(p), Longer(p)))
  {
    hide Matches, FullyReconciled, Rests, LastLags, Trio, TrioWorld, TrioSecrets, TrioReconcilable, Batch, Extras,
         RanOf, LimitsOf, Listed, SettingsOf, LimitedAt, Longer, Reconciled, TierExtras;
    var q, changed := Longer(p), {"a", "b"};
    var c, w := Trio(p, p, q), TrioWorld(p, changed);
    var f, g := FullOf(PLANE, c, w), SettingsOf(PLANE, w);
    SecondLeaves(p);
    TierListed(c, Etcd);
    TrioBootstrapRests(p, p, q, changed);
    TrioEtcdLags(p, q, changed);
    TwoExtras(Ran(BootstrapTier(NO_DRAIN), c, c, Nil), RanOf(c, EtcdTier(URL, NO_DRAIN), g), g);
    LimitedIs(f, g, 1);
    LimitedIs(f, g, 2);
  }

  /** Of the watched machines, b is planned for in the control-plane tier alone, a in the etcd tier as well. */
  lemma TrioServed(p: NodePlan, pa: NodePlan, pb: NodePlan)
    ensures ClusterBudget.Roles(Trio(p, pa, pb), {"b"}, {"a"}, 2, 1)
  {
    RolesServed(Trio(p, pa, pb), "a");
    RolesServed(Trio(p, pa, pb), "b");
    hide Serves;
  }

  lemma TrioDisturbed(c: Cluster, p: NodePlan, pa: NodePlan, pb: NodePlan)
    requires c.secrets == TrioSecrets(p, pa, pb)
    ensures "a" in DisturbedSet(c, {"b"} + {"a"}) <==> pa != p
    ensures "b" in DisturbedSet(c, {"b"} + {"a"}) <==> pb != p
  {
  }

  /** One persisted pass of the trio, for a step of the run. */
  lemma TrioStep(p: NodePlan, pa: NodePlan, pb: NodePlan, changed: set<string>, secrets: map<string, Secret>,
                 nodes: map<string, Node>)
    requires var c, w := Trio(p, pa, pb), TrioWorld(p, changed);
      Written(FullOf(PLANE, c, w), SettingsOf(PLANE, w), c, secrets)
    ensures var from, to := Cluster(TRIO, nodes, TrioSecrets(p, pa, pb)), Cluster(TRIO, TrioNodes(p, pa, pb), secrets);
      var e := PassRuns.Pass(PLANE, TrioWorld(p, changed));
      && PassRuns.Step(from, e, to) && ClusterBudget.Regular(from, e, to, {"b"}, {"a"}, 2, 1, 1, 1)
      && PassExtras(from, e, {"b"} + {"a"}) == 0
  {
    hide FullyReconciled, Persisted, Reconciles, Planned, TrioSecrets, TrioWorld, LimitedAt, Roles, Loaded, SettingsOf,
         PassRuns.OperationsRest, TierExtras, Refreshed;
    var c, w := Trio(p, pa, pb), TrioWorld(p, changed);
    TrioLoaded(p, pa, pb, nodes);
    TrioOperationsRest(c, p, changed);
    TrioReconciles(p, pa, pb, changed);
    TrioServed(p, pa, pb);
    OrdinaryCluster(PLANE, c, w);
    assert {"b"} + {"a"} == {"a", "b"};
  }

  lemma TwoSteps(c0: Cluster, e0: PassRuns.Event, c1: Cluster, e1: PassRuns.Event, c2: Cluster)
    requires PassRuns.Step(c0, e0, c1) && PassRuns.Step(c1, e1, c2)
    requires ClusterBudget.Regular(c0, e0, c1, {"b"}, {"a"}, 2, 1, 1, 1)
    requires ClusterBudget.Regular(c1, e1, c2, {"b"}, {"a"}, 2, 1, 1, 1)
    requires PassExtras(c0, e0, {"b"} + {"a"}) == 0 == PassExtras(c1, e1, {"b"} + {"a"})
    ensures RegularRun([c0, c1, c2], [e0, e1], {"b"}, {"a"}, 2, 1, 1, 1)
    ensures RunExtras([c0, c1, c2], [e0, e1], {"b"} + {"a"}) == 0
  {
    hide PassRuns.Step, ClusterBudget.Regular, PassExtras;
    var cs, es := [c0, c1, c2], [e0, e1];
    forall i | 0 <= i < |es|
      ensures PassRuns.Step(cs[i], es[i], cs[i + 1])
      ensures ClusterBudget.Regular(cs[i], es[i], cs[i + 1], {"b"}, {"a"}, 2, 1, 1, 1)
    {
      if i == 0 {} else {}
    }
    assert cs[..2] == [c0, c1] && es[..1] == [e0] && [c0, c1][..1] == [c0] && [e0][..0] == [];
    assert RunExtras([c0, c1], [e0], {"b"} + {"a"}) == 0;
  }

  /** The clusters of the run, each with the snapshot of the pass before. */
  function Before(p: NodePlan): Cluster {
    Cluster(TRIO, TrioNodes(p, p, p), TrioSecrets(p, p, p))
  }

  function Between(p: NodePlan): Cluster {
    Cluster(TRIO, TrioNodes(p, p, p), TrioSecrets(p, p, Longer(p)))
  }

  function Afterwards(p: NodePlan): Cluster {
    Cluster(TRIO, TrioNodes(p, p, Longer(p)), TrioSecrets(p, Longer(p), Longer(p)))
  }

  lemma BothSteps(p: NodePlan)
    requires Plain(p)
    ensures var e0, e1 := PassRuns.Pass(PLANE, TrioWorld(p, {"b"})), PassRuns.Pass(PLANE, TrioWorld(p, {"a", "b"}));
      && PassRuns.Step(Before(p), e0, Between(p)) && PassRuns.Step(Between(p), e1, Afterwards(p))
      && ClusterBudget.Regular(Before(p), e0, Between(p), {"b"}, {"a"}, 2, 1, 1, 1)
      && ClusterBudget.Regular(Between(p), e1, Afterwards(p), {"b"}, {"a"}, 2, 1, 1, 1)
      && PassExtras(Before(p), e0, {"b"} + {"a"}) == 0 == PassExtras(Between(p), e1, {"b"} + {"a"})
  {
    hide TrioSecrets, TrioNodes, TrioWorld, PassRuns.Step, ClusterBudget.Regular, PassExtras, Written, Longer;
    FirstPass(p);
    SecondPass(p);
    TrioStep(p, p, p, {"b"}, TrioSecrets(p, p, Longer(p)), TrioNodes(p, p, p));
    TrioStep(p, p, Longer(p), {"a", "b"}, TrioSecrets(p, Longer(p), Longer(p)), TrioNodes(p, p, p));
  }

  lemma NoneThenTwo(p: NodePlan)
    requires Longer(p) != p
    ensures DisturbedSet(Before(p), {"b"} + {"a"}) == {} && DisturbedSet(Afterwards(p), {"b"} + {"a"}) == {"a", "b"}
  {
    hide TrioSecrets, Longer, Disturbed;
    TrioDisturbed(Before(p), p, p, p);
    TrioDisturbed(Afterwards(p), p, Longer(p), Longer(p));
  }

  /** The limits of two tiers do add up, and the bound for two tiers is tight: from no disturbed machine on, two passes
      under limits of one, without extras, leave both machines disturbed. */
  lemma LimitsAddUp(ok: Instruction) returns (cs: seq<Cluster>, es: seq<PassRuns.Event>)
    ensures RegularRun(cs, es, {"b"}, {"a"}, 2, 1, 1, 1) && RunExtras(cs, es, {"b"} + {"a"}) == 0
    ensures |DisturbedSet(cs[0], {"b"} + {"a"})| == 0 && |DisturbedSet(cs[|es|], {"b"} + {"a"})| == 2
  {
    hide Before, Between, Afterwards, TrioWorld, PassRuns.Step, ClusterBudget.Regular, PassExtras, Longer,
         PlanChange.MinorChange;
    var p := PlanOf("old", ok);
    LongerIsMajor(p);
    BothSteps(p);
    NoneThenTwo(p);
    var e0, e1 := PassRuns.Pass(PLANE, TrioWorld(p, {"b"})), PassRuns.Pass(PLANE, TrioWorld(p, {"a", "b"}));
    TwoSteps(Before(p), e0, Between(p), e1, Afterwards(p));
    return [Before(p), Between(p), Afterwards(p)], [e0, e1];
  }
}
