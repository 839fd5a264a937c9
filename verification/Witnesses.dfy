/** A concrete tier, from its secrets on, in which a major change goes by unreported under a limit of one. */
module Witnesses {
  import opened Model
  import opened PlanEntry
  import opened Store
  import opened Scheduler
  import opened Budget
  import opened ControlPlane
  import opened FullReconcile
  import opened Gating
  import opened InitNode
  import opened Settled
  import Join
  import Names
  import PlanChange
  import PlannerDrain
  import InitNodeRuns

  // ---------------------------------------------------------------- secrets and plans

  const MACHINE := InitNodeRuns.FRESH_MACHINE.(nodeRef := Some("node"))

  /** The secret of a machine with a plan that was written by the scheduler, and the last plan that it applied. */
  function Holding(labels: Labels, plan: NodePlan, applied: NodePlan): Secret {
    InitNodeRuns.FreshSecret(labels).(plan := Encoded(plan), appliedPlan := Encoded(applied),
                                      maxFailures := Encoded(-1), failureThreshold := Encoded(1))
  }

  lemma HoldingReads(s: Secret, labels: Labels, plan: NodePlan, applied: NodePlan)
    requires s == Holding(labels, plan, applied).(annotations := s.annotations)
    ensures SecretToNode(s) == Readable(Node(plan, Some(applied), s.annotations.joinedTo, map[], map[], false,
                                             plan == applied, true, s.annotations.probesPassed != ""))
  {
  }

  lemma HoldingWritten(labels: Labels, plan: NodePlan, applied: NodePlan, desired: NodePlan)
    ensures WithPlan(Holding(labels, plan, applied), desired, "", -1, 1) == Holding(labels, desired, applied)
  {
  }

  /** A plan with one instruction and one minor file. */
  function PlanOf(content: string, ok: Instruction): NodePlan {
    NodePlan([File("f", content, "", false, true)], [ok], [], "", map[])
  }

  function Longer(plan: NodePlan): NodePlan {
    plan.(instructions := plan.instructions + plan.instructions)
  }

  lemma ContentIsMinor(ok: Instruction)
    ensures PlanChange.MinorChange(PlanOf("old", ok), PlanOf("new", ok))
  {
    var p, q := PlanOf("old", ok), PlanOf("new", ok);
    assert p.files[0] == File("f", "old", "", false, true) && q.files[0] == File("f", "new", "", false, true);
    PlanChange.MinorChangeOfUniquePaths(p, q);
    assert PlanChange.AddedOrChanged(q.files[0], p.files);
  }

  lemma LongerIsMajor(plan: NodePlan)
    requires plan.instructions != []
    ensures Longer(plan) != plan && !PlanChange.MinorChange(plan, Longer(plan)) && !PlanChange.MinorChange(plan, plan)
  {
    assert |Longer(plan).instructions| != |plan.instructions|;
    if PlanChange.MinorChange(plan, plan) { PlanChange.MinorChangeNeverDrains(plan, plan); }
  }

  // ---------------------------------------------------------------- gathering by hand

  lemma PreparedIs(c: Cluster, m: string, joinURL: string, g: Settings, plan: NodePlan)
    requires m in c.machines && m in c.secrets && !Matches(c, IS_ONLY_WORKER, m)
    requires g.desired(m, c.secrets[m].labels, c.secrets[m].annotations, joinURL) == Rendered(plan, "")
    ensures Prepared(c, m, joinURL, g) == Good(MakeReconcilable(c, m, plan, ""))
  {
    hide Matches, MakeReconcilable;
  }

  lemma GatheredCons(c: Cluster, m: string, rest: seq<string>, tier: Tier, g: Settings)
    requires Listed(c, [m] + rest) && Listed(c, rest)
    ensures var later := Gathered(c, rest, tier.exclude, tier.joinURL, g);
      Gathered(c, [m] + rest, tier.exclude, tier.joinURL, g) ==
      if Matches(c, tier.exclude, m) then later
      else if Prepared(c, m, tier.joinURL, g).Bad? then Bad(Prepared(c, m, tier.joinURL, g).err)
      else if later.Bad? then later
      else Good([Prepared(c, m, tier.joinURL, g).value] + later.value)
  {
    hide Matches, Prepared;
    assert ([m] + rest)[1..] == rest;
  }

  /** What two entries come to, if a plan can be prepared for each. */
  lemma GatheredPair(c: Cluster, x: string, y: string, tier: Tier, g: Settings, rx: Reconcilable, ry: Reconcilable)
    requires Listed(c, [x, y]) && x in c.machines && x in c.secrets && y in c.machines && y in c.secrets
    requires Prepared(c, x, tier.joinURL, g) == Good(rx) && Prepared(c, y, tier.joinURL, g) == Good(ry)
    ensures var kept := if Matches(c, tier.exclude, x) then (if Matches(c, tier.exclude, y) then [] else [ry])
                        else if Matches(c, tier.exclude, y) then [rx] else [rx, ry];
      Gathered(c, [x, y], tier.exclude, tier.joinURL, g) == Good(kept)
  {
    hide Matches, Prepared;
    assert Listed(c, [y]);
    GatheredCons(c, y, [], tier, g);
    GatheredCons(c, x, [y], tier, g);
    assert [y] + [] == [y] && [x] + [y] == [x, y];
    assert [ry] + [] == [ry] && [rx] + [] == [rx] && [rx] + [ry] == [rx, ry];
  }

  /** The tier selects the machines a and b, in this order. */
  lemma TwoSelected(c: Cluster, f: Filter, a: string, b: string)
    requires a in c.machines && b in c.machines && Names.Less(a, b)
    requires forall m :: m in c.machines ==> (Matches(c, f, m) <==> m == a || m == b)
    ensures Collected(c, f) == [a, b]
  {
    hide Matches;
    assert [a, b][0] == a && [a, b][1] == b;
    CollectedUnique(c, f, [a, b]);
  }

  // ---------------------------------------------------------------- a major change that goes by unreported

  const CONTROL_PLANE_ONLY := InitNodeRuns.UNLABELLED.(controlPlane := true)

  const DRAINS := DrainOptions(true, [], [], "")

  /** Two control-plane machines that have applied one plan. A drain has been requested of the first one. */
  function HeldCluster(ok: Instruction): Cluster {
    var p := PlanOf("old", ok);
    var s := Holding(CONTROL_PLANE_ONLY, p, p);
    var node := Node(p, Some(p), "", map[], map[], false, true, true, false);
    Cluster(map["held" := MACHINE, "refused" := MACHINE], map["held" := node, "refused" := node],
            map["held" := s.(annotations := s.annotations.(drain := Options(DRAINS))), "refused" := s])
  }

  /** The desired plans differ from it by a minor file for the first machine and by an instruction for the second one.
      */
  function HeldSettings(ok: Instruction): Settings {
    var p := PlanOf("old", ok);
    Settings(true, (m, labels, annotations, url) => Rendered(if m == "held" then PlanOf("new", ok) else Longer(p), ""),
             _ => 0, _ => false)
  }

  const HELD_TIER := ControlPlaneTier("https://server", Limits(Number(1), Unset, DRAINS, NO_DRAIN))

  function HeldBatch(ok: Instruction): seq<Reconcilable> {
    var p := PlanOf("old", ok);
    var node := Some(Node(p, Some(p), "", map[], map[], false, true, true, false));
    [Reconcilable("held", node, PlanOf("new", ok), "", true, true),
     Reconcilable("refused", node, Longer(p), "", true, false)]
  }

  lemma HeldLoaded(ok: Instruction)
    ensures Loaded(HeldCluster(ok))
  {
    var c, p := HeldCluster(ok), PlanOf("old", ok);
    HoldingReads(c.secrets["held"], CONTROL_PLANE_ONLY, p, p);
    HoldingReads(c.secrets["refused"], CONTROL_PLANE_ONLY, p, p);
    hide SecretToNode;
  }

  lemma HeldSelected(ok: Instruction)
    ensures var c := HeldCluster(ok);
      Collected(c, HELD_TIER.filter) == ["held", "refused"] && Listed(c, Collected(c, HELD_TIER.filter))
  {
    var c := HeldCluster(ok);
    TwoSelected(c, Filter.ControlPlane, "held", "refused");
  }

  lemma HeldNotExcluded(ok: Instruction, m: string)
    requires m == "held" || m == "refused"
    ensures var c := HeldCluster(ok);
      !Matches(c, IS_INIT_NODE_OR_DELETING, m) && !Matches(c, IS_ONLY_WORKER, m)
  {
    var c := HeldCluster(ok);
    hide Matches;
    OrMeans(c, Filter.InitNode, Deleting, m);
    AndMeans(c, And(Not(Etcd), Not(Filter.ControlPlane)), Worker, m);
    assert !Matches(c, Filter.InitNode, m) && !Matches(c, Deleting, m) && !Matches(c, Worker, m) by {
      BasicOf(c, m);
    }
  }

  lemma BasicOf(c: Cluster, m: string)
    ensures Matches(c, Filter.InitNode, m) <==> m in c.secrets && c.secrets[m].labels.initNode == "true"
    ensures Matches(c, Deleting, m) <==> m in c.machines && c.machines[m].deleting
    ensures Matches(c, Worker, m) <==> m in c.secrets && c.secrets[m].labels.worker
    ensures Matches(c, Etcd, m) <==> m in c.secrets && c.secrets[m].labels.etcd
    ensures Matches(c, Filter.ControlPlane, m) <==> m in c.secrets && c.secrets[m].labels.controlPlane
    ensures Matches(c, HasPlan, m) <==> m in c.nodes
  {
  }

  lemma HeldPrepared(ok: Instruction)
    ensures var c, g, rs := HeldCluster(ok), HeldSettings(ok), HeldBatch(ok);
      && Prepared(c, "held", HELD_TIER.joinURL, g) == Good(rs[0])
      && Prepared(c, "refused", HELD_TIER.joinURL, g) == Good(rs[1])
  {
    var c, g, p := HeldCluster(ok), HeldSettings(ok), PlanOf("old", ok);
    HeldNotExcluded(ok, "held");
    HeldNotExcluded(ok, "refused");
    ContentIsMinor(ok);
    LongerIsMajor(p);
    hide Matches, PlanChange.MinorChange, Prepared;
    PreparedIs(c, "held", HELD_TIER.joinURL, g, PlanOf("new", ok));
    PreparedIs(c, "refused", HELD_TIER.joinURL, g, Longer(p));
    assert PlanOf("new", ok) != p by { assert PlanOf("new", ok).files[0] != p.files[0]; }
  }

  lemma HeldGathered(ok: Instruction)
    ensures var c, g := HeldCluster(ok), HeldSettings(ok);
      && Listed(c, Collected(c, HELD_TIER.filter))
      && Gathered(c, Collected(c, HELD_TIER.filter), HELD_TIER.exclude, HELD_TIER.joinURL, g) == Good(HeldBatch(ok))
  {
    hide Matches, Prepared, HeldSettings;
    var c, g, rs := HeldCluster(ok), HeldSettings(ok), HeldBatch(ok);
    HeldSelected(ok);
    HeldNotExcluded(ok, "held");
    HeldNotExcluded(ok, "refused");
    HeldPrepared(ok);
    assert rs == [rs[0], rs[1]];
    hide HeldBatch, Gathered;
    GatheredPair(c, "held", "refused", HELD_TIER, g, rs[0], rs[1]);
  }

  lemma HeldSilent(ok: Instruction)
    ensures var c, g, rs := HeldCluster(ok), HeldSettings(ok), HeldBatch(ok);
      && Known(c, rs) && Major(rs[1]) && !rs[1].minorChange
      && (forall i :: 0 <= i < |rs| ==> Silent(c, rs[i], g))
      && HeldCount(c, rs) == 1
  {
    var c, g, rs := HeldCluster(ok), HeldSettings(ok), HeldBatch(ok);
    hide Matches;
    assert rs[1..] == [rs[1]] && [rs[1]][1..] == [];
    assert Silent(c, rs[0], g) && Silent(c, rs[1], g);
    assert Held(c, rs[0]) && !Held(c, rs[1]);
    assert HeldCount(c, [rs[1]]) == 0;
  }

  /** It happens under a limit of one, in a pass over loaded secrets: the first machine is in a drain and is just
      given a minor change, so the major change of the second one is refused. The tier answers nil, and nothing is
      written to it. */
  lemma HeldRefusesAnother(ok: Instruction)
    ensures var c, g := HeldCluster(ok), HeldSettings(ok);
      && Loaded(c) && Listed(c, Collected(c, HELD_TIER.filter)) && HELD_TIER.maxUnavailable == Number(1)
      && Batch(c, HELD_TIER, g) == HeldBatch(ok) && Major(HeldBatch(ok)[1])
      && Reconciled(c, HELD_TIER, g).err == Nil
      && "refused" in Reconciled(c, HELD_TIER, g).cluster.secrets
      && Reconciled(c, HELD_TIER, g).cluster.secrets["refused"] == c.secrets["refused"]
  {
    var c, g, rs := HeldCluster(ok), HeldSettings(ok), HeldBatch(ok);
    HeldLoaded(ok);
    HeldGathered(ok);
    HeldSilent(ok);
    HeldFine(ok);
    hide HeldCluster, HeldSettings, Reconciled, Matches, Gathered, Silent, WentSilently, AllFine, AtRest, Loaded;
    assert Batch(c, HELD_TIER, g) == rs;
    MajorGoesUnreported(c, HELD_TIER, g);
    SilentTierIsNil(c, HELD_TIER, g);
    QuietTierAccounts(c, HELD_TIER, g, 1);
  }

  lemma HeldFine(ok: Instruction)
    ensures var c, g := HeldCluster(ok), HeldSettings(ok);
      && Listed(c, Collected(c, HELD_TIER.filter)) && Known(c, Batch(c, HELD_TIER, g)) && AllFine(c, HELD_TIER, g)
  {
    HeldSelected(ok);
    HeldGathered(ok);
    hide Matches, Gathered;
  }
}
