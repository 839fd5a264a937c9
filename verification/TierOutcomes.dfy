/** How a tier ends, and what an end without waiting says of its machines, told from their secrets. */
module TierOutcomes {
  import opened Model
  import opened PlanEntry
  import opened Store
  import opened Scheduler
  import opened Budget
  import opened Gating
  import opened Availability
  import PlanChange
  import PlannerDrain

  // ---------------------------------------------------------------- every machine is accounted for

  predicate Placed(t: Tally, m: string) {
    m in t.outOfSync || m in t.draining || m in t.uncordoned || m in t.ready
  }

  /** Visiting r adds to the lists, and notes what the machine's own conditions say. */
  ghost predicate Visits(t: Tally, t': Tally, m: string, summary: Summary) {
    && (forall x :: Placed(t, x) ==> Placed(t', x))
    && (forall x :: x in t'.errMachines <==> x in t.errMachines || (x == m && summary.error))
    && (forall x :: x in t'.nonReady <==> x in t.nonReady || (x == m && summary.transitioning))
    && (t'.err == Nil ==> Placed(t', m))
  }

  lemma DisruptedPlaces(t: Tally, r: Reconcilable, options: DrainOptions)
    requires r.name in t.cluster.secrets && r.name in t.cluster.machines && r.node.Some?
    ensures var t' := Disrupted(t, r, options);
      && (forall x :: Placed(t, x) ==> Placed(t', x))
      && t'.errMachines == t.errMachines && t'.nonReady == t.nonReady
  {
    hide Quiet, PlannerDrain.Drain, IsUnavailable, PlanUpdate, Reload;
  }

  lemma SettledPlaces(t: Tally, r: Reconcilable, g: Settings)
    requires r.name in t.cluster.secrets && r.name in t.cluster.machines
    ensures var t' := Settled(t, r, g);
      && (forall x :: Placed(t, x) ==> Placed(t', x)) && (t'.err == Nil ==> Placed(t', r.name) || t.err != Nil)
      && t'.errMachines == t.errMachines && t'.nonReady == t.nonReady
  {
    hide PlannerDrain.Undrain, Reload, Matches;
  }

  lemma VisitPlaces(t: Tally, r: Reconcilable, concurrency: int, options: DrainOptions, g: Settings)
    requires r.name in t.cluster.secrets && r.name in t.cluster.machines && t.err == Nil
    ensures Visits(t, Visited(t, r, concurrency, options, g), r.name, t.cluster.machines[r.name].summary)
  {
    hide Quiet, Disrupted, Settled, PlanUpdate, Admitted;
    var s := Summarized(t, r);
    var o := s.(outOfSync := s.outOfSync + [r.name]);
    assert Placed(o, r.name);
    assert forall x :: Placed(t, x) ==> Placed(o, x);
    if r.node.Some? { DisruptedPlaces(o, r, options); }
    SettledPlaces(s, r, g);
  }

  /** Where the loop ends without an error, every machine is on a list, and those with a complaint are noted. */
  ghost predicate Through(t: Tally, t': Tally, rs: seq<Reconcilable>)
    requires Known(t.cluster, rs)
  {
    && (forall x :: Placed(t, x) ==> Placed(t', x))
    && (forall i :: 0 <= i < |rs| ==> Placed(t', rs[i].name))
    && (t'.errMachines == [] <==>
          t.errMachines == [] && forall i :: 0 <= i < |rs| ==> !t.cluster.machines[rs[i].name].summary.error)
    && (t'.nonReady == [] <==>
          t.nonReady == [] && forall i :: 0 <= i < |rs| ==> !t.cluster.machines[rs[i].name].summary.transitioning)
  }

  lemma NotedMeans(t: Tally, t': Tally, m: string, summary: Summary)
    requires Visits(t, t', m, summary)
    ensures t'.errMachines == [] <==> t.errMachines == [] && !summary.error
    ensures t'.nonReady == [] <==> t.nonReady == [] && !summary.transitioning
  {
    if t'.errMachines != [] { assert t'.errMachines[0] in t'.errMachines; }
    if t.errMachines != [] { assert t.errMachines[0] in t'.errMachines; }
    if t'.nonReady != [] { assert t'.nonReady[0] in t'.nonReady; }
    if t.nonReady != [] { assert t.nonReady[0] in t'.nonReady; }
    if summary.error { assert m in t'.errMachines; }
    if summary.transitioning { assert m in t'.nonReady; }
  }

  lemma {:induction false} LoopPlaces(t: Tally, rs: seq<Reconcilable>, concurrency: int, options: DrainOptions,
                                      g: Settings)
    requires Known(t.cluster, rs) && t.err == Nil
    ensures var t' := Scheduled(t, rs, concurrency, options, g);
      t'.err == Nil ==> Through(t, t', rs)
    decreases |rs|
  {
    hide Visited, Placed, Visits;
    if rs != [] {
      var r, rest := rs[0], rs[1..];
      var t1, t' := Visited(t, r, concurrency, options, g), Scheduled(t, rs, concurrency, options, g);
      assert forall i :: 0 <= i < |rest| ==> rest[i] == rs[i + 1];
      if t1.err == Nil {
        VisitPlaces(t, r, concurrency, options, g);
        VisitsPlaced(t, t1, r.name, t.cluster.machines[r.name].summary);
        NotedMeans(t, t1, r.name, t.cluster.machines[r.name].summary);
        LoopPlaces(t1, rest, concurrency, options, g);
        if t'.err == Nil {
          forall i | 0 <= i < |rs| ensures Placed(t', rs[i].name) {
            if i > 0 { assert rs[i] == rest[i - 1]; }
          }
          assert (forall i :: 0 <= i < |rs| ==> !t.cluster.machines[rs[i].name].summary.error) <==>
            !t.cluster.machines[r.name].summary.error &&
            (forall i :: 0 <= i < |rest| ==> !t.cluster.machines[rest[i].name].summary.error) by { Split(t, rs); }
          assert (forall i :: 0 <= i < |rs| ==> !t.cluster.machines[rs[i].name].summary.transitioning) <==>
            !t.cluster.machines[r.name].summary.transitioning &&
            (forall i :: 0 <= i < |rest| ==> !t.cluster.machines[rest[i].name].summary.transitioning)
          by { Split(t, rs); }
        }
      }
    }
  }

  lemma VisitsPlaced(t: Tally, t': Tally, m: string, summary: Summary)
    requires Visits(t, t', m, summary) && t'.err == Nil
    ensures (forall x :: Placed(t, x) ==> Placed(t', x)) && Placed(t', m)
  {
  }

  lemma Split(t: Tally, rs: seq<Reconcilable>)
    requires Known(t.cluster, rs) && rs != [] && Known(t.cluster, rs[1..])
    ensures (forall i :: 0 <= i < |rs| ==> !t.cluster.machines[rs[i].name].summary.error) <==>
      !t.cluster.machines[rs[0].name].summary.error &&
      (forall i :: 0 <= i < |rs[1..]| ==> !t.cluster.machines[rs[1..][i].name].summary.error)
    ensures (forall i :: 0 <= i < |rs| ==> !t.cluster.machines[rs[i].name].summary.transitioning) <==>
      !t.cluster.machines[rs[0].name].summary.transitioning &&
      (forall i :: 0 <= i < |rs[1..]| ==> !t.cluster.machines[rs[1..][i].name].summary.transitioning)
  {
    assert forall i :: 0 < i < |rs| ==> rs[i] == rs[1..][i - 1];
    assert forall i :: 0 <= i < |rs[1..]| ==> rs[1..][i] == rs[i + 1];
  }

  // ---------------------------------------------------------------- how a tier ends

  /** The infrastructure of the machine is there and its own reconciliation is done. */
  predicate Provisioned(machine: Machine) {
    machine.infrastructureReady && machine.reconciled
  }

  lemma ConditionNil(c: Cluster, names: seq<string>, noisy: set<string>, g: Settings)
    ensures ConditionErr(c, names, noisy, g) == Nil <==>
      forall m :: m in names ==> m in c.machines && Provisioned(c.machines[m]) && m !in noisy
  {
  }

  ghost predicate Listing(t: Tally, names: set<string>) {
    forall m :: Placed(t, m) <==> m in names
  }

  lemma QuietVerdict(t: Tally, names: set<string>, required: bool, none: bool, g: Settings)
    requires t.err == Nil && Listing(t, names) && forall m :: m in names ==> m in t.cluster.machines
    ensures QuietErr(Verdict(t, required, none, g)) <==>
      && !(required && none)
      && forall m :: m in names ==> Provisioned(t.cluster.machines[m]) && !Loud(t, m)
    ensures Verdict(t, required, none, g) == Nil <==>
      QuietErr(Verdict(t, required, none, g)) && t.errMachines == [] == t.nonReady
  {
    ConditionNil(t.cluster, t.uncordoned, t.noisy, g);
    ConditionNil(t.cluster, t.draining, t.noisy, g);
    ConditionNil(t.cluster, t.outOfSync, t.noisy, g);
    ConditionNil(t.cluster, t.ready, {}, g);
    NoIgnore(t, g);
    hide ConditionErr, Provisioned;
    assert forall m :: m in t.uncordoned || m in t.draining || m in t.outOfSync || m in t.ready <==> Placed(t, m);
  }

  lemma NoIgnore(t: Tally, g: Settings)
    ensures forall names: seq<string>, noisy :: ConditionErr(t.cluster, names, noisy, g) != Ignore
  {
  }

  ghost predicate AllProvisioned(c: Cluster, rs: seq<Reconcilable>)
    requires Known(c, rs)
  {
    forall i :: 0 <= i < |rs| ==> Provisioned(c.machines[rs[i].name])
  }

  ghost predicate NoneComplains(c: Cluster, rs: seq<Reconcilable>)
    requires Known(c, rs)
  {
    forall i :: 0 <= i < |rs| ==>
      !c.machines[rs[i].name].summary.error && !c.machines[rs[i].name].summary.transitioning
  }

  lemma {:induction false} LoopWithin(t: Tally, rs: seq<Reconcilable>, concurrency: int, options: DrainOptions,
                                      g: Settings, names: set<string>)
    requires Known(t.cluster, rs) && ListedWithin(t, names) && forall i :: 0 <= i < |rs| ==> rs[i].name in names
    ensures ListedWithin(Scheduled(t, rs, concurrency, options, g), names)
    decreases |rs|
  {
    hide Visited, ListedWithin;
    if rs != [] && t.err == Nil {
      assert forall i :: 0 <= i < |rs[1..]| ==> rs[1..][i] == rs[i + 1];
      VisitLists(t, rs[0], concurrency, options, g, names);
      LoopWithin(Visited(t, rs[0], concurrency, options, g), rs[1..], concurrency, options, g, names);
    }
  }

  lemma LoopListing(t: Tally, rs: seq<Reconcilable>, concurrency: int, options: DrainOptions, g: Settings)
    requires Known(t.cluster, rs) && t.err == Nil
    requires t.uncordoned == t.draining == t.outOfSync == t.ready == []
    ensures var t' := Scheduled(t, rs, concurrency, options, g);
      t'.err == Nil ==> Listing(t', BatchNames(rs)) && Through(t, t', rs)
  {
    hide Scheduled;
    var names := BatchNames(rs);
    var t' := Scheduled(t, rs, concurrency, options, g);
    assert forall i :: 0 <= i < |rs| ==> rs[i].name in names;
    LoopWithin(t, rs, concurrency, options, g, names);
    LoopPlaces(t, rs, concurrency, options, g);
    if t'.err == Nil {
      forall m ensures Placed(t', m) <==> m in names {
        if m in names { var i :| 0 <= i < |rs| && rs[i].name == m; }
      }
    }
  }

  /** How a tier ends. An entry without join URL or plan ends it at once. Otherwise it ends with nil or an ignorable
      error exactly when it went by silently, its machines are provisioned, and it is not required and empty; and with
      nil exactly when, besides, none of its machines complains. */
  lemma TierEnds(c: Cluster, tier: Tier, g: Settings)
    requires Listed(c, Collected(c, tier.filter)) && Known(c, Batch(c, tier, g))
    ensures var o, rs := Reconciled(c, tier, g), Batch(c, tier, g);
      var gathered := Gathered(c, Collected(c, tier.filter), tier.exclude, tier.joinURL, g);
      if gathered.Bad? then o == Outcome(c, gathered.err) else
      && (QuietErr(o.err) <==>
            WentSilently(c, tier, g) && AllProvisioned(c, rs) && !(tier.required && Collected(c, tier.filter) == []))
      && (o.err == Nil <==> QuietErr(o.err) && NoneComplains(c, rs))
  {
    hide Scheduled, Matches, Gathered, Loud, Verdict, Provisioned;
    var rs := Batch(c, tier, g);
    var allowed := Allowed(tier.maxUnavailable, Counted(c, rs, tier.exclude));
    if allowed.Some? {
      var none := Collected(c, tier.filter) == [];
      var t0 := StartTally(c, UnavailableCount(c, rs));
      var t := Scheduled(t0, rs, allowed.value, tier.options, g);
      LoopFrame(t0, rs, allowed.value, tier.options, g, "");
      ErredVerdict(t, tier.required, none, g);
      if t.err == Nil {
        LoopListing(t0, rs, allowed.value, tier.options, g);
        var names := BatchNames(rs);
        forall m | m in names ensures m in t.cluster.machines {
          var i :| 0 <= i < |rs| && rs[i].name == m;
        }
        assert forall i :: 0 <= i < |rs| ==> rs[i].name in names;
        QuietVerdict(t, names, tier.required, none, g);
        SilentNames(t, rs);
      }
    }
  }

  lemma SilentNames(t: Tally, rs: seq<Reconcilable>)
    requires Known(t.cluster, rs)
    requires forall m :: m in BatchNames(rs) ==> m in t.cluster.machines
    ensures (forall m :: m in BatchNames(rs) ==> Provisioned(t.cluster.machines[m]) && !Loud(t, m)) <==>
      AllProvisioned(t.cluster, rs) && NoneLoud(t, rs)
  {
    hide Provisioned, Loud;
    var names := BatchNames(rs);
    assert forall i :: 0 <= i < |rs| ==> rs[i].name in names;
    if AllProvisioned(t.cluster, rs) && NoneLoud(t, rs) {
      forall m | m in names ensures Provisioned(t.cluster.machines[m]) && !Loud(t, m) {
        var i :| 0 <= i < |rs| && rs[i].name == m;
      }
    }
  }

  lemma ConditionKinds(c: Cluster, names: seq<string>, noisy: set<string>, g: Settings)
    requires forall m :: m in names ==> m in c.machines
    ensures ConditionErr(c, names, noisy, g) == Waiting && (forall m :: g.statusFails(m)) ==>
      exists m :: m in names && !c.machines[m].infrastructureReady
    ensures ConditionErr(c, names, noisy, g) == Other ==> exists m :: m in names && g.statusFails(m)
  {
  }

  lemma VerdictKinds(t: Tally, names: set<string>, required: bool, none: bool, g: Settings)
    requires t.err == Nil && Listing(t, names) && forall m :: m in names ==> m in t.cluster.machines
    ensures var err := Verdict(t, required, none, g);
      && (err == Waiting && (forall m :: g.statusFails(m)) ==>
            (required && none) || exists m :: m in names && !t.cluster.machines[m].infrastructureReady)
      && (err == Other ==> exists m :: m in names && g.statusFails(m))
  {
    assert forall m :: m in t.uncordoned || m in t.draining || m in t.outOfSync || m in t.ready <==> Placed(t, m);
    ConditionKinds(t.cluster, t.uncordoned, t.noisy, g);
    ConditionKinds(t.cluster, t.draining, t.noisy, g);
    ConditionKinds(t.cluster, t.outOfSync, t.noisy, g);
    ConditionKinds(t.cluster, t.ready, {}, g);
    hide ConditionErr;
  }

  /** A status of a machine that cannot be stored is an error, and nothing else is one once the machines have been gone
      through: where no status can be stored, the tier waits only if it is required and empty, or for the
      infrastructure of a machine; and where all can, it does not fail. */
  lemma StatusFailures(c: Cluster, tier: Tier, g: Settings)
    requires Listed(c, Collected(c, tier.filter)) && Known(c, Batch(c, tier, g))
    requires Gathered(c, Collected(c, tier.filter), tier.exclude, tier.joinURL, g).Good?
    ensures var o, rs := Reconciled(c, tier, g), Batch(c, tier, g);
      var allowed := Allowed(tier.maxUnavailable, Counted(c, rs, tier.exclude));
      && (o.err == Waiting && (forall m :: g.statusFails(m)) ==>
            || (tier.required && Collected(c, tier.filter) == [])
            || exists i :: 0 <= i < |rs| && !c.machines[rs[i].name].infrastructureReady)
      && (o.err == Other && (forall m :: !g.statusFails(m)) && allowed.Some? ==>
            Scheduled(StartTally(c, UnavailableCount(c, rs)), rs, allowed.value, tier.options, g).err != Nil)
  {
    hide Scheduled, Matches, Gathered, Verdict;
    var rs := Batch(c, tier, g);
    var allowed := Allowed(tier.maxUnavailable, Counted(c, rs, tier.exclude));
    if allowed.Some? {
      var none := Collected(c, tier.filter) == [];
      var t0 := StartTally(c, UnavailableCount(c, rs));
      var t := Scheduled(t0, rs, allowed.value, tier.options, g);
      LoopFrame(t0, rs, allowed.value, tier.options, g, "");
      ErredVerdict(t, tier.required, none, g);
      if t.err == Nil {
        LoopListing(t0, rs, allowed.value, tier.options, g);
        var names := BatchNames(rs);
        forall m | m in names ensures m in t.cluster.machines && exists i :: 0 <= i < |rs| && rs[i].name == m {
        }
        VerdictKinds(t, names, tier.required, none, g);
      }
    }
  }

  // ---------------------------------------------------------------- what that says of the secrets

  /** The machine runs this plan, applied and with no failing probe; no drain is requested, no uncordon is pending. */
  predicate Runs(s: Secret, plan: NodePlan) {
    && s.plan == s.appliedPlan == Encoded(plan) && !SomeUnhealthy(s) && plan.instructions != [] && plan.error == ""
    && s.annotations.drain == Blank == s.annotations.unCordon && !PlannerDrain.DrainErrorReported(s.annotations)
  }

  /** The machine runs another plan than this, and nothing lets it through without the budget. */
  predicate WaitsForRoom(s: Secret, plan: NodePlan) {
    && s.plan.Encoded? && s.plan == s.appliedPlan && s.plan != Encoded(plan) && !SomeUnhealthy(s)
    && !Handshaking(s.annotations) && !Broken(s) && !Unproven(s)
  }

  /** What quiet says of a node, in terms of its secret. */
  lemma QuietReads(c: Cluster, r: Reconcilable)
    requires Current(c, r) && r.node.Some?
    ensures var s, plan := c.secrets[r.name], r.node.value.plan;
      Quiet(r.node) <==>
        s.plan == s.appliedPlan && !SomeUnhealthy(s) && plan.instructions != [] && plan.error == ""
  {
    hide PlanChange.MinorChange;
  }

  lemma AtRestRuns(c: Cluster, r: Reconcilable)
    requires Current(c, r) && r.node.Some?
    ensures AtRest(c.secrets[r.name], r) <==> Runs(c.secrets[r.name], r.desired)
  {
    QuietReads(c, r);
    ReadsAs(c, r);
    hide SecretToNode, PlanChange.MinorChange, Quiet, SomeUnhealthy, IsUnavailable, NeverHealthy, Broken, Unproven,
         PlannerDrain.DrainErrorReported;
  }

  lemma RefusedWaits(c: Cluster, r: Reconcilable, concurrency: int)
    requires Current(c, r) && r.node.Some?
    ensures Refused(c.secrets[r.name], r, concurrency) ==> WaitsForRoom(c.secrets[r.name], r.desired)
  {
    QuietReads(c, r);
    ReadsAs(c, r);
    hide SecretToNode, PlanChange.MinorChange, Quiet, SomeUnhealthy, IsUnavailable, NeverHealthy, Broken, Unproven;
  }

  /** The machine is left as it is and runs its desired plan; or it is left as it is for want of room, as many machines
      of the tier being unavailable as the limit allows; or it was just given a minor change. */
  ghost predicate Explained(c: Cluster, c': Cluster, tier: Tier, g: Settings, m: string) {
    && m in c.machines && m in c.secrets && m in c'.secrets && m in c.nodes
    && exists plan :: Goal(c, tier, g, m) == Some(plan) && ExplainedBy(c, c', tier, g, m, plan)
  }

  ghost predicate ExplainedBy(c: Cluster, c': Cluster, tier: Tier, g: Settings, m: string, plan: NodePlan)
    requires m in c.machines && m in c.secrets && m in c'.secrets && m in c.nodes
  {
    var s, s' := c.secrets[m], c'.secrets[m];
    var limit := Allowed(tier.maxUnavailable, |PlannedFor(c, tier)|);
    || (s' == s && Runs(s, plan))
    || (s' == s && WaitsForRoom(s, plan) && limit.Some? && limit.value != 0 && |DownSet(c, tier, g)| >= limit.value)
    || (PlanChange.MinorChange(c.nodes[m].plan, plan) && exists joinedTo :: s' == WithPlan(s, plan, joinedTo, -1, 1))
  }

  lemma AllSilentIf(c: Cluster, tier: Tier, g: Settings)
    requires Listed(c, Collected(c, tier.filter)) && Known(c, Batch(c, tier, g)) && Distinct(Batch(c, tier, g))
    ensures var rs := Batch(c, tier, g);
      var allowed := Allowed(tier.maxUnavailable, Counted(c, rs, tier.exclude));
      WentSilently(c, tier, g) ==>
        allowed.Some? && AllSilent(c, rs, UnavailableCount(c, rs), allowed.value, g)
  {
    hide Scheduled, Matches, Gathered, Loud, Silent, Exhausted, Major, Unlisted;
    var rs := Batch(c, tier, g);
    var allowed := Allowed(tier.maxUnavailable, Counted(c, rs, tier.exclude));
    if allowed.Some? {
      FreshUnlisted(c, rs, UnavailableCount(c, rs));
      LoopSilent(StartTally(c, UnavailableCount(c, rs)), rs, allowed.value, tier.options, g);
    }
  }

  lemma SilentMeans(c: Cluster, rs: seq<Reconcilable>, unavailable: int, concurrency: int, g: Settings, i: nat)
    requires Known(c, rs) && AllSilent(c, rs, unavailable, concurrency, g) && i < |rs|
    ensures rs[i].node.Some?
    ensures rs[i].change && !rs[i].minorChange ==> concurrency != 0 && unavailable >= concurrency
  {
    assert Silent(c, rs[i], g);
  }

  lemma AccountedExplains(c: Cluster, c': Cluster, tier: Tier, g: Settings, r: Reconcilable, concurrency: int)
    requires r.name in c.machines && r.name in c.secrets && r.name in c'.secrets && r.name in c.nodes
    requires Current(c, r) && r.node.Some? && Goal(c, tier, g, r.name) == Some(r.desired)
    requires r == MakeReconcilable(c, r.name, r.desired, r.joinedURL)
    requires Accounted(c.secrets[r.name], c'.secrets[r.name], r, concurrency)
    requires Allowed(tier.maxUnavailable, |PlannedFor(c, tier)|) == Some(concurrency)
    requires r.change && !r.minorChange ==> concurrency != 0 && |DownSet(c, tier, g)| >= concurrency
    ensures Explained(c, c', tier, g, r.name)
  {
    MadeNode(c, r);
    AtRestRuns(c, r);
    RefusedWaits(c, r, concurrency);
    MajorRefused(c.secrets[r.name], r, concurrency);
    hide AtRest, Refused, Runs, WaitsForRoom, SecretToNode, PlanChange.MinorChange, Goal, WithPlan, MakeReconcilable,
         Current, PlannedFor, DownSet;
    assert ExplainedBy(c, c', tier, g, r.name, r.desired);
  }

  lemma MajorRefused(s: Secret, r: Reconcilable, concurrency: int)
    ensures Refused(s, r, concurrency) ==> r.change && !r.minorChange
  {
  }

  /** A tier that ends with nil or an ignorable error has an explanation for each of its machines. */
  lemma QuietIsExplained(c: Cluster, tier: Tier, g: Settings, m: string)
    requires Listed(c, Collected(c, tier.filter))
    ensures UpToDate(c, tier) && Inside(c, tier, m) &&
            Gathered(c, Collected(c, tier.filter), tier.exclude, tier.joinURL, g).Good? &&
            QuietErr(Reconciled(c, tier, g).err) ==>
      Explained(c, Reconciled(c, tier, g).cluster, tier, g, m)
  {
    hide Gathered, Inside, Goal, Current, Explained, Fresh, Reconciled, Accounted, WentSilently, AllSilent, DownSet,
         PlannedFor, MakeReconcilable;
    if UpToDate(c, tier) && Inside(c, tier, m) &&
       Gathered(c, Collected(c, tier.filter), tier.exclude, tier.joinURL, g).Good? &&
       QuietErr(Reconciled(c, tier, g).err)
    {
      var rs := Batch(c, tier, g);
      var allowed := Allowed(tier.maxUnavailable, Counted(c, rs, tier.exclude));
      BatchAims(c, tier, g);
      BatchUpToDate(c, tier, g);
      BatchInside(c, tier, g, m);
      CounterStartsAtDown(c, tier, g);
      var i :| 0 <= i < |rs| && rs[i].name == m;
      QuietTierAccounts(c, tier, g, i);
      QuietTierIsSilent(c, tier, g);
      AllSilentIf(c, tier, g);
      SilentMeans(c, rs, UnavailableCount(c, rs), allowed.value, g, i);
      MadeNode(c, rs[i]);
      AccountedExplains(c, Reconciled(c, tier, g).cluster, tier, g, rs[i], allowed.value);
    }
  }

  /** Then, too, each of its machines that holds its desired plan has an up-to-date kubelet, as far as the agent of the
      cluster is connected to say so; and a machine of the control plane is only quiet while that agent is. */
  lemma QuietIsConnected(c: Cluster, tier: Tier, g: Settings, m: string)
    requires Listed(c, Collected(c, tier.filter))
    requires Gathered(c, Collected(c, tier.filter), tier.exclude, tier.joinURL, g).Good?
    ensures QuietErr(Reconciled(c, tier, g).err) && Inside(c, tier, m) && m in c.machines && m in c.secrets ==>
      m in c.nodes &&
      (Goal(c, tier, g, m) == Some(c.nodes[m].plan) ==>
         && (g.agentConnected ==> c.machines[m].kubeletUpToDate)
         && (c.secrets[m].labels.controlPlane ==> g.agentConnected))
  {
    hide Gathered, Inside, Goal, Reconciled, WentSilently, AllSilent, MakeReconcilable;
    if QuietErr(Reconciled(c, tier, g).err) && Inside(c, tier, m) && m in c.machines && m in c.secrets {
      var rs := Batch(c, tier, g);
      var allowed := Allowed(tier.maxUnavailable, Counted(c, rs, tier.exclude));
      BatchAims(c, tier, g);
      BatchInside(c, tier, g, m);
      var i :| 0 <= i < |rs| && rs[i].name == m;
      QuietTierIsSilent(c, tier, g);
      AllSilentIf(c, tier, g);
      SilentMeans(c, rs, UnavailableCount(c, rs), allowed.value, g, i);
      MadeNode(c, rs[i]);
      if Goal(c, tier, g, m) == Some(c.nodes[m].plan) {
        SilentConnected(c, rs, UnavailableCount(c, rs), allowed.value, g, i);
      }
    }
  }

  lemma SilentConnected(c: Cluster, rs: seq<Reconcilable>, unavailable: int, concurrency: int, g: Settings, i: nat)
    requires Known(c, rs) && AllSilent(c, rs, unavailable, concurrency, g) && i < |rs|
    requires rs[i].node.Some? && !rs[i].change
    requires rs[i].minorChange == PlanChange.MinorChange(rs[i].node.value.plan, rs[i].desired)
    requires rs[i].node.value.plan == rs[i].desired
    ensures g.agentConnected ==> c.machines[rs[i].name].kubeletUpToDate
    ensures c.secrets[rs[i].name].labels.controlPlane ==> g.agentConnected
  {
    assert Silent(c, rs[i], g);
    if rs[i].minorChange { PlanChange.MinorChangeNeverDrains(rs[i].node.value.plan, rs[i].desired); }
    hide PlanChange.MinorChange;
  }
}
