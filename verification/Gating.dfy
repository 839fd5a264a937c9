/** Tier gating: a tier that disrupts anything ends the pass, and later tiers are not touched. */
module Gating {
  import opened Model
  import opened PlanEntry
  import opened Store
  import opened Scheduler
  import opened Budget
  import opened ControlPlane
  import opened FullReconcile
  import opened InitNode
  import InitNodeRuns
  import PlanChange
  import PlannerDrain

  // ---------------------------------------------------------------- one visit

  /** The machine has a message and is on a list whose machines are waited for. */
  predicate Loud(t: Tally, m: string) {
    m in t.noisy && (m in t.outOfSync || m in t.draining || m in t.uncordoned)
  }

  /** A visit that changes a secret without an error makes the machine loud, unless the change is minor. */
  lemma VisitLoud(t: Tally, r: Reconcilable, concurrency: int, options: DrainOptions, g: Settings)
    requires r.name in t.cluster.secrets && r.name in t.cluster.machines && t.err == Nil
    ensures var t' := Visited(t, r, concurrency, options, g);
      t'.err == Nil && t'.cluster.secrets[r.name] != t.cluster.secrets[r.name] ==>
        Loud(t', r.name) || (r.node.Some? && r.minorChange && t'.cluster.secrets[r.name] ==
                               WithPlan(t.cluster.secrets[r.name], r.desired, r.joinedURL, -1, 1))
  {
    hide Disrupted, Settled, Quiet;
    var s := Summarized(t, r);
    var o := s.(outOfSync := s.outOfSync + [r.name]);
    if r.node.None? {
      assert r.name in o.outOfSync && r.name in o.noisy by { Unquiet(t, r); }
    } else if !r.minorChange {
      if r.change {
        if Admitted(o.cluster, r, concurrency, o.unavailable) { DisruptedLoud(o, r, options); }
      } else {
        SettledLoud(s, r, g);
      }
    }
  }

  lemma Unquiet(t: Tally, r: Reconcilable)
    requires r.name in t.cluster.machines && r.node.None?
    ensures r.name in Summarized(t, r).noisy
  {
  }

  /** Whether a plan is written or a drain requested, the machine is loud in the end. */
  lemma DisruptedLoud(t: Tally, r: Reconcilable, options: DrainOptions)
    requires r.name in t.cluster.secrets && r.name in t.cluster.machines && r.node.Some? && t.err == Nil
    requires r.name in t.outOfSync && (!Quiet(r.node) ==> r.name in t.noisy)
    ensures var t' := Disrupted(t, r, options);
      t'.err == Nil ==> Loud(t', r.name)
  {
    hide Quiet, PlannerDrain.Drain, SecretToNode, IsUnavailable, WithPlan;
  }

  lemma SettledLoud(t: Tally, r: Reconcilable, g: Settings)
    requires r.name in t.cluster.secrets && r.name in t.cluster.machines && t.err == Nil
    ensures var t' := Settled(t, r, g);
      t'.err == Nil && t'.cluster.secrets[r.name] != t.cluster.secrets[r.name] ==> Loud(t', r.name)
  {
    hide SecretToNode, Matches;
  }

  /** The machine is as loud as before, and on the same lists. */
  predicate SameVoice(t: Tally, t': Tally, m: string) {
    && (m in t'.noisy <==> m in t.noisy) && (m in t'.outOfSync <==> m in t.outOfSync)
    && (m in t'.draining <==> m in t.draining) && (m in t'.uncordoned <==> m in t.uncordoned)
  }

  lemma DisruptedKeepsVoice(t: Tally, r: Reconcilable, options: DrainOptions, m: string)
    requires r.name in t.cluster.secrets && r.name in t.cluster.machines && r.node.Some? && m != r.name
    ensures SameVoice(t, Disrupted(t, r, options), m)
  {
    hide Quiet, PlannerDrain.Drain, IsUnavailable, PlanUpdate, Reload;
  }

  lemma SettledKeepsVoice(t: Tally, r: Reconcilable, g: Settings, m: string)
    requires r.name in t.cluster.secrets && r.name in t.cluster.machines && m != r.name
    ensures SameVoice(t, Settled(t, r, g), m)
  {
    hide PlannerDrain.Undrain, Reload, Matches;
  }

  /** A visit to one machine makes another one neither louder nor less loud. */
  lemma VisitKeepsVoice(t: Tally, r: Reconcilable, concurrency: int, options: DrainOptions, g: Settings, m: string)
    requires r.name in t.cluster.secrets && r.name in t.cluster.machines && m != r.name
    ensures SameVoice(t, Visited(t, r, concurrency, options, g), m)
  {
    hide Quiet, Disrupted, Settled, PlanUpdate, Admitted;
    var s := Summarized(t, r);
    var o := s.(outOfSync := s.outOfSync + [r.name]);
    if r.node.Some? { DisruptedKeepsVoice(o, r, options, m); }
    SettledKeepsVoice(s, r, g, m);
  }

  // ---------------------------------------------------------------- one tier

  lemma {:induction false} LoopKeepsLoud(t: Tally, rs: seq<Reconcilable>, concurrency: int, options: DrainOptions,
                                         g: Settings, m: string)
    requires Known(t.cluster, rs) && Outside(rs, m)
    ensures Loud(Scheduled(t, rs, concurrency, options, g), m) <==> Loud(t, m)
    decreases |rs|
  {
    hide Visited;
    if rs != [] && t.err == Nil {
      assert forall i :: 0 <= i < |rs[1..]| ==> rs[1..][i] == rs[i + 1];
      VisitKeepsVoice(t, rs[0], concurrency, options, g, m);
      LoopKeepsLoud(Visited(t, rs[0], concurrency, options, g), rs[1..], concurrency, options, g, m);
    }
  }

  /** The secret got the plan of a minor change, and nothing else. */
  ghost predicate MinorWrite(before: Secret, after: Secret, r: Reconcilable) {
    r.node.Some? && r.minorChange && after == WithPlan(before, r.desired, r.joinedURL, -1, 1)
  }

  ghost predicate MinorAtMost(before: Secret, after: Secret, rs: seq<Reconcilable>, m: string) {
    after == before || exists i :: 0 <= i < |rs| && rs[i].name == m && MinorWrite(before, after, rs[i])
  }

  lemma {:induction false} LoopLoud(t: Tally, rs: seq<Reconcilable>, concurrency: int, options: DrainOptions,
                                    g: Settings, m: string)
    requires Known(t.cluster, rs) && m in t.cluster.secrets && t.err == Nil && Distinct(rs)
    ensures var t' := Scheduled(t, rs, concurrency, options, g);
      && t'.cluster.secrets.Keys == t.cluster.secrets.Keys
      && (t'.err == Nil ==> Loud(t', m) || MinorAtMost(t.cluster.secrets[m], t'.cluster.secrets[m], rs, m))
    decreases |rs|
  {
    hide Visited, Loud, MinorWrite;
    LoopFrame(t, rs, concurrency, options, g, m);
    if rs != [] {
      var r, rest := rs[0], rs[1..];
      var t1 := Visited(t, r, concurrency, options, g);
      assert forall i :: 0 <= i < |rest| ==> rest[i] == rs[i + 1];
      if t1.err == Nil {
        if m == r.name {
          LoopFrame(t1, rest, concurrency, options, g, m);
          HeadLoud(t, r, concurrency, options, g);
          LoopKeepsLoud(t1, rest, concurrency, options, g, m);
        } else {
          LoopLoud(t1, rest, concurrency, options, g, m);
        }
      }
    }
  }

  lemma HeadLoud(t: Tally, r: Reconcilable, concurrency: int, options: DrainOptions, g: Settings)
    requires r.name in t.cluster.secrets && r.name in t.cluster.machines && t.err == Nil
    ensures var t1 := Visited(t, r, concurrency, options, g);
      var s, s' := t.cluster.secrets[r.name], t1.cluster.secrets[r.name];
      t1.err == Nil ==> Loud(t1, r.name) || s' == s || MinorWrite(s, s', r)
  {
    hide Visited, Loud;
    VisitLoud(t, r, concurrency, options, g);
  }

  lemma LoudWaits(t: Tally, m: string, required: bool, none: bool, g: Settings)
    requires Loud(t, m)
    ensures Verdict(t, required, none, g) != Nil && Verdict(t, required, none, g) != Ignore
  {
    if m in t.cluster.machines {
      assert Pending(t.cluster.machines[m], true);
    }
  }

  /** A change from before to after that a pass may make and still go on to the next tier: none at all, or plans that
      differ from the one before in minor files only. */
  ghost predicate MinorOnly(before: Cluster, after: Cluster) {
    && after.machines == before.machines && after.nodes == before.nodes && after.secrets.Keys == before.secrets.Keys
    && forall m :: m in before.secrets ==> MinorSecret(before, before.secrets[m], after.secrets[m], m)
  }

  ghost predicate MinorSecret(c: Cluster, s: Secret, s': Secret, m: string) {
    s' == s ||
    exists desired, joinedTo :: m in c.nodes && PlanChange.MinorChange(c.nodes[m].plan, desired) &&
                                s' == WithPlan(s, desired, joinedTo, -1, 1)
  }

  lemma ReconciledFrame(c: Cluster, tier: Tier, g: Settings)
    requires Listed(c, Collected(c, tier.filter))
    ensures var c' := Reconciled(c, tier, g).cluster;
      c'.machines == c.machines && c'.nodes == c.nodes && c'.secrets.Keys == c.secrets.Keys
  {
    hide Scheduled, Matches, Gathered;
    var names := Collected(c, tier.filter);
    var gathered := Gathered(c, names, tier.exclude, tier.joinURL, g);
    if gathered.Good? {
      GatheredKnown(c, names, tier.exclude, tier.joinURL, g);
      var rs := gathered.value;
      var allowed := Allowed(tier.maxUnavailable, Counted(c, rs, tier.exclude));
      if allowed.Some? {
        LoopFrame(StartTally(c, UnavailableCount(c, rs)), rs, allowed.value, tier.options, g, "");
      }
    }
  }

  /** A tier that ends with nil or an ignorable error has written minor changes at most: no first plan, no major
      change, no request for a drain or an uncordon. */
  lemma QuietTierIsMinor(c: Cluster, tier: Tier, g: Settings)
    requires Listed(c, Collected(c, tier.filter))
    ensures var o := Reconciled(c, tier, g);
      o.err == Nil || o.err == Ignore ==> MinorOnly(c, o.cluster)
  {
    hide Scheduled, Matches, Gathered, Loud, Verdict, WithPlan, PlanChange.MinorChange;
    ReconciledFrame(c, tier, g);
    BatchDistinct(c, tier, g);
    var o := Reconciled(c, tier, g);
    var rs := Batch(c, tier, g);
    var allowed := Allowed(tier.maxUnavailable, Counted(c, rs, tier.exclude));
    if Gathered(c, Collected(c, tier.filter), tier.exclude, tier.joinURL, g).Good? && allowed.Some? &&
       (o.err == Nil || o.err == Ignore) {
      var t0 := StartTally(c, UnavailableCount(c, rs));
      var t := Scheduled(t0, rs, allowed.value, tier.options, g);
      assert t.err == Nil by { ErredVerdict(t, tier.required, Collected(c, tier.filter) == [], g); }
      forall m | m in c.secrets ensures MinorSecret(c, c.secrets[m], o.cluster.secrets[m], m) {
        LoopLoud(t0, rs, allowed.value, tier.options, g, m);
        if Loud(t, m) {
          LoudWaits(t, m, tier.required, Collected(c, tier.filter) == [], g);
          assert false;
        }
      }
    }
  }

  lemma ErredVerdict(t: Tally, required: bool, none: bool, g: Settings)
    ensures t.err != Nil ==> Verdict(t, required, none, g) == Other
  {
  }

  /** A plan that is not minor is written to a machine that has a plan only when the drain is over or none applies: the
      request is the one in force and is recorded as done, and no drain error is reported. */
  lemma MajorWriteIsDrained(t: Tally, r: Reconcilable, concurrency: int, options: DrainOptions, g: Settings)
    requires Current(t.cluster, r) && t.err == Nil && r.node.Some? && !r.minorChange
    ensures var s, s' := t.cluster.secrets[r.name], Visited(t, r, concurrency, options, g).cluster.secrets[r.name];
      var single := |t.cluster.machines| == 1;
      s'.plan != s.plan ==>
        && s'.plan == Encoded(r.desired) && Admitted(t.cluster, r, concurrency, t.unavailable)
        && (t.cluster.machines[r.name].nodeRef.Some? && PlannerDrain.Applies(options, single) &&
            PlanChange.ShouldDrain(r.node.value.appliedPlan, r.desired) ==>
              s.annotations.drain == s.annotations.drainDone == PlannerDrain.Requested(options, single) &&
              !PlannerDrain.DrainErrorReported(s.annotations))
  {
    hide Disrupted, Settled, Quiet, PlanChange.MinorChange, PlanChange.ShouldDrain, PlannerDrain.DrainErrorReported;
    var s := Summarized(t, r);
    var o := s.(outOfSync := s.outOfSync + [r.name]);
    DisruptedWrites(o, r, options);
    SettledBudget(s, r, g);
  }

  lemma DisruptedWrites(t: Tally, r: Reconcilable, options: DrainOptions)
    requires r.name in t.cluster.secrets && r.name in t.cluster.machines && r.node.Some?
    ensures var s, s' := t.cluster.secrets[r.name], Disrupted(t, r, options).cluster.secrets[r.name];
      var single := |t.cluster.machines| == 1;
      s'.plan != s.plan ==>
        && s'.plan == Encoded(r.desired)
        && (t.cluster.machines[r.name].nodeRef.Some? && PlannerDrain.Applies(options, single) &&
            PlanChange.ShouldDrain(r.node.value.appliedPlan, r.desired) ==>
              s.annotations.drain == s.annotations.drainDone == PlannerDrain.Requested(options, single) &&
              !PlannerDrain.DrainErrorReported(s.annotations))
  {
    hide Quiet, SecretToNode, IsUnavailable, PlanChange.ShouldDrain, PlannerDrain.DrainErrorReported,
         PlannerDrain.Requested, PlannerDrain.Applies;
  }

  // ---------------------------------------------------------------- all tiers

  predicate QuietErr(err: Err) {
    err == Nil || err == Ignore
  }

  /** The cluster that the i-th tier starts from, and after the last one. */
  function Before(c: Cluster, tiers: seq<Ran>, i: nat): Cluster
    requires i <= |tiers|
  {
    if i == 0 then c else tiers[i - 1].cluster
  }

  /** All these tiers went by with minor changes at most. */
  ghost predicate Passed(c: Cluster, tiers: seq<Ran>) {
    forall i :: 0 <= i < |tiers| ==> QuietErr(tiers[i].err) && MinorOnly(Before(c, tiers, i), tiers[i].cluster)
  }

  /** The i-th tier is the one of the i-th role: the init node, the other etcd machines, the control plane, workers. */
  predicate InRole(tier: Tier, i: nat) {
    match i
    case 0 => tier.filter == Etcd && tier.exclude == IS_NOT_INIT_NODE_OR_IS_DELETING && tier.maxUnavailable == Number(1)
    case 1 => tier.filter == Etcd && tier.exclude == IS_INIT_NODE_OR_DELETING && tier.maxUnavailable == Number(1)
    case 2 => tier.filter == Filter.ControlPlane && tier.exclude == IS_INIT_NODE_OR_DELETING
    case 3 => tier.filter == IS_ONLY_WORKER && tier.exclude == IS_INIT_NODE_OR_DELETING
    case _ => false
  }

  /** The tiers ran one after the other, each on the cluster that the one before it left. */
  ghost predicate InOrder(c: Cluster, tiers: seq<Ran>, g: Settings) {
    forall i :: 0 <= i < |tiers| ==>
      && InRole(tiers[i].tier, i) && tiers[i].before == Before(c, tiers, i)
      && Listed(tiers[i].before, Collected(tiers[i].before, tiers[i].tier.filter))
      && tiers[i] == RanOf(tiers[i].before, tiers[i].tier, g)
  }

  /** Every tier but the last one reached went by with minor changes at most. When the last one did more, the pass ended
      there, with an error that is neither nil nor ignorable. After the last tier only init-node marks can change, and
      nil means that all four tiers were reached and made minor changes at most. */
  ghost predicate Gated(c: Cluster, f: Full, g: Settings) {
    var n := |f.tiers|;
    && InOrder(c, f.tiers, g)
    && (n > 0 ==> Passed(c, f.tiers[..n - 1]))
    && InitNodeRuns.Relabelled(Before(c, f.tiers, n), f.stage.cluster)
    && (n > 0 && !MinorOnly(Before(c, f.tiers, n - 1), f.tiers[n - 1].cluster) ==>
          !QuietErr(f.stage.err) && f.stage.cluster == f.tiers[n - 1].cluster)
    && f.stage.err != Ignore
    && (f.stage.err == Nil ==> n == 4 && Passed(c, f.tiers))
  }

  lemma OrderMore(c: Cluster, done: seq<Ran>, tier: Tier, g: Settings)
    requires InOrder(c, done, g)
    ensures var before := Before(c, done, |done|);
      InRole(tier, |done|) && Listed(before, Collected(before, tier.filter)) ==>
        InOrder(c, done + [RanOf(before, tier, g)], g)
  {
    hide RanOf, Matches, Reconciled, Before, InRole, Listed;
    var before := Before(c, done, |done|);
    if InRole(tier, |done|) && Listed(before, Collected(before, tier.filter)) {
      var r := RanOf(before, tier, g);
      BeforeMore(c, done, r);
      assert forall i :: 0 <= i < |done| ==> (done + [r])[i] == done[i];
    }
  }

  lemma BeforeMore(c: Cluster, done: seq<Ran>, r: Ran)
    ensures forall i :: 0 <= i <= |done| ==> Before(c, done + [r], i) == Before(c, done, i)
  {
    forall i | 0 <= i <= |done| ensures Before(c, done + [r], i) == Before(c, done, i) {
    }
  }

  lemma PassedMore(c: Cluster, done: seq<Ran>, t: Ran)
    requires Passed(c, done) && (QuietErr(t.err) ==> MinorOnly(Before(c, done, |done|), t.cluster))
    ensures QuietErr(t.err) ==> Passed(c, done + [t])
    ensures (done + [t])[..|done|] == done && Before(c, done + [t], |done|) == Before(c, done, |done|)
    ensures Before(c, done + [t], |done| + 1) == t.cluster
  {
    hide MinorOnly;
    var all := done + [t];
    forall i | 0 <= i < |all| && QuietErr(t.err)
      ensures QuietErr(all[i].err) && MinorOnly(Before(c, all, i), all[i].cluster)
    {
      if i < |done| { assert all[i] == done[i] && Before(c, all, i) == Before(c, done, i); }
    }
  }

  /** A tier that ends the pass. */
  lemma EndsGated(c: Cluster, done: seq<Ran>, t: Ran, f: Full, g: Settings)
    requires InOrder(c, f.tiers, g)
    requires Passed(c, done) && f.tiers == done + [t] && f.stage.cluster == t.cluster
    requires QuietErr(t.err) ==> MinorOnly(Before(c, done, |done|), t.cluster)
    requires f.stage.err != Ignore && (f.stage.err == Nil ==> |f.tiers| == 4)
    requires f.stage.err == t.err || (QuietErr(t.err) && f.stage.err == Waiting)
    ensures Gated(c, f, g)
  {
    hide MinorOnly, InitNodeRuns.SameButMark, InOrder;
    PassedMore(c, done, t);
    InitNodeRuns.SameRelabelled(t.cluster);
  }

  /** A pass that ends between two tiers. */
  lemma StopsGated(c: Cluster, f: Full, g: Settings)
    requires InOrder(c, f.tiers, g)
    requires Passed(c, f.tiers) && f.stage.err != Ignore && f.stage.err != Nil
    requires InitNodeRuns.Relabelled(Before(c, f.tiers, |f.tiers|), f.stage.cluster)
    ensures Gated(c, f, g)
  {
    hide MinorOnly, InitNodeRuns.Relabelled, InOrder;
    var n := |f.tiers|;
    if n > 0 {
      assert forall i :: 0 <= i < n - 1 ==> f.tiers[..n - 1][i] == f.tiers[i];
      assert forall i :: 0 <= i < n - 1 ==> Before(c, f.tiers[..n - 1], i) == Before(c, f.tiers, i);
    }
  }

  lemma WorkersGated(c0: Cluster, cp: Object, status: Status, c: Cluster, limits: Limits, seen: bool, w: World,
                     done: seq<Ran>)
    requires Passed(c0, done) && InOrder(c0, done, SettingsOf(cp, w)) && c == Before(c0, done, |done|) && |done| == 3
    ensures Gated(c0, Workers(cp, status, c, limits, seen, w, done), SettingsOf(cp, w))
  {
    hide Reconciled, InOrder, MinorOnly, Gated, Passed, Before, Matches;
    TierListed(c, IS_ONLY_WORKER);
    var tier, g := WorkerTier(limits), SettingsOf(cp, w);
    QuietTierIsMinor(c, tier, g);
    OrderMore(c0, done, tier, g);
    EndsGated(c0, done, RanOf(c, tier, g), Workers(cp, status, c, limits, seen, w, done), g);
  }

  lemma AvailableGated(c0: Cluster, cp: Object, status: Status, c: Cluster, limits: Limits, seen: bool, w: World,
                       done: seq<Ran>)
    requires Passed(c0, done) && InOrder(c0, done, SettingsOf(cp, w)) && c == Before(c0, done, |done|) && |done| == 3
    ensures Gated(c0, Available(cp, status, c, limits, seen, w, done), SettingsOf(cp, w))
  {
    hide Workers, InOrder, MinorOnly, Gated, Passed, Before, Matches, InitNodeRuns.SameButMark;
    InitNodeRuns.SameRelabelled(c);
    WorkersGated(c0, cp, status, c, limits, seen, w, done);
    var f := Available(cp, status, c, limits, seen, w, done);
    if f.tiers == done && f.stage.cluster == c && f.stage.err == Waiting { StopsGated(c0, f, SettingsOf(cp, w)); }
  }

  lemma ControlPlanesGated(c0: Cluster, cp: Object, status: Status, c: Cluster, limits: Limits, joinServer: string,
                           seen: bool, w: World, done: seq<Ran>)
    requires Passed(c0, done) && InOrder(c0, done, SettingsOf(cp, w)) && c == Before(c0, done, |done|) && |done| == 2
    ensures Gated(c0, ControlPlanes(cp, status, c, limits, joinServer, seen, w, done), SettingsOf(cp, w))
  {
    hide Reconciled, InOrder, Available, MinorOnly, Gated, Passed, Before, Matches;
    TierListed(c, Filter.ControlPlane);
    var tier := ControlPlaneTier(joinServer, limits);
    var g := SettingsOf(cp, w);
    var t := RanOf(c, tier, g);
    QuietTierIsMinor(c, tier, g);
    PassedMore(c0, done, t);
    OrderMore(c0, done, tier, g);
    if QuietErr(t.err) {
      AvailableGated(c0, cp, status, t.cluster, limits, IgnoreErrors(seen, t.err).seen, w, done + [t]);
    } else {
      EndsGated(c0, done, t, ControlPlanes(cp, status, c, limits, joinServer, seen, w, done), g);
    }
  }

  lemma EtcdsGated(c0: Cluster, cp: Object, status: Status, c: Cluster, limits: Limits, joinServer: string,
                   seen: bool, w: World, done: seq<Ran>)
    requires Passed(c0, done) && InOrder(c0, done, SettingsOf(cp, w)) && c == Before(c0, done, |done|) && |done| == 1
    ensures Gated(c0, Etcds(cp, status, c, limits, joinServer, seen, w, done), SettingsOf(cp, w))
  {
    hide Reconciled, InOrder, ControlPlanes, MinorOnly, Gated, Passed, Before, Matches;
    TierListed(c, Etcd);
    var tier := EtcdTier(joinServer, limits.controlPlaneDrain);
    var g := SettingsOf(cp, w);
    var t := RanOf(c, tier, g);
    QuietTierIsMinor(c, tier, g);
    PassedMore(c0, done, t);
    OrderMore(c0, done, tier, g);
    if QuietErr(t.err) {
      ControlPlanesGated(c0, cp, status, t.cluster, limits, joinServer, IgnoreErrors(seen, t.err).seen, w, done + [t]);
    } else {
      EndsGated(c0, done, t, Etcds(cp, status, c, limits, joinServer, seen, w, done), g);
    }
  }

  lemma JoiningGated(c0: Cluster, cp: Object, status: Status, c: Cluster, limits: Limits, elected: string,
                     seen: bool, w: World, done: seq<Ran>)
    requires Passed(c0, done) && InOrder(c0, done, SettingsOf(cp, w)) && c == Before(c0, done, |done|) && |done| == 1
    ensures Gated(c0, Joining(cp, status, c, limits, elected, seen, w, done), SettingsOf(cp, w))
  {
    hide Etcds, FoundInitNode, MinorOnly, Gated, Passed, InOrder, Before, InitNodeRuns.SameButMark;
    var f := FoundInitNode(c, cp.fixedInitNode);
    InitNodeRuns.FoundRelabels(c, cp.fixedInitNode);
    if elected != "" {
      EtcdsGated(c0, cp, status, c, limits, elected, seen, w, done);
    } else if f.err == Nil && f.joinURL != "" {
      EtcdsGated(c0, cp, status, c, limits, f.joinURL, seen, w, done);
    } else {
      StopsGated(c0, Joining(cp, status, c, limits, elected, seen, w, done), SettingsOf(cp, w));
    }
  }

  /** Tier gating, for every pass of full reconciliation. */
  lemma FullReconcileGated(cp: Object, status: Status, c: Cluster, ignoreLimits: bool, w: World)
    ensures Gated(c, FullyReconciled(cp, status, c, ignoreLimits, w), SettingsOf(cp, w))
  {
    hide Reconciled, Joining, Elected, MinorOnly, Gated, Matches, InitNodeRuns.SameButMark;
    InitNodeRuns.ElectedRelabels(c, cp.fixedInitNode, true);
    var e := Elected(c, cp.fixedInitNode, true);
    var f := FullyReconciled(cp, status, c, ignoreLimits, w);
    if e.err != Nil {
      StopsGated(c, f, SettingsOf(cp, w));
    } else {
      TierListed(c, Etcd);
      var limits := LimitsOf(cp.spec.strategy, ignoreLimits);
      var tier := BootstrapTier(limits.controlPlaneDrain);
      var g := SettingsOf(cp, w);
      var t := RanOf(c, tier, g);
      QuietTierIsMinor(c, tier, g);
      PassedMore(c, [], t);
      OrderMore(c, [], tier, g);
      assert [] + [t] == [t];
      if QuietErr(t.err) {
        JoiningGated(c, cp, status.(bootstrapped := Yes), t.cluster, limits, e.joinURL,
                     IgnoreErrors(false, t.err).seen, w, [t]);
      } else {
        EndsGated(c, [], t, f, g);
      }
    }
  }

  // ---------------------------------------------------------------- what nil says about the machines

  /** The machine runs its desired plan, applied and healthy, and is in no drain. */
  predicate AtRest(s: Secret, r: Reconcilable) {
    && r.node.Some? && !r.change && Quiet(r.node)
    && s.annotations.drain == Blank && s.annotations.unCordon == Blank
    && !PlannerDrain.DrainErrorReported(s.annotations)
  }

  /** The machine has a major change, was quiet, and is in no state that would let it through without the budget. */
  predicate Refused(s: Secret, r: Reconcilable, concurrency: int) {
    && r.node.Some? && r.change && !r.minorChange && Quiet(r.node)
    && concurrency != 0 && !PlannerDrain.InDrain(s.annotations) && !r.node.value.failed && !NeverHealthy(r.node.value)
  }

  ghost predicate Accounted(s: Secret, s': Secret, r: Reconcilable, concurrency: int) {
    MinorWrite(s, s', r) || (s' == s && (AtRest(s, r) || Refused(s, r, concurrency)))
  }

  lemma SettledRests(t: Tally, r: Reconcilable, g: Settings)
    requires r.name in t.cluster.secrets && r.name in t.cluster.machines && t.err == Nil
    requires r.node.Some? && !r.change && Quiet(r.node)
    ensures var t' := Settled(t, r, g);
      var s, s' := t.cluster.secrets[r.name], t'.cluster.secrets[r.name];
      t'.err == Nil ==> Loud(t', r.name) || (s' == s && AtRest(s, r))
  {
    hide SecretToNode, Matches, Quiet;
  }

  lemma VisitAccounts(t: Tally, r: Reconcilable, concurrency: int, options: DrainOptions, g: Settings)
    requires r.name in t.cluster.secrets && r.name in t.cluster.machines && t.err == Nil
    ensures var t' := Visited(t, r, concurrency, options, g);
      var s, s' := t.cluster.secrets[r.name], t'.cluster.secrets[r.name];
      t'.err == Nil ==> Loud(t', r.name) || Accounted(s, s', r, concurrency)
  {
    hide Disrupted, Settled, Quiet, AtRest, NeverHealthy, PlannerDrain.InDrain;
    var s := Summarized(t, r);
    var o := s.(outOfSync := s.outOfSync + [r.name]);
    if r.node.None? {
      assert r.name in o.outOfSync && r.name in o.noisy by { Unquiet(t, r); }
    } else if !r.minorChange {
      if r.change {
        if Admitted(o.cluster, r, concurrency, o.unavailable) { DisruptedLoud(o, r, options); }
      } else if Quiet(r.node) {
        SettledRests(s, r, g);
      }
    }
  }

  lemma {:induction false} LoopAccounts(t: Tally, rs: seq<Reconcilable>, concurrency: int, options: DrainOptions,
                                        g: Settings, i: nat)
    requires Known(t.cluster, rs) && t.err == Nil && Distinct(rs) && i < |rs|
    ensures var t' := Scheduled(t, rs, concurrency, options, g);
      && t'.cluster.secrets.Keys == t.cluster.secrets.Keys
      && (t'.err == Nil ==>
            Loud(t', rs[i].name) ||
            Accounted(t.cluster.secrets[rs[i].name], t'.cluster.secrets[rs[i].name], rs[i], concurrency))
    decreases |rs|
  {
    hide Visited, Loud, Accounted;
    var r, rest, m := rs[0], rs[1..], rs[i].name;
    var t1 := Visited(t, r, concurrency, options, g);
    LoopFrame(t, rs, concurrency, options, g, m);
    assert forall j :: 0 <= j < |rest| ==> rest[j] == rs[j + 1];
    if t1.err == Nil {
      if i == 0 {
        LoopFrame(t1, rest, concurrency, options, g, m);
        VisitAccounts(t, r, concurrency, options, g);
        LoopKeepsLoud(t1, rest, concurrency, options, g, m);
      } else {
        LoopAccounts(t1, rest, concurrency, options, g, i - 1);
      }
    }
  }

  /** A tier that ends with nil or an ignorable error accounts for every machine that it planned for: the machine runs
      its desired plan and is in no drain; or it was just given a minor change; or its major change was refused under
      the limit, without the pass waiting for it. */
  lemma QuietTierAccounts(c: Cluster, tier: Tier, g: Settings, i: nat)
    requires Listed(c, Collected(c, tier.filter)) && i < |Batch(c, tier, g)|
    ensures var o, rs := Reconciled(c, tier, g), Batch(c, tier, g);
      var allowed := Allowed(tier.maxUnavailable, Counted(c, rs, tier.exclude));
      QuietErr(o.err) ==>
        allowed.Some? && rs[i].name in c.secrets && rs[i].name in o.cluster.secrets &&
        Accounted(c.secrets[rs[i].name], o.cluster.secrets[rs[i].name], rs[i], allowed.value)
  {
    hide Scheduled, Matches, Gathered, Loud, Verdict, Accounted;
    BatchDistinct(c, tier, g);
    var rs := Batch(c, tier, g);
    var allowed := Allowed(tier.maxUnavailable, Counted(c, rs, tier.exclude));
    if allowed.Some? {
      var none := Collected(c, tier.filter) == [];
      var t0 := StartTally(c, UnavailableCount(c, rs));
      var t := Scheduled(t0, rs, allowed.value, tier.options, g);
      ErredVerdict(t, tier.required, none, g);
      LoopAccounts(t0, rs, allowed.value, tier.options, g, i);
      if Loud(t, rs[i].name) { LoudWaits(t, rs[i].name, tier.required, none, g); }
    }
  }

  // ---------------------------------------------------------------- when a major change goes unreported

  predicate Major(r: Reconcilable) {
    r.node.Some? && r.change && !r.minorChange
  }

  /** Nothing keeps a machine with its desired plan from being ready. */
  predicate Connected(c: Cluster, m: string, g: Settings)
    requires m in c.machines
  {
    && (g.agentConnected ==> c.machines[m].kubeletUpToDate)
    && (Matches(c, Filter.ControlPlane, m) ==> g.agentConnected)
  }

  predicate Writable(c: Cluster, r: Reconcilable) {
    PlanUpdate(c, r.name, r.node, r.desired, r.joinedURL, -1, 1).err == Nil
  }

  /** The machine gives no reason to wait for it, unless it is let through: it is quiet, and it has a minor change, or a
      major one and is in no drain, or is at rest and connected. */
  predicate Silent(c: Cluster, r: Reconcilable, g: Settings)
    requires r.name in c.secrets && r.name in c.machines
  {
    && r.node.Some? && Quiet(r.node)
    && if r.minorChange then !c.machines[r.name].summary.message && Writable(c, r)
       else if r.change then
         && !c.machines[r.name].summary.message && !InDrain(c, r.name)
         && !r.node.value.failed && !NeverHealthy(r.node.value)
       else AtRest(c.secrets[r.name], r) && Connected(c, r.name, g)
  }

  /** The limit is in force and leaves no room. */
  predicate Exhausted(unavailable: int, concurrency: int) {
    concurrency != 0 && unavailable >= concurrency
  }

  predicate Unlisted(t: Tally, m: string) {
    m !in t.outOfSync && m !in t.draining && m !in t.uncordoned
  }

  lemma SettledSilent(t: Tally, r: Reconcilable, g: Settings)
    requires r.name in t.cluster.secrets && r.name in t.cluster.machines && t.err == Nil && Unlisted(t, r.name)
    requires r.node.Some? && !r.change && Quiet(r.node)
    ensures var t' := Settled(t, r, g);
      && (t'.err == Nil && !Loud(t', r.name) <==>
            AtRest(t.cluster.secrets[r.name], r) && Connected(t.cluster, r.name, g))
      && t'.unavailable == t.unavailable
  {
    hide SecretToNode, Matches, Quiet;
    RoleStays(t.cluster, r.name, PlannerDrain.Undrain(t.cluster.secrets[r.name].annotations).annotations);
  }

  lemma RoleStays(c: Cluster, m: string, a: Annotations)
    requires m in c.secrets
    ensures Matches(Put(c, m, c.secrets[m].(annotations := a)), Filter.ControlPlane, m) ==
            Matches(c, Filter.ControlPlane, m)
  {
  }

  /** A visit without an error and without a reason to wait: exactly when the machine is silent, and a major change
      finds no room under the limit. */
  lemma VisitSilent(t: Tally, r: Reconcilable, concurrency: int, options: DrainOptions, g: Settings)
    requires r.name in t.cluster.secrets && r.name in t.cluster.machines && t.err == Nil && Unlisted(t, r.name)
    ensures var t' := Visited(t, r, concurrency, options, g);
      && (t'.err == Nil && !Loud(t', r.name) <==>
            Silent(t.cluster, r, g) && (Major(r) ==> Exhausted(t.unavailable, concurrency)))
      && (t'.err == Nil && !Loud(t', r.name) ==> t'.unavailable == t.unavailable)
  {
    hide Disrupted, Settled, Quiet, AtRest, NeverHealthy, PlannerDrain.InDrain, Connected, PlanUpdate;
    var s := Summarized(t, r);
    var o := s.(outOfSync := s.outOfSync + [r.name]);
    if r.node.None? {
      assert r.name in o.outOfSync && r.name in o.noisy by { Unquiet(t, r); }
    } else if !r.minorChange {
      if r.change {
        if Admitted(o.cluster, r, concurrency, o.unavailable) { DisruptedLoud(o, r, options); }
      } else if Quiet(r.node) {
        SettledSilent(s, r, g);
      }
    }
  }

  ghost predicate NoneLoud(t: Tally, rs: seq<Reconcilable>) {
    forall i :: 0 <= i < |rs| ==> !Loud(t, rs[i].name)
  }

  ghost predicate AllSilent(c: Cluster, rs: seq<Reconcilable>, unavailable: int, concurrency: int, g: Settings)
    requires Known(c, rs)
  {
    forall i :: 0 <= i < |rs| ==> Silent(c, rs[i], g) && (Major(rs[i]) ==> Exhausted(unavailable, concurrency))
  }

  lemma SilentFrame(c: Cluster, c': Cluster, r: Reconcilable, g: Settings, m: string)
    requires OnlyTouches(c, c', {m}) && r.name != m && r.name in c.secrets && r.name in c.machines
    ensures Silent(c', r, g) <==> Silent(c, r, g)
  {
    hide SecretToNode, Quiet, NeverHealthy, PlannerDrain.InDrain;
  }

  lemma SilentTail(t: Tally, rs: seq<Reconcilable>, concurrency: int, options: DrainOptions, g: Settings)
    requires Known(t.cluster, rs) && rs != [] && Distinct(rs) && forall i :: 0 <= i < |rs| ==> Unlisted(t, rs[i].name)
    ensures var t1, rest := Visited(t, rs[0], concurrency, options, g), rs[1..];
      && Known(t1.cluster, rest) && Distinct(rest) && (forall i :: 0 <= i < |rest| ==> Unlisted(t1, rest[i].name))
      && forall i :: 0 <= i < |rest| ==>
           rest[i] == rs[i + 1] && rest[i].name != rs[0].name &&
           (Silent(t1.cluster, rest[i], g) <==> Silent(t.cluster, rs[i + 1], g))
  {
    hide Visited, Silent;
    var t1, rest := Visited(t, rs[0], concurrency, options, g), rs[1..];
    assert forall i :: 0 <= i < |rest| ==> rest[i] == rs[i + 1];
    forall i | 0 <= i < |rest|
      ensures Unlisted(t1, rest[i].name) && (Silent(t1.cluster, rest[i], g) <==> Silent(t.cluster, rs[i + 1], g))
    {
      VisitKeepsVoice(t, rs[0], concurrency, options, g, rest[i].name);
      SilentFrame(t.cluster, t1.cluster, rest[i], g, rs[0].name);
    }
  }

  /** The loop ends without an error and with no machine to wait for exactly when every machine is silent, and, if one
      of them has a major change, the limit is in force and the counter has reached it from the start. */
  lemma {:induction false} LoopSilent(t: Tally, rs: seq<Reconcilable>, concurrency: int, options: DrainOptions,
                                      g: Settings)
    requires Known(t.cluster, rs) && Distinct(rs) && t.err == Nil
    requires forall i :: 0 <= i < |rs| ==> Unlisted(t, rs[i].name)
    ensures var t' := Scheduled(t, rs, concurrency, options, g);
      t'.err == Nil && NoneLoud(t', rs) <==> AllSilent(t.cluster, rs, t.unavailable, concurrency, g)
    decreases |rs|
  {
    hide Visited, Loud, Silent, Exhausted, Major, Unlisted;
    if rs != [] {
      var r, rest := rs[0], rs[1..];
      var t1, t' := Visited(t, r, concurrency, options, g), Scheduled(t, rs, concurrency, options, g);
      SilentTail(t, rs, concurrency, options, g);
      VisitSilent(t, r, concurrency, options, g);
      LoopKeepsLoud(t1, rest, concurrency, options, g, r.name);
      if t1.err == Nil && !Loud(t1, r.name) {
        LoopSilent(t1, rest, concurrency, options, g);
        assert NoneLoud(t', rs) <==> NoneLoud(t', rest) by { NoneLoudCons(t', rs); }
        SilentCons(t, t1, rs, concurrency, g);
      }
    }
  }

  lemma NoneLoudCons(t: Tally, rs: seq<Reconcilable>)
    requires rs != []
    ensures NoneLoud(t, rs) <==> !Loud(t, rs[0].name) && NoneLoud(t, rs[1..])
  {
    hide Loud;
    assert forall i :: 0 <= i < |rs[1..]| ==> rs[1..][i] == rs[i + 1];
    if !Loud(t, rs[0].name) && NoneLoud(t, rs[1..]) {
      forall i | 0 <= i < |rs| ensures !Loud(t, rs[i].name) {
        if i > 0 { assert rs[i] == rs[1..][i - 1]; }
      }
    }
  }

  lemma SilentCons(t: Tally, t1: Tally, rs: seq<Reconcilable>, concurrency: int, g: Settings)
    requires rs != [] && Known(t.cluster, rs) && Known(t1.cluster, rs[1..]) && t1.unavailable == t.unavailable
    requires Silent(t.cluster, rs[0], g) && (Major(rs[0]) ==> Exhausted(t.unavailable, concurrency))
    requires forall i :: 0 <= i < |rs[1..]| ==>
      rs[1..][i] == rs[i + 1] && (Silent(t1.cluster, rs[1..][i], g) <==> Silent(t.cluster, rs[i + 1], g))
    ensures AllSilent(t.cluster, rs, t.unavailable, concurrency, g) <==>
            AllSilent(t1.cluster, rs[1..], t1.unavailable, concurrency, g)
  {
    hide Silent, Exhausted, Major;
    var rest := rs[1..];
    if AllSilent(t1.cluster, rest, t1.unavailable, concurrency, g) {
      forall i | 0 <= i < |rs|
        ensures Silent(t.cluster, rs[i], g) && (Major(rs[i]) ==> Exhausted(t.unavailable, concurrency))
      {
        if i > 0 { assert rest[i - 1] == rs[i]; }
      }
    }
  }

  /** The machine is counted as unavailable and gives no reason to wait: it is quiet and marked as being in a drain,
      and it is just given a minor change, or only marks of hooks are left of its drain. */
  predicate Held(c: Cluster, r: Reconcilable) {
    && r.node.Some? && Quiet(r.node) && InDrain(c, r.name)
    && (r.minorChange ||
        (!r.change && c.secrets[r.name].annotations.drain == Blank && c.secrets[r.name].annotations.unCordon == Blank))
  }

  function HeldCount(c: Cluster, rs: seq<Reconcilable>): nat {
    if rs == [] then 0 else (if Held(c, rs[0]) then 1 else 0) + HeldCount(c, rs[1..])
  }

  lemma {:induction false} SilentCount(c: Cluster, rs: seq<Reconcilable>, unavailable: int, concurrency: int,
                                       g: Settings)
    requires Known(c, rs) && AllSilent(c, rs, unavailable, concurrency, g)
    ensures UnavailableCount(c, rs) == HeldCount(c, rs)
  {
    hide Writable, Connected;
    if rs != [] {
      assert forall i :: 0 <= i < |rs[1..]| ==> rs[1..][i] == rs[i + 1];
      SilentCount(c, rs[1..], unavailable, concurrency, g);
      assert Silent(c, rs[0], g);
    }
  }

  lemma FreshUnlisted(c: Cluster, rs: seq<Reconcilable>, unavailable: int)
    ensures forall i :: 0 <= i < |rs| ==> Unlisted(StartTally(c, unavailable), rs[i].name)
  {
  }

  /** The pass gave no machine of the tier a reason to be waited for. */
  ghost predicate WentSilently(c: Cluster, tier: Tier, g: Settings)
    requires Listed(c, Collected(c, tier.filter)) && Known(c, Batch(c, tier, g))
  {
    var rs := Batch(c, tier, g);
    var allowed := Allowed(tier.maxUnavailable, Counted(c, rs, tier.exclude));
    && Gathered(c, Collected(c, tier.filter), tier.exclude, tier.joinURL, g).Good? && allowed.Some?
    && var t := Scheduled(StartTally(c, UnavailableCount(c, rs)), rs, allowed.value, tier.options, g);
       t.err == Nil && NoneLoud(t, rs)
  }

  /** A tier with a pending major change goes by silently exactly when all its machines are silent and at least as
      many of them as the limit allows, which is not zero, are held in a drain. Under a positive limit these are
      machines that are quiet, in a drain and had a minor change, or have only marks of hooks left; a negative limit
      needs none. */
  lemma MajorGoesUnreported(c: Cluster, tier: Tier, g: Settings)
    requires Listed(c, Collected(c, tier.filter)) && Known(c, Batch(c, tier, g))
    ensures var rs := Batch(c, tier, g);
      var allowed := Allowed(tier.maxUnavailable, Counted(c, rs, tier.exclude));
      Gathered(c, Collected(c, tier.filter), tier.exclude, tier.joinURL, g).Good? && allowed.Some? &&
      (exists i :: 0 <= i < |rs| && Major(rs[i])) ==>
        (WentSilently(c, tier, g) <==>
          (forall i :: 0 <= i < |rs| ==> Silent(c, rs[i], g)) && Exhausted(HeldCount(c, rs), allowed.value))
  {
    hide Scheduled, Matches, Gathered, Loud, Silent, Exhausted, Major, Unlisted;
    BatchDistinct(c, tier, g);
    var rs := Batch(c, tier, g);
    var allowed := Allowed(tier.maxUnavailable, Counted(c, rs, tier.exclude));
    if allowed.Some? {
      var u := UnavailableCount(c, rs);
      FreshUnlisted(c, rs, u);
      LoopSilent(StartTally(c, u), rs, allowed.value, tier.options, g);
      if forall i :: 0 <= i < |rs| ==> Silent(c, rs[i], g) { SilentCounts(c, rs, g); }
      if AllSilent(c, rs, u, allowed.value, g) { SilentCount(c, rs, u, allowed.value, g); }
    }
  }

  lemma SilentCounts(c: Cluster, rs: seq<Reconcilable>, g: Settings)
    requires Known(c, rs) && forall i :: 0 <= i < |rs| ==> Silent(c, rs[i], g)
    ensures UnavailableCount(c, rs) == HeldCount(c, rs)
  {
    hide Silent;
    assert AllSilent(c, rs, 1, 1, g);
    SilentCount(c, rs, 1, 1, g);
  }

  /** A tier that ends with nil or an ignorable error went by silently. */
  lemma QuietTierIsSilent(c: Cluster, tier: Tier, g: Settings)
    requires Listed(c, Collected(c, tier.filter)) && Known(c, Batch(c, tier, g))
    ensures QuietErr(Reconciled(c, tier, g).err) &&
            Gathered(c, Collected(c, tier.filter), tier.exclude, tier.joinURL, g).Good? ==>
      WentSilently(c, tier, g)
  {
    hide Scheduled, Matches, Gathered, Loud, Verdict;
    var rs := Batch(c, tier, g);
    var allowed := Allowed(tier.maxUnavailable, Counted(c, rs, tier.exclude));
    if QuietErr(Reconciled(c, tier, g).err) && allowed.Some? {
      var none := Collected(c, tier.filter) == [];
      var t := Scheduled(StartTally(c, UnavailableCount(c, rs)), rs, allowed.value, tier.options, g);
      ErredVerdict(t, tier.required, none, g);
      forall i | 0 <= i < |rs| ensures !Loud(t, rs[i].name) {
        if Loud(t, rs[i].name) { LoudWaits(t, rs[i].name, tier.required, none, g); }
      }
    }
  }

  /** So a tier that ends quietly leaves a major change pending only if as many of its machines are held as the limit
      allows. */
  lemma QuietTierHolds(c: Cluster, tier: Tier, g: Settings, i: nat)
    requires Listed(c, Collected(c, tier.filter)) && i < |Batch(c, tier, g)|
    ensures var rs := Batch(c, tier, g);
      var allowed := Allowed(tier.maxUnavailable, Counted(c, rs, tier.exclude));
      QuietErr(Reconciled(c, tier, g).err) && Major(rs[i]) ==>
        allowed.Some? && Exhausted(HeldCount(c, rs), allowed.value)
  {
    hide Scheduled, Matches, Gathered, Verdict, Exhausted, Silent, WentSilently;
    BatchDistinct(c, tier, g);
    QuietTierIsSilent(c, tier, g);
    MajorGoesUnreported(c, tier, g);
  }

  // ---------------------------------------------------------------- tiers that end with nil

  /** The conditions of the machine itself give nothing to wait for and nothing to report. */
  predicate Fine(machine: Machine) {
    machine.infrastructureReady && machine.reconciled && !machine.summary.error && !machine.summary.transitioning
  }

  ghost predicate ListedWithin(t: Tally, names: set<string>) {
    && (forall m :: m in t.uncordoned || m in t.draining ==> m in names)
    && (forall m :: m in t.outOfSync || m in t.ready ==> m in names)
  }

  lemma DisruptedLists(t: Tally, r: Reconcilable, options: DrainOptions, names: set<string>)
    requires r.name in t.cluster.secrets && r.name in t.cluster.machines && r.node.Some? && r.name in names
    requires ListedWithin(t, names)
    ensures var t' := Disrupted(t, r, options);
      ListedWithin(t', names) && t'.errMachines == t.errMachines && t'.nonReady == t.nonReady
  {
    hide Quiet, PlannerDrain.Drain, IsUnavailable, PlanUpdate, Reload;
  }

  lemma SettledLists(t: Tally, r: Reconcilable, g: Settings, names: set<string>)
    requires r.name in t.cluster.secrets && r.name in t.cluster.machines && r.name in names && ListedWithin(t, names)
    ensures var t' := Settled(t, r, g);
      ListedWithin(t', names) && t'.errMachines == t.errMachines && t'.nonReady == t.nonReady
  {
    hide PlannerDrain.Undrain, Reload, Matches;
  }

  lemma VisitLists(t: Tally, r: Reconcilable, concurrency: int, options: DrainOptions, g: Settings,
                   names: set<string>)
    requires r.name in t.cluster.secrets && r.name in t.cluster.machines && r.name in names && ListedWithin(t, names)
    ensures var t' := Visited(t, r, concurrency, options, g);
      ListedWithin(t', names) &&
      (Fine(t.cluster.machines[r.name]) ==> t'.errMachines == t.errMachines && t'.nonReady == t.nonReady)
  {
    hide Quiet, Disrupted, Settled, PlanUpdate, Admitted;
    var s := Summarized(t, r);
    var o := s.(outOfSync := s.outOfSync + [r.name]);
    if r.node.Some? { DisruptedLists(o, r, options, names); }
    SettledLists(s, r, g, names);
  }

  lemma {:induction false} LoopLists(t: Tally, rs: seq<Reconcilable>, concurrency: int, options: DrainOptions,
                                     g: Settings, names: set<string>)
    requires Known(t.cluster, rs) && ListedWithin(t, names)
    requires forall i :: 0 <= i < |rs| ==> rs[i].name in names && Fine(t.cluster.machines[rs[i].name])
    ensures var t' := Scheduled(t, rs, concurrency, options, g);
      && ListedWithin(t', names) && t'.cluster.machines == t.cluster.machines
      && t'.errMachines == t.errMachines && t'.nonReady == t.nonReady
    decreases |rs|
  {
    hide Visited, Fine, ListedWithin;
    if rs != [] && t.err == Nil {
      assert forall i :: 0 <= i < |rs[1..]| ==> rs[1..][i] == rs[i + 1];
      VisitLists(t, rs[0], concurrency, options, g, names);
      LoopLists(Visited(t, rs[0], concurrency, options, g), rs[1..], concurrency, options, g, names);
    }
  }

  /** Without an error, a machine to wait for, or one whose own conditions say something, the verdict is nil. */
  lemma FineVerdict(t: Tally, names: set<string>, required: bool, none: bool, g: Settings)
    requires t.err == Nil && !(required && none) && ListedWithin(t, names)
    requires t.errMachines == [] == t.nonReady
    requires forall m :: m in names ==> m in t.cluster.machines && Fine(t.cluster.machines[m]) && !Loud(t, m)
    ensures Verdict(t, required, none, g) == Nil
  {
    NilCondition(t.cluster, t.uncordoned, t.noisy, g);
    NilCondition(t.cluster, t.draining, t.noisy, g);
    NilCondition(t.cluster, t.outOfSync, t.noisy, g);
    NilCondition(t.cluster, t.ready, {}, g);
    hide ConditionErr;
  }

  lemma NilCondition(c: Cluster, names: seq<string>, noisy: set<string>, g: Settings)
    ensures (forall m :: m in names ==> m in c.machines && Fine(c.machines[m]) && m !in noisy) ==>
      ConditionErr(c, names, noisy, g) == Nil
  {
  }

  /** No machine of the tier has anything to report by itself, and the tier is not missing. */
  ghost predicate AllFine(c: Cluster, tier: Tier, g: Settings)
    requires Listed(c, Collected(c, tier.filter)) && Known(c, Batch(c, tier, g))
  {
    && !(tier.required && Collected(c, tier.filter) == [])
    && forall i :: 0 <= i < |Batch(c, tier, g)| ==> Fine(c.machines[Batch(c, tier, g)[i].name])
  }

  ghost function BatchNames(rs: seq<Reconcilable>): set<string> {
    set i | 0 <= i < |rs| :: rs[i].name
  }

  /** A tier that goes by silently, with machines that are fine, ends with nil. */
  lemma SilentTierIsNil(c: Cluster, tier: Tier, g: Settings)
    requires Listed(c, Collected(c, tier.filter)) && Known(c, Batch(c, tier, g))
    ensures WentSilently(c, tier, g) && AllFine(c, tier, g) ==> Reconciled(c, tier, g).err == Nil
  {
    hide Scheduled, Matches, Gathered, Loud, Verdict, Fine;
    if WentSilently(c, tier, g) && AllFine(c, tier, g) {
      var rs := Batch(c, tier, g);
      var names := BatchNames(rs);
      var allowed := Allowed(tier.maxUnavailable, Counted(c, rs, tier.exclude));
      var t0 := StartTally(c, UnavailableCount(c, rs));
      var t := Scheduled(t0, rs, allowed.value, tier.options, g);
      assert forall i :: 0 <= i < |rs| ==> rs[i].name in names;
      LoopLists(t0, rs, allowed.value, tier.options, g, names);
      forall m | m in names ensures m in t.cluster.machines && Fine(t.cluster.machines[m]) && !Loud(t, m) {
        var i :| 0 <= i < |rs| && rs[i].name == m;
        assert !Loud(t, rs[i].name);
      }
      FineVerdict(t, names, tier.required, Collected(c, tier.filter) == [], g);
    }
  }

  /** Every machine of the tier holds its desired plan, and none has anything to wait for or to report. */
  ghost predicate TierRests(c: Cluster, tier: Tier, g: Settings)
    requires Listed(c, Collected(c, tier.filter))
  {
    && Gathered(c, Collected(c, tier.filter), tier.exclude, tier.joinURL, g).Good?
    && var rs := Batch(c, tier, g);
       && Known(c, rs) && AllFine(c, tier, g)
       && Allowed(tier.maxUnavailable, Counted(c, rs, tier.exclude)).Some?
       && forall i :: 0 <= i < |rs| ==> !rs[i].change && !rs[i].minorChange && Silent(c, rs[i], g)
  }

  /** Then the tier answers nil and changes nothing. */
  lemma RestingTier(c: Cluster, tier: Tier, g: Settings)
    requires Listed(c, Collected(c, tier.filter))
    ensures TierRests(c, tier, g) ==> Reconciled(c, tier, g) == Outcome(c, Nil)
  {
    hide Scheduled, Matches, Gathered, Loud, Silent, Reconciled, Unlisted, Fine, NoneLoud;
    if TierRests(c, tier, g) {
      var rs := Batch(c, tier, g);
      var allowed := Allowed(tier.maxUnavailable, Counted(c, rs, tier.exclude));
      BatchDistinct(c, tier, g);
      FreshUnlisted(c, rs, UnavailableCount(c, rs));
      assert AllSilent(c, rs, UnavailableCount(c, rs), allowed.value, g);
      LoopSilent(StartTally(c, UnavailableCount(c, rs)), rs, allowed.value, tier.options, g);
      SilentTierIsNil(c, tier, g);
      var c' := Reconciled(c, tier, g).cluster;
      BesideKept(c, tier, g, "");
      forall m | m in c.secrets ensures c'.secrets[m] == c.secrets[m] {
        RestingKept(c, tier, g, m);
      }
      assert c'.secrets == c.secrets;
    }
  }

  lemma RestingKept(c: Cluster, tier: Tier, g: Settings, m: string)
    requires Listed(c, Collected(c, tier.filter)) && m in c.secrets
    requires TierRests(c, tier, g) && Reconciled(c, tier, g).err == Nil
    ensures var c' := Reconciled(c, tier, g).cluster;
      m in c'.secrets && c'.secrets[m] == c.secrets[m]
  {
    hide Reconciled, Matches, Gathered, Inside, AtRest, Refused, Silent;
    var rs := Batch(c, tier, g);
    BesideKept(c, tier, g, m);
    if Inside(c, tier, m) {
      BatchInside(c, tier, g, m);
      var i :| 0 <= i < |rs| && rs[i].name == m;
      QuietTierAccounts(c, tier, g, i);
    }
  }

  /** The refusal itself: when the counter has reached the limit, a machine that is quiet and in no drain is not let
      through, and the visit leaves no reason to wait. Under a negative limit that is so from the start. */
  lemma FullLimitRefuses(t: Tally, r: Reconcilable, concurrency: int, options: DrainOptions, g: Settings)
    requires r.name in t.cluster.secrets && r.name in t.cluster.machines && t.err == Nil
    requires Exhausted(t.unavailable, concurrency) && Refused(t.cluster.secrets[r.name], r, concurrency)
    requires !t.cluster.machines[r.name].summary.message
    ensures var t' := Visited(t, r, concurrency, options, g);
      t'.cluster == t.cluster && t'.err == Nil && t'.unavailable == t.unavailable && r.name !in t'.noisy
  {
    hide Disrupted, Settled;
  }
}
