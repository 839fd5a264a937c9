/** The rolling scheduler converges: with fixed desired plans, passes only ever bring machines closer to them. */
module Convergence {
  import opened Model
  import opened PlanEntry
  import opened Store
  import opened Scheduler
  import opened Budget
  import PlannerDrain
  import MachineDrain
  import PlanSecret
  import PlanChange

  /** The desired plan of every machine of the tier. */
  type Wanted = map<string, NodePlan>

  predicate Differs(s: Secret, plan: NodePlan) {
    s.plan != Encoded(plan)
  }

  /** The steps a machine still has to go: request the drain, write the plan, request the uncordon. While an uncordon is
      pending, a drain that was requested earlier may yet be reverted, and does not count as a step done. */
  function Rank(s: Secret, plan: NodePlan): nat {
    if Differs(s, plan) then (if s.annotations.drain == Blank || s.annotations.unCordon != Blank then 3 else 2)
    else if s.annotations.drain != Blank && s.annotations.unCordon != s.annotations.drain then 1
    else 0
  }

  function RankSum(c: Cluster, names: seq<string>, want: Wanted): nat {
    if names == [] then 0
    else (if names[0] in c.secrets && names[0] in want then Rank(c.secrets[names[0]], want[names[0]]) else 0)
         + RankSum(c, names[1..], want)
  }

  /** The pass plans for the wanted plans, as far as it plans for machines that have one. */
  ghost predicate Aims(rs: seq<Reconcilable>, want: Wanted) {
    forall i :: 0 <= i < |rs| && rs[i].name in want ==> rs[i].desired == want[rs[i].name]
  }

  function NamesOf(rs: seq<Reconcilable>): seq<string> {
    seq(|rs|, i requires 0 <= i < |rs| => rs[i].name)
  }

  // ---------------------------------------------------------------- the effect of one visit

  /** The machine does not have its desired plan. */
  predicate Lags(r: Reconcilable) {
    r.node.None? || r.change || r.minorChange
  }

  lemma LagsDiffers(c: Cluster, r: Reconcilable)
    requires Current(c, r)
    ensures Lags(r) <==> Differs(c.secrets[r.name], r.desired)
  {
    if r.minorChange { PlanChange.MinorChangeNeverDrains(r.node.value.plan, r.desired); }
  }

  /** What a visit can do to the secret of its machine. */
  datatype Effect = Kept | Wrote | DrainRequested | UncordonRequested

  function Apply(s: Secret, r: Reconcilable, request: Mark, effect: Effect): Secret {
    match effect
    case Kept => s
    case Wrote => WithPlan(s, r.desired, r.joinedURL, -1, 1)
    case DrainRequested => s.(annotations := s.annotations.(drain := request))
    case UncordonRequested => s.(annotations := s.annotations.(unCordon := s.annotations.drain))
  }

  /** Requests are not part of the node, so a secret that reads still reads with them. */
  lemma RequestReads(s: Secret, drain: Mark, unCordon: Mark)
    ensures SecretToNode(s.(annotations := s.annotations.(drain := drain, unCordon := unCordon))) == SecretToNode(s)
  {
  }

  lemma DisruptedEffect(t: Tally, r: Reconcilable, options: DrainOptions) returns (effect: Effect)
    requires Current(t.cluster, r) && r.node.Some? && t.err == Nil
    ensures var t' := Disrupted(t, r, options);
      var s := t.cluster.secrets[r.name];
      var request := PlannerDrain.Requested(options, |t.cluster.machines| == 1);
      && t'.cluster == Put(t.cluster, r.name, Apply(s, r, request, effect))
      && (effect == DrainRequested ==> s.annotations.drain != request)
      && effect != UncordonRequested && (t'.err != Nil ==> effect == Wrote)
      && (effect == Kept ==>
            s.annotations.drain == request &&
            (PlannerDrain.DrainErrorReported(s.annotations) || s.annotations.drainDone != request))
  {
    hide SecretToNode, IsUnavailable, Quiet, PlanChange.ShouldDrain, PlanChange.MinorChange,
         PlannerDrain.DrainErrorReported;
    var s := t.cluster.secrets[r.name];
    var request := PlannerDrain.Requested(options, |t.cluster.machines| == 1);
    var answer := PlannerDrain.Drain(s.annotations, t.cluster.machines[r.name].nodeRef,
                                     r.node.value.appliedPlan, r.desired, |t.cluster.machines| == 1, options);
    if answer.annotations != s.annotations {
      RequestReads(s, request, s.annotations.unCordon);
      return DrainRequested;
    }
    assert Put(t.cluster, r.name, s) == t.cluster;
    if answer.ok && !answer.failed {
      return Wrote;
    }
    return Kept;
  }

  lemma SettledEffect(t: Tally, r: Reconcilable, g: Settings) returns (effect: Effect)
    requires Current(t.cluster, r) && t.err == Nil
    ensures var t' := Settled(t, r, g);
      var s := t.cluster.secrets[r.name];
      && t'.cluster == Put(t.cluster, r.name, Apply(s, r, Blank, effect))
      && t'.unavailable == t.unavailable && t'.err == Nil
      && (effect == UncordonRequested <==>
            s.annotations.drain != Blank && s.annotations.drain != s.annotations.unCordon)
      && (effect == Kept || effect == UncordonRequested)
  {
    hide SecretToNode, Matches, PlanChange.MinorChange, PlannerDrain.DrainErrorReported;
    var s := t.cluster.secrets[r.name];
    assert Put(t.cluster, r.name, s) == t.cluster;
    RequestReads(s, s.annotations.drain, s.annotations.drain);
    var answer := PlannerDrain.Undrain(s.annotations);
    return if answer.annotations != s.annotations then UncordonRequested else Kept;
  }

  /** The four effects of a visit, and when each can occur. Only a plan write can end with an error. */
  lemma VisitEffect(t: Tally, r: Reconcilable, concurrency: int, options: DrainOptions, g: Settings)
    returns (effect: Effect)
    requires Current(t.cluster, r) && t.err == Nil
    ensures var t' := Visited(t, r, concurrency, options, g);
      var s := t.cluster.secrets[r.name];
      var request := PlannerDrain.Requested(options, |t.cluster.machines| == 1);
      && t'.cluster == Put(t.cluster, r.name, Apply(s, r, request, effect))
      && (!r.change ==> t'.unavailable == t.unavailable)
      && (t'.err != Nil ==> effect == Wrote)
      && (effect == Wrote ==> Lags(r)) && (r.node.None? ==> effect == Wrote)
      && (effect == DrainRequested ==> r.change && s.annotations.drain != request)
      && (effect == UncordonRequested ==> !r.change && s.annotations.drain != Blank)
      && (effect == Kept ==>
            if r.change then
              || !Admitted(t.cluster, r, concurrency, t.unavailable)
              || (s.annotations.drain == request &&
                  (PlannerDrain.DrainErrorReported(s.annotations) || s.annotations.drainDone != request))
            else !Quiet(r.node) || s.annotations.drain == Blank || s.annotations.drain == s.annotations.unCordon)
  {
    hide Disrupted;
    hide Settled;
    var s := Summarized(t, r);
    var secret := t.cluster.secrets[r.name];
    assert Put(t.cluster, r.name, secret) == t.cluster;
    if r.node.None? || r.minorChange {
      return Wrote;
    } else if r.change {
      var o := s.(outOfSync := s.outOfSync + [r.name]);
      if Admitted(o.cluster, r, concurrency, o.unavailable) {
        effect := DisruptedEffect(o, r, options);
      } else {
        return Kept;
      }
    } else if !Quiet(r.node) {
      return Kept;
    } else {
      effect := SettledEffect(s, r, g);
    }
  }

  /** A visit never moves a machine away from its goal, whatever its state. */
  lemma VisitNeverRaises(t: Tally, r: Reconcilable, concurrency: int, options: DrainOptions, g: Settings)
    requires Current(t.cluster, r) && t.err == Nil
    ensures var t' := Visited(t, r, concurrency, options, g);
      var s, s' := t.cluster.secrets[r.name], t'.cluster.secrets[r.name];
      && Rank(s', r.desired) <= Rank(s, r.desired)
      && (s'.plan == s.plan || (Differs(s, r.desired) && !Differs(s', r.desired)))
      && (t'.err != Nil ==> Rank(s', r.desired) < Rank(s, r.desired))
  {
    hide Visited;
    LagsDiffers(t.cluster, r);
    var effect := VisitEffect(t, r, concurrency, options, g);
  }

  // ---------------------------------------------------------------- progress

  /** The machine has been given its desired plan, or has been asked to drain for it. */
  ghost predicate Advanced(s: Secret, s': Secret, r: Reconcilable, request: Mark) {
    && s'.appliedPlan == s.appliedPlan
    && (|| (Differs(s, r.desired) && !Differs(s', r.desired))
        || (s.annotations.drain == Blank == s.annotations.unCordon &&
            s' == s.(annotations := s.annotations.(drain := request))))
  }

  function RequestOf(c: Cluster, options: DrainOptions): Mark {
    PlannerDrain.Requested(options, |c.machines| == 1)
  }

  /** A visit of an available machine that lags, with room in the budget, always brings it forward. */
  lemma VisitAdvances(t: Tally, r: Reconcilable, concurrency: int, options: DrainOptions, g: Settings)
    requires Current(t.cluster, r) && t.err == Nil && Lags(r)
    requires r.node.Some? ==> !IsUnavailable(t.cluster, r)
    requires concurrency == 0 || t.unavailable < concurrency
    ensures var c' := Visited(t, r, concurrency, options, g).cluster;
      Advanced(t.cluster.secrets[r.name], c'.secrets[r.name], r, RequestOf(t.cluster, options))
  {
    hide Visited, Quiet, Lags;
    LagsDiffers(t.cluster, r);
    var effect := VisitEffect(t, r, concurrency, options, g);
  }

  /** A visit of a machine that does not lag leaves the counter alone and ends without an error. */
  lemma VisitPasses(t: Tally, r: Reconcilable, concurrency: int, options: DrainOptions, g: Settings)
    requires Current(t.cluster, r) && t.err == Nil && !Lags(r)
    ensures var t' := Visited(t, r, concurrency, options, g);
      t'.err == Nil && t'.unavailable == t.unavailable
  {
    hide Visited;
    var effect := VisitEffect(t, r, concurrency, options, g);
  }

  ghost predicate NoneUnavailable(c: Cluster, rs: seq<Reconcilable>) {
    forall i :: 0 <= i < |rs| && rs[i].node.Some? ==> !IsUnavailable(c, rs[i])
  }

  lemma TailCurrent(c: Cluster, c': Cluster, rs: seq<Reconcilable>)
    requires rs != [] && AllCurrent(c, rs) && Known(c, rs) && OnlyTouches(c, c', {rs[0].name})
    ensures AllCurrent(c', rs[1..]) && Known(c', rs[1..])
    ensures forall i :: 0 <= i < |rs[1..]| ==>
      rs[1..][i] == rs[i + 1] && rs[1..][i].name != rs[0].name &&
      c'.secrets[rs[i + 1].name] == c.secrets[rs[i + 1].name]
    ensures NoneUnavailable(c, rs) ==>
      NoneUnavailable(c', rs[1..]) && (rs[0].node.Some? ==> !IsUnavailable(c, rs[0]))
  {
    hide SecretToNode, PlanChange.MinorChange, PlannerDrain.InDrain;
    AllCurrentTail(c, rs);
    CurrentFrame(c, c', rs[1..], rs[0].name);
  }

  /** When no machine of the loop is unavailable and one of them lags, some machine is brought forward. */
  lemma {:induction false} LoopAdvances(t: Tally, rs: seq<Reconcilable>, concurrency: int, options: DrainOptions,
                                        g: Settings) returns (k: nat)
    requires AllCurrent(t.cluster, rs) && Known(t.cluster, rs) && t.err == Nil && NoneUnavailable(t.cluster, rs)
    requires concurrency == 0 || t.unavailable < concurrency
    requires exists i :: 0 <= i < |rs| && Lags(rs[i])
    ensures k < |rs| && Lags(rs[k]) && var c' := Scheduled(t, rs, concurrency, options, g).cluster;
      && rs[k].name in c'.secrets
      && Advanced(t.cluster.secrets[rs[k].name], c'.secrets[rs[k].name], rs[k], RequestOf(t.cluster, options))
    decreases |rs|
  {
    hide Visited, Lags, Advanced, IsUnavailable, AllCurrent, NoneUnavailable, Current;
    var r, rest := rs[0], rs[1..];
    var t1 := Visited(t, r, concurrency, options, g);
    AllCurrentTail(t.cluster, rs);
    TailCurrent(t.cluster, t1.cluster, rs);
    if Lags(r) {
      VisitAdvances(t, r, concurrency, options, g);
      LoopFrame(t1, rest, concurrency, options, g, r.name);
      k := 0;
    } else {
      VisitPasses(t, r, concurrency, options, g);
      var i :| 0 <= i < |rs| && Lags(rs[i]);
      assert rest[i - 1] == rs[i];
      var j := LoopAdvances(t1, rest, concurrency, options, g);
      k := j + 1;
    }
  }

  lemma {:induction false} CountsUnavailable(c: Cluster, rs: seq<Reconcilable>)
    ensures UnavailableCount(c, rs) == 0 <==> NoneUnavailable(c, rs)
  {
    hide IsUnavailable;
    if rs != [] {
      CountsUnavailable(c, rs[1..]);
      assert forall i :: 0 <= i < |rs[1..]| ==> rs[1..][i] == rs[i + 1];
      if NoneUnavailable(c, rs[1..]) && (rs[0].node.Some? ==> !IsUnavailable(c, rs[0])) {
        assert forall i :: 0 < i < |rs| ==> rs[i] == rs[1..][i - 1];
      }
    }
  }

  /** The pass gets to act: every entry has a plan to be given, and the limit is not negative. */
  ghost predicate Acts(c: Cluster, tier: Tier, g: Settings) {
    && Loaded(c) && Listed(c, Collected(c, tier.filter))
    && Gathered(c, Collected(c, tier.filter), tier.exclude, tier.joinURL, g).Good?
    && var allowed := Allowed(tier.maxUnavailable, Counted(c, Batch(c, tier, g), tier.exclude));
       allowed.Some? && allowed.value >= 0
  }

  /** A pass makes progress whenever no machine of its tier is unavailable and some machine does not have its desired
      plan: a machine is given its desired plan, or is asked to drain for it. This includes the machine whose probes
      fail and that waits for a plan to repair it. */
  lemma PassAdvances(c: Cluster, tier: Tier, g: Settings) returns (k: nat)
    requires Listed(c, Collected(c, tier.filter))
    ensures var rs, c' := Batch(c, tier, g), Reconciled(c, tier, g).cluster;
      Acts(c, tier, g) && UnavailableCount(c, rs) == 0 && (exists i :: 0 <= i < |rs| && Lags(rs[i])) ==>
        && k < |rs| && Lags(rs[k]) && rs[k].name in c.secrets && rs[k].name in c'.secrets
        && Advanced(c.secrets[rs[k].name], c'.secrets[rs[k].name], rs[k], RequestOf(c, tier.options))
  {
    hide Scheduled, Lags, Advanced, Loaded, Gathered, Matches, AllCurrent;
    var rs := Batch(c, tier, g);
    k := 0;
    if Acts(c, tier, g) && UnavailableCount(c, rs) == 0 && exists i :: 0 <= i < |rs| && Lags(rs[i]) {
      BatchCurrent(c, tier, g);
      CountsUnavailable(c, rs);
      var allowed := Allowed(tier.maxUnavailable, Counted(c, rs, tier.exclude));
      k := LoopAdvances(StartTally(c, 0), rs, allowed.value, tier.options, g);
    }
  }

  // ---------------------------------------------------------------- sums

  lemma {:induction false} RankSumBelow(c: Cluster, c': Cluster, names: seq<string>, want: Wanted)
    requires c.secrets.Keys == c'.secrets.Keys
    requires forall m :: m in names && m in want && m in c.secrets ==>
      Rank(c'.secrets[m], want[m]) <= Rank(c.secrets[m], want[m])
    ensures RankSum(c', names, want) <= RankSum(c, names, want)
    ensures (exists m :: m in names && m in want && m in c.secrets &&
                         Rank(c'.secrets[m], want[m]) < Rank(c.secrets[m], want[m])) ==>
      RankSum(c', names, want) < RankSum(c, names, want)
  {
    hide Rank;
    if names != [] {
      assert names == [names[0]] + names[1..];
      RankSumBelow(c, c', names[1..], want);
    }
  }

  lemma {:induction false} RankSumZero(c: Cluster, names: seq<string>, want: Wanted)
    ensures RankSum(c, names, want) == 0 <==>
      forall m :: m in names && m in want && m in c.secrets ==> Rank(c.secrets[m], want[m]) == 0
  {
    if names != [] {
      RankSumZero(c, names[1..], want);
      assert names == [names[0]] + names[1..];
    }
  }

  // ---------------------------------------------------------------- one pass

  lemma AimsTail(rs: seq<Reconcilable>, want: Wanted)
    requires rs != [] && Aims(rs, want)
    ensures Aims(rs[1..], want)
  {
    assert forall i :: 0 <= i < |rs[1..]| ==> rs[1..][i] == rs[i + 1];
  }

  /** After one visit, no machine with a wanted plan is further away from it. */
  lemma HeadNeverRaises(t: Tally, rs: seq<Reconcilable>, concurrency: int, options: DrainOptions, g: Settings,
                        want: Wanted)
    requires AllCurrent(t.cluster, rs) && Known(t.cluster, rs) && Aims(rs, want)
    requires rs != [] && t.err == Nil
    ensures var t1 := Visited(t, rs[0], concurrency, options, g);
      && OnlyTouches(t.cluster, t1.cluster, {rs[0].name})
      && NeverRaised(t.cluster, t1.cluster, want)
      && (t1.err != Nil && rs[0].name in want ==>
            Rank(t1.cluster.secrets[rs[0].name], rs[0].desired) < Rank(t.cluster.secrets[rs[0].name], rs[0].desired))
  {
    hide Visited, SecretToNode, PlanChange.MinorChange, Rank;
    var r := rs[0];
    AllCurrentTail(t.cluster, rs);
    if r.name in want { VisitNeverRaises(t, r, concurrency, options, g); }
  }

  /** No machine is further away from its goal than before, and no plan has changed but for the desired one. */
  ghost predicate NeverRaised(c: Cluster, c': Cluster, want: Wanted) {
    && c'.secrets.Keys == c.secrets.Keys
    && forall m :: m in want && m in c.secrets ==>
         && Rank(c'.secrets[m], want[m]) <= Rank(c.secrets[m], want[m])
         && (c'.secrets[m].plan == c.secrets[m].plan ||
             (Differs(c.secrets[m], want[m]) && !Differs(c'.secrets[m], want[m])))
  }

  /** The loop never raises a rank, so no plan is ever moved away from the desired one. */
  lemma {:induction false} LoopNeverRaises(t: Tally, rs: seq<Reconcilable>, concurrency: int, options: DrainOptions,
                                           g: Settings, want: Wanted)
    requires AllCurrent(t.cluster, rs) && Known(t.cluster, rs) && Aims(rs, want)
    ensures var c, c' := t.cluster, Scheduled(t, rs, concurrency, options, g).cluster;
      c'.machines == c.machines && NeverRaised(c, c', want)
    decreases |rs|
  {
    hide Visited, SecretToNode, PlanChange.MinorChange, Rank;
    if rs != [] && t.err == Nil {
      HeadNeverRaises(t, rs, concurrency, options, g, want);
      var t1 := Visited(t, rs[0], concurrency, options, g);
      TailCurrent(t.cluster, t1.cluster, rs);
      AimsTail(rs, want);
      LoopNeverRaises(t1, rs[1..], concurrency, options, g, want);
    }
  }

  function RankOf(c: Cluster, r: Reconcilable): nat
    requires r.name in c.secrets
  {
    Rank(c.secrets[r.name], r.desired)
  }

  /** The machine has done its part and waits for the planner: it has drained under the options in force, without an
      error, and has not been given its plan yet; or it has its plan, applied and healthy, and its drain is still to be
      reverted. */
  ghost predicate Prompted(c: Cluster, r: Reconcilable, options: DrainOptions)
    requires r.name in c.secrets
  {
    var a := c.secrets[r.name].annotations;
    || (RankOf(c, r) >= 2 && a.drain == RequestOf(c, options) == a.drainDone && !PlannerDrain.DrainErrorReported(a))
    || (RankOf(c, r) == 1 && Quiet(r.node))
  }

  lemma VisitMoves(t: Tally, r: Reconcilable, concurrency: int, options: DrainOptions, g: Settings)
    requires Current(t.cluster, r) && t.err == Nil && Prompted(t.cluster, r, options)
    ensures var c' := Visited(t, r, concurrency, options, g).cluster;
      Rank(c'.secrets[r.name], r.desired) < RankOf(t.cluster, r)
  {
    hide Visited, Quiet, PlanChange.MinorChange, Lags;
    LagsDiffers(t.cluster, r);
    var effect := VisitEffect(t, r, concurrency, options, g);
  }

  lemma PromptedFrame(c: Cluster, c': Cluster, r: Reconcilable, options: DrainOptions, m: string)
    requires OnlyTouches(c, c', {m}) && r.name != m && r.name in c.secrets
    ensures Prompted(c', r, options) <==> Prompted(c, r, options)
  {
  }

  /** The machine at position i waits for the planner: then some machine comes closer to its goal. */
  lemma {:induction false} LoopMoves(t: Tally, rs: seq<Reconcilable>, concurrency: int, options: DrainOptions,
                                     g: Settings, want: Wanted, i: nat) returns (k: nat)
    requires AllCurrent(t.cluster, rs) && Known(t.cluster, rs) && Aims(rs, want)
    requires i < |rs| && t.err == Nil && Prompted(t.cluster, rs[i], options)
    requires forall j :: 0 <= j < |rs| ==> rs[j].name in want
    ensures k < |rs| && var c' := Scheduled(t, rs, concurrency, options, g).cluster;
      rs[k].name in c'.secrets && Rank(c'.secrets[rs[k].name], rs[k].desired) < RankOf(t.cluster, rs[k])
    decreases |rs|
  {
    hide Visited, Rank, Current, AllCurrent, Aims, Prompted, NeverRaised;
    var r, rest := rs[0], rs[1..];
    var t1 := Visited(t, r, concurrency, options, g);
    AllCurrentTail(t.cluster, rs);
    HeadNeverRaises(t, rs, concurrency, options, g, want);
    TailCurrent(t.cluster, t1.cluster, rs);
    LoopFrame(t1, rest, concurrency, options, g, r.name);
    if i == 0 {
      VisitMoves(t, r, concurrency, options, g);
      k := 0;
    } else if t1.err != Nil {
      k := 0;
    } else {
      AimsTail(rs, want);
      PromptedFrame(t.cluster, t1.cluster, rs[i], options, r.name);
      var j := LoopMoves(t1, rest, concurrency, options, g, want, i - 1);
      k := j + 1;
    }
  }

  /** What is asked of every pass: as far as it plans for machines with a wanted plan, it plans for that plan. */
  ghost predicate Aimed(c: Cluster, tier: Tier, g: Settings, want: Wanted) {
    && Listed(c, Collected(c, tier.filter))
    && Aims(Batch(c, tier, g), want)
  }

  /** In every pass, each plan written to a planned machine turns a machine that differed into one that does not. */
  lemma PassNeverRaises(c: Cluster, tier: Tier, g: Settings, names: seq<string>, want: Wanted)
    requires Loaded(c) && Aimed(c, tier, g, want)
    ensures var c' := Reconciled(c, tier, g).cluster;
      NeverRaised(c, c', want) && RankSum(c', names, want) <= RankSum(c, names, want)
  {
    hide Scheduled, Gathered, Matches, AllCurrent, Loaded, Rank;
    BatchCurrent(c, tier, g);
    var rs := Batch(c, tier, g);
    if Gathered(c, Collected(c, tier.filter), tier.exclude, tier.joinURL, g).Good? {
      var allowed := Allowed(tier.maxUnavailable, Counted(c, rs, tier.exclude));
      if allowed.Some? {
        LoopNeverRaises(StartTally(c, UnavailableCount(c, rs)), rs, allowed.value, tier.options, g, want);
      }
    }
    RankSumBelow(c, Reconciled(c, tier, g).cluster, names, want);
  }

  /** The pass gets to act on exactly these machines, and finds no machine unavailable or some machine that waits for
      it. Otherwise an agent, a drain or a hook has still something to do, or failed. */
  ghost predicate Free(c: Cluster, tier: Tier, g: Settings, names: seq<string>, want: Wanted) {
    && Acts(c, tier, g) && Known(c, Batch(c, tier, g)) && NamesOf(Batch(c, tier, g)) == names
    && (forall m :: m in names ==> m in want)
    && var rs := Batch(c, tier, g);
       || UnavailableCount(c, rs) == 0
       || exists i :: 0 <= i < |rs| && Prompted(c, rs[i], tier.options)
  }

  lemma AdvancedLowers(s: Secret, s': Secret, r: Reconcilable, request: Mark)
    requires Advanced(s, s', r, request) && Differs(s, r.desired) && request != Blank
    ensures Rank(s', r.desired) < Rank(s, r.desired)
  {
  }

  /** A machine that is available and not where it should be lags. */
  lemma AvailableLags(c: Cluster, r: Reconcilable)
    requires Current(c, r) && RankOf(c, r) > 0 && (r.node.Some? ==> !IsUnavailable(c, r))
    ensures Lags(r)
  {
    LagsDiffers(c, r);
  }

  /** A free pass brings some machine closer to its goal, if any has still to move. */
  lemma FreeMoves(c: Cluster, tier: Tier, g: Settings, names: seq<string>, want: Wanted) returns (k: nat)
    requires Loaded(c) && Aimed(c, tier, g, want)
    requires Free(c, tier, g, names, want) && RankSum(c, names, want) > 0
    ensures var rs, c' := Batch(c, tier, g), Reconciled(c, tier, g).cluster;
      && k < |rs| && rs[k].name in c.secrets && rs[k].name in c'.secrets
      && Rank(c'.secrets[rs[k].name], rs[k].desired) < Rank(c.secrets[rs[k].name], rs[k].desired)
  {
    hide Scheduled, Gathered, Matches, Loaded, Rank, Current, Prompted, Advanced, Lags, RankSum, IsUnavailable;
    BatchCurrent(c, tier, g);
    var rs := Batch(c, tier, g);
    assert forall i :: 0 <= i < |rs| ==> names[i] == rs[i].name && names[i] in names;
    if UnavailableCount(c, rs) == 0 {
      RankSumZero(c, names, want);
      var m :| m in names && m in want && m in c.secrets && Rank(c.secrets[m], want[m]) != 0;
      var i :| 0 <= i < |rs| && names[i] == m;
      CountsUnavailable(c, rs);
      AvailableLags(c, rs[i]);
      k := PassAdvances(c, tier, g);
      LagsDiffers(c, rs[k]);
      AdvancedLowers(c.secrets[rs[k].name], Reconciled(c, tier, g).cluster.secrets[rs[k].name], rs[k],
                     RequestOf(c, tier.options));
    } else {
      var i :| 0 <= i < |rs| && Prompted(c, rs[i], tier.options);
      var allowed := Allowed(tier.maxUnavailable, Counted(c, rs, tier.exclude));
      k := LoopMoves(StartTally(c, UnavailableCount(c, rs)), rs, allowed.value, tier.options, g, want, i);
    }
  }

  /** A free pass lowers the sum of the steps to go, unless it is zero. */
  lemma PassMoves(c: Cluster, tier: Tier, g: Settings, names: seq<string>, want: Wanted)
    requires Listed(c, Collected(c, tier.filter))
    ensures Aimed(c, tier, g, want) && Free(c, tier, g, names, want) &&
            RankSum(c, names, want) > 0 ==>
      RankSum(Reconciled(c, tier, g).cluster, names, want) < RankSum(c, names, want)
  {
    hide Reconciled, Gathered, Matches, Loaded, Rank, RankSum, Prompted, Batch;
    if Aimed(c, tier, g, want) && Free(c, tier, g, names, want) && RankSum(c, names, want) > 0 {
      var k := FreeMoves(c, tier, g, names, want);
      PassNeverRaises(c, tier, g, names, want);
      var m := NamesOf(Batch(c, tier, g))[k];
      assert m == Batch(c, tier, g)[k].name && m in names;
      RankSumBelow(c, Reconciled(c, tier, g).cluster, names, want);
    }
  }

  /** The machine is idle: its plan is applied and healthy, and any drain that was requested, under the options in
      force, has completed and is not being reverted. */
  ghost predicate Calm(c: Cluster, r: Reconcilable, options: DrainOptions)
    requires r.name in c.secrets
  {
    var a := c.secrets[r.name].annotations;
    && Quiet(r.node)
    && !PlannerDrain.DrainErrorReported(a)
    && (a.drain == Blank ==> !PlannerDrain.InDrain(a))
    && (a.drain != Blank ==> a.drain == RequestOf(c, options) == a.drainDone && a.unCordon == Blank)
  }

  /** A pass that finds every machine idle is free. */
  lemma CalmIsFree(c: Cluster, tier: Tier, g: Settings, names: seq<string>, want: Wanted)
    requires Listed(c, Collected(c, tier.filter)) && Known(c, Batch(c, tier, g))
    ensures Acts(c, tier, g) && NamesOf(Batch(c, tier, g)) == names && (forall m :: m in names ==> m in want) &&
            (forall i :: 0 <= i < |Batch(c, tier, g)| ==> Calm(c, Batch(c, tier, g)[i], tier.options)) ==>
      Free(c, tier, g, names, want)
  {
    hide Gathered, Matches, Rank, Acts;
    var rs := Batch(c, tier, g);
    CountsUnavailable(c, rs);
    if Acts(c, tier, g) && (forall i :: 0 <= i < |rs| ==> Calm(c, rs[i], tier.options)) {
      BatchCurrent(c, tier, g) by { assert Loaded(c) by { ActsLoaded(c, tier, g); } }
      forall i | 0 <= i < |rs| ensures Prompted(c, rs[i], tier.options) || !IsUnavailable(c, rs[i]) {
        CalmOrPrompted(c, rs[i], tier.options);
      }
    }
  }

  lemma ActsLoaded(c: Cluster, tier: Tier, g: Settings)
    requires Acts(c, tier, g)
    ensures Loaded(c)
  {
  }

  lemma CalmOrPrompted(c: Cluster, r: Reconcilable, options: DrainOptions)
    requires Current(c, r) && Calm(c, r, options)
    ensures Prompted(c, r, options) || !IsUnavailable(c, r)
  {
  }

  // ---------------------------------------------------------------- runs

  /** What is asked of a pass of the run: it has the same goals. */
  ghost predicate Settling(c: Cluster, e: Event, want: Wanted) {
    e.Pass? && Loaded(Refreshed(c)) ==> Aimed(Refreshed(c), e.tier, e.g, want)
  }

  /** The event is a free pass. */
  ghost predicate FreePass(c: Cluster, e: Event, names: seq<string>, want: Wanted) {
    e.Pass? && Free(Refreshed(c), e.tier, e.g, names, want)
  }

  /** The number of free passes. */
  ghost function FreePasses(cs: seq<Cluster>, es: seq<Event>, names: seq<string>, want: Wanted): nat
    requires |cs| == |es| + 1
  {
    if es == [] then 0
    else FreePasses(cs[..|es|], es[..|es| - 1], names, want) +
         (if FreePass(cs[|es| - 1], es[|es| - 1], names, want) then 1 else 0)
  }

  lemma HandlerNeverRaises(s: Secret, plan: NodePlan, nodeRef: Option<string>, node: MachineDrain.NodeState,
                           io: MachineDrain.IO)
    ensures var s' := s.(annotations := MachineDrain.Handle(s.annotations, nodeRef, node, io).annotations);
      Rank(s', plan) <= Rank(s, plan)
  {
  }

  lemma ControllerKeepsRank(s: Secret, plan: NodePlan, now: string)
    ensures var s' := PlanSecret.Handled(s, now).secret;
      Rank(s', plan) == Rank(s, plan)
  {
    hide SecretToNode;
  }

  /** The other parties never move a machine away from its goal either. */
  lemma OthersNeverRaise(c: Cluster, e: Event, c': Cluster, names: seq<string>, want: Wanted)
    requires !e.Pass? && Step(c, e, c')
    ensures RankSum(c', names, want) <= RankSum(c, names, want)
  {
    hide MachineDrain.Handle, PlanSecret.Handled, SecretToNode, Reconciled;
    forall m | m in want && m in c.secrets
      ensures Rank(c'.secrets[m], want[m]) <= Rank(c.secrets[m], want[m])
    {
      if m == e.m {
        match e
        case AgentReports(_) =>
        case ControllerRuns(_, now) => ControllerKeepsRank(c.secrets[m], want[m], now);
        case DrainerRuns(_, nodeRef, node, io) => HandlerNeverRaises(c.secrets[m], want[m], nodeRef, node, io);
        case HookAnswers(_, _, _) =>
      }
    }
    RankSumBelow(c, c', names, want);
  }

  lemma {:induction false} RefreshedSum(c: Cluster, names: seq<string>, want: Wanted)
    ensures RankSum(Refreshed(c), names, want) == RankSum(c, names, want)
  {
    if names != [] {
      RefreshedSum(c, names[1..], want);
    }
  }

  lemma StepConverges(c: Cluster, e: Event, c': Cluster, names: seq<string>, want: Wanted)
    requires Step(c, e, c') && Settling(c, e, want)
    ensures RankSum(c', names, want) <= RankSum(c, names, want)
    ensures FreePass(c, e, names, want) && RankSum(c, names, want) > 0 ==>
      RankSum(c', names, want) < RankSum(c, names, want)
  {
    hide Reconciled, SecretToNode, Rank, RankSum, Loaded, Batch, Matches;
    if e.Pass? {
      var loaded := Refreshed(c);
      RefreshedSum(c, names, want);
      if Loaded(loaded) {
        PassNeverRaises(loaded, e.tier, e.g, names, want);
        PassMoves(loaded, e.tier, e.g, names, want);
      }
    } else {
      OthersNeverRaise(c, e, c', names, want);
    }
  }

  /** No step of any run raises the sum, and every free pass takes at least one off it, until it is zero. */
  lemma {:induction false} RunConverges(cs: seq<Cluster>, es: seq<Event>, names: seq<string>, want: Wanted)
    requires |cs| == |es| + 1
    requires forall i :: 0 <= i < |es| ==> Step(cs[i], es[i], cs[i + 1]) && Settling(cs[i], es[i], want)
    ensures RankSum(cs[|es|], names, want) == 0 ||
            RankSum(cs[|es|], names, want) + FreePasses(cs, es, names, want) <= RankSum(cs[0], names, want)
    decreases |es|
  {
    hide Step, Settling, FreePass, RankSum;
    if es != [] {
      var n := |es| - 1;
      var cs', es' := cs[..|es|], es[..n];
      forall i | 0 <= i < |es'| ensures Step(cs'[i], es'[i], cs'[i + 1]) && Settling(cs'[i], es'[i], want) {
        assert cs'[i] == cs[i] && cs'[i + 1] == cs[i + 1] && es'[i] == es[i];
      }
      RunConverges(cs', es', names, want);
      assert Step(cs[n], es[n], cs[n + 1]);
      StepConverges(cs[n], es[n], cs[n + 1], names, want);
    }
  }

  lemma {:induction false} RankSumBound(c: Cluster, names: seq<string>, want: Wanted)
    ensures RankSum(c, names, want) <= 3 * |names|
  {
    if names != [] { RankSumBound(c, names[1..], want); }
  }

  /** Three free passes per machine are enough, whatever happens between them: after them every machine holds its
      desired plan, and no drain is left without a requested uncordon. */
  lemma ThreePassesPerMachine(cs: seq<Cluster>, es: seq<Event>, names: seq<string>, want: Wanted)
    requires |cs| == |es| + 1
    requires forall i :: 0 <= i < |es| ==> Step(cs[i], es[i], cs[i + 1]) && Settling(cs[i], es[i], want)
    requires FreePasses(cs, es, names, want) >= 3 * |names|
    ensures forall m :: m in names && m in want && m in cs[|es|].secrets ==>
      && cs[|es|].secrets[m].plan == Encoded(want[m])
      && (cs[|es|].secrets[m].annotations.drain == Blank ||
          cs[|es|].secrets[m].annotations.unCordon == cs[|es|].secrets[m].annotations.drain)
  {
    RunConverges(cs, es, names, want);
    RankSumBound(cs[0], names, want);
    RankSumZero(cs[|es|], names, want);
    forall m | m in names && m in want && m in cs[|es|].secrets
      ensures Rank(cs[|es|].secrets[m], want[m]) == 0
    {
    }
  }
}
